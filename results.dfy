/**
 * The result panel: the share link a result is published under, the colour
 * choices driven by the label and the SHAP values, and the panel's own state
 * (published flag, public link, copied flag).
 *
 * The page address, the outcome of the clipboard write and the end of the
 * two-second timer are parameters or separate events.
 */
module Results {
  import opened Wrappers
  import opened Types
  import opened Urls

  /** The one query parameter a shared report travels in. */
  const ReportIdKey: string := "reportId"

  // ---------------------------------------------------------------------------
  // Share link
  // ---------------------------------------------------------------------------

  /** The current address with every parameter cleared and then `reportId` set to `id`. */
  function ShareUrl(loc: Url, id: string): (u: Url)
    ensures u.origin == loc.origin && u.pathname == loc.pathname && u.hash == loc.hash
    ensures u.query == [Param(ReportIdKey, id)]
    ensures Get(u.query, ReportIdKey) == Some(id)
    ensures forall key :: key != ReportIdKey ==> Get(u.query, key).None?
  {
    var cleared := loc.(query := []);
    cleared.(query := cleared.query + [Param(ReportIdKey, id)])
  }

  /** The link the panel publishes and copies: the share address as text, `?reportId=<id>` between path and fragment. */
  function ShareLink(loc: Url, id: string): (link: string)
    ensures link == loc.origin + loc.pathname + "?" + ReportIdKey + "=" + id + loc.hash
  {
    var q := ShareUrl(loc, id).query;
    assert Serialize(q) == ReportIdKey + "=" + id;
    Href(ShareUrl(loc, id))
  }

  /**
   * The link built by hand when the address cannot be parsed: the same
   * `?reportId=<id>` query as the primary link, but without the fragment.
   */
  function FallbackShareLink(loc: Url, id: string): (link: string)
    ensures link + loc.hash == ShareLink(loc, id)
    ensures loc.hash == "" ==> link == ShareLink(loc, id)
  {
    loc.origin + loc.pathname + "?" + ReportIdKey + "=" + id
  }

  /** Parameters present before publishing leave no trace in the link. */
  lemma ShareLinkIgnoresEarlierQuery(a: Url, b: Url, id: string)
    requires a.origin == b.origin && a.pathname == b.pathname && a.hash == b.hash
    ensures ShareLink(a, id) == ShareLink(b, id)
  {
  }

  /** A share link is never the empty string, so a published panel always has a link to show. */
  lemma ShareLinkNonEmpty(loc: Url, id: string)
    ensures ShareLink(loc, id) != ""
  {
    assert SearchString(ShareUrl(loc, id).query) != "";
  }

  // ---------------------------------------------------------------------------
  // Colours
  // ---------------------------------------------------------------------------

  /** The colour family of the header, badge and confidence bar. */
  datatype Tone = Red | Amber | Green

  /** Malignant is red, Benign amber, anything else green. */
  function StatusTone(p: Prediction): (t: Tone)
    ensures t == Red <==> p == Malignant
    ensures t == Amber <==> p == Benign
    ensures t == Green <==> p == Normal
  {
    match p
    case Malignant => Red
    case Benign => Amber
    case _ => Green
  }

  /** Fill of one SHAP bar: red (#ef4444) or blue (#3b82f6). */
  datatype BarFill = RedBar | BlueBar

  /** A bar is red exactly when its value is positive; for a sign-consistent entry, exactly when its impact is positive. */
  function BarColour(f: FeatureImportance): (b: BarFill)
    ensures SignConsistent(f) ==> (b == RedBar <==> f.impact == Positive)
    ensures f.value == 0.0 ==> b == BlueBar
  {
    if f.value > 0.0 then RedBar else BlueBar
  }

  /** Colour of the heat-map overlay on the scan: red or green. */
  datatype Overlay = RedOverlay | GreenOverlay

  function HeatmapOverlay(p: Prediction): (o: Overlay)
    ensures o == RedOverlay <==> StatusTone(p) == Red
  {
    if p == Malignant then RedOverlay else GreenOverlay
  }

  // ---------------------------------------------------------------------------
  // The panel
  // ---------------------------------------------------------------------------

  class ResultsPanel {
    const result: DiagnosisResult
    var showHeatmap: bool
    var isCopied: bool
    var isPublished: bool
    var publicUrl: string

    /**
     * A link is only held once published, a result that arrives published stays
     * published, and any link held is the share link of this result's id.
     */
    ghost predicate Valid()
      reads this
    {
      && (publicUrl != "" ==> isPublished)
      && (result.isPublished == Some(true) ==> isPublished)
      && (publicUrl == "" || exists loc :: publicUrl == ShareLink(loc, result.id))
    }

    /** Mounting the panel, including the effect that fills in the link of an already published result. */
    constructor (r: DiagnosisResult, loc: Url)
      ensures Valid()
      ensures result == r && showHeatmap && !isCopied
      ensures HeatmapShown() <==> r.imageUrl.Some?
      ensures isPublished == (r.isPublished == Some(true))
      ensures publicUrl == if r.isPublished == Some(true) then ShareLink(loc, r.id) else ""
    {
      result := r;
      showHeatmap := true;
      isCopied := false;
      isPublished := r.isPublished.GetOr(false);
      publicUrl := "";
      new;
      if r.isPublished == Some(true) {
        var link := ShareLink(loc, r.id);
        ShareLinkNonEmpty(loc, r.id);
        publicUrl := link;
        assert exists l :: publicUrl == ShareLink(l, result.id);
      }
    }

    function ShowPublishButton(): bool
      reads this
    {
      !isPublished
    }

    function ShowLinkPanel(): bool
      reads this
    {
      isPublished && publicUrl != ""
    }

    /** The overlay is drawn over a scan (when there is one) for as long as the toggle is on. */
    function HeatmapShown(): bool
      reads this
    {
      result.imageUrl.Some? && showHeatmap
    }

    /** Publish: hold the share link of the current address and mark the result published. */
    method HandlePublish(loc: Url)
      requires Valid()
      modifies this`isPublished, this`publicUrl
      ensures Valid()
      ensures isPublished && publicUrl == ShareLink(loc, result.id)
      ensures ShowLinkPanel() && !ShowPublishButton()
    {
      var link := ShareLink(loc, result.id);
      ShareLinkNonEmpty(loc, result.id);
      publicUrl := link;
      isPublished := true;
    }

    /**
     * Copy: the held link, or a freshly built one when none is held, goes to the
     * clipboard. When the write succeeds the copied flag is raised; when it fails
     * nothing changes.
     */
    method HandleCopyLink(loc: Url, clipboardOk: bool) returns (link: string)
      requires Valid()
      modifies this`isCopied
      ensures Valid()
      ensures link == if publicUrl != "" then publicUrl else ShareLink(loc, result.id)
      ensures exists l :: link == ShareLink(l, result.id)
      ensures isCopied == (clipboardOk || old(isCopied))
    {
      link := if publicUrl != "" then publicUrl else ShareLink(loc, result.id);
      if clipboardOk {
        isCopied := true;
      }
    }

    /** The two-second timer after a successful copy lowers the copied flag again. */
    method CopyTimerElapsed()
      requires Valid()
      modifies this`isCopied
      ensures Valid() && !isCopied
    {
      isCopied := false;
    }
  }
}
