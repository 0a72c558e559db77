/**
 * The application shell: decoding a shared report from the `reportId` query
 * parameter, choosing the page to render from (view, authenticated, report),
 * and the handlers that move between views (initial load, sign-in, logout,
 * "Back to Portal", navigation).
 *
 * The lemmas at the end connect the share link written by the result panel
 * with this decoder.
 */
module App {
  import opened Wrappers
  import opened Types
  import opened Urls
  import Diagnosis
  import Results

  // ---------------------------------------------------------------------------
  // Decoding a shared report
  // ---------------------------------------------------------------------------

  const DecodedInterpretation: string :=
    "This analysis indicates consistent patterns with the selected classification. " +
    "SHAP values suggest the model prioritized structural density and boundary regularity. " +
    "Further clinical correlation is recommended."

  /** The label of a decoded report: `M` anywhere in the id wins, then `B`, otherwise Normal. */
  function DecodedLabel(id: string): (p: Prediction)
    ensures p == Malignant <==> 'M' in id
    ensures p == Benign <==> 'M' !in id && 'B' in id
    ensures p == Normal <==> 'M' !in id && 'B' !in id
  {
    if 'M' in id then Malignant else if 'B' in id then Benign else Normal
  }

  /** An id holding both letters decodes as Malignant: `M` is tested first. */
  lemma MalignantTakesPrecedence(id: string)
    requires 'M' in id && 'B' in id
    ensures DecodedLabel(id) == Malignant
  {
  }

  /** The SHAP triple of a decoded report: positive values when the id has an `M`, negative otherwise. */
  function DecodedShap(id: string): (t: seq<FeatureImportance>)
    ensures |t| == 3 && forall i :: 0 <= i < 3 ==> t[i].feature == ChartFeatures[i]
    ensures forall i :: 0 <= i < |t| ==> SignConsistent(t[i])
    ensures 'M' in id ==> forall i :: 0 <= i < |t| ==> t[i].value > 0.0
    ensures 'M' !in id ==> forall i :: 0 <= i < |t| ==> t[i].value < 0.0
  {
    var m := 'M' in id;
    [FeatureImportance("radius_mean", if m then 0.45 else -0.22, if m then Positive else Negative),
     FeatureImportance("texture_worst", if m then 0.38 else -0.15, if m then Positive else Negative),
     FeatureImportance("concavity_mean", if m then 0.22 else -0.10, if m then Positive else Negative)]
  }

  /** Confidence of a decoded report: 0.92 plus 0.05 times a fresh draw in [0, 1). */
  function DecodedConfidence(r: real): (c: real)
    requires 0.0 <= r < 1.0
    ensures 0.92 <= c < 0.97
  {
    0.92 + r * 0.05
  }

  /** The whole report synthesized from an id, a draw and the clock. */
  function DecodeReport(id: string, r: real, now: int): (rep: DiagnosisResult)
    requires 0.0 <= r < 1.0
    ensures rep.id == id && rep.timestamp == now
    ensures rep.mode == IMAGE && rep.isPublished == Some(true)
    ensures rep.prediction == DecodedLabel(id) && rep.shapValues == DecodedShap(id)
    ensures 0.92 <= rep.confidence < 0.97
    ensures rep.imageUrl.None? && rep.publicUrl.None?
    ensures rep.aiInterpretation == Some(DecodedInterpretation)
  {
    DiagnosisResult(
      id := id,
      timestamp := now,
      mode := IMAGE,
      prediction := DecodedLabel(id),
      confidence := DecodedConfidence(r),
      imageUrl := None,
      shapValues := DecodedShap(id),
      aiInterpretation := Some(DecodedInterpretation),
      isPublished := Some(true),
      publicUrl := None)
  }

  /** The report of the current address: none without a non-empty `reportId`, else the decoded one. */
  function GetReportFromUrl(query: seq<Param>, r: real, now: int): (rep: Option<DiagnosisResult>)
    requires 0.0 <= r < 1.0
    ensures rep.None? <==> Get(query, Results.ReportIdKey) in {None, Some("")}
    ensures rep.Some? ==> Get(query, Results.ReportIdKey) == Some(rep.value.id)
    ensures rep.Some? ==> rep.value == DecodeReport(rep.value.id, r, now)
  {
    var reportId := Get(query, Results.ReportIdKey);
    if reportId.None? || reportId.value == "" then None
    else Some(DecodeReport(reportId.value, r, now))
  }

  /** The decoded label and table are a function of the id alone, whatever the draw and the clock. */
  lemma DecodedLabelDependsOnlyOnId(id: string, r1: real, r2: real, t1: int, t2: int)
    requires 0.0 <= r1 < 1.0 && 0.0 <= r2 < 1.0
    ensures DecodeReport(id, r1, t1).prediction == DecodeReport(id, r2, t2).prediction
    ensures DecodeReport(id, r1, t1).shapValues == DecodeReport(id, r2, t2).shapValues
  {
  }

  /**
   * Decoded Benign and Normal reports carry the same negative triple, while the
   * workspace attaches a different triple to each; for Malignant both agree.
   */
  lemma DecodedTablesAgainstWorkspace(idB: string, idN: string, idM: string)
    requires DecodedLabel(idB) == Benign && DecodedLabel(idN) == Normal && DecodedLabel(idM) == Malignant
    ensures DecodedShap(idB) == DecodedShap(idN)
    ensures Diagnosis.ShapTable(Benign) != Diagnosis.ShapTable(Normal)
    ensures DecodedShap(idB) != Diagnosis.ShapTable(Benign)
    ensures DecodedShap(idN) != Diagnosis.ShapTable(Normal)
    ensures DecodedShap(idM) == Diagnosis.ShapTable(Malignant)
  {
    Diagnosis.ShapTableInjective(Benign, Normal);
    assert DecodedShap(idB)[0].value != Diagnosis.ShapTable(Benign)[0].value;
    assert DecodedShap(idN)[0].value != Diagnosis.ShapTable(Normal)[0].value;
  }

  /** Opening `?reportId=XM1` shows a Malignant report with that id. */
  lemma SharedXM1IsMalignant(r: real, now: int)
    requires 0.0 <= r < 1.0
    ensures var rep := GetReportFromUrl([Param("reportId", "XM1")], r, now);
      rep.Some? && rep.value.id == "XM1" && rep.value.prediction == Malignant
  {
    assert 'M' == "XM1"[1];
  }

  // ---------------------------------------------------------------------------
  // Share link and decoder together
  // ---------------------------------------------------------------------------

  /** Opening a share address decodes a report carrying exactly the shared id. */
  lemma ShareRoundTrip(loc: Url, id: string, r: real, now: int)
    requires id != "" && 0.0 <= r < 1.0
    ensures GetReportFromUrl(Results.ShareUrl(loc, id).query, r, now) == Some(DecodeReport(id, r, now))
  {
  }

  lemma ReportIdKeyIsUrlSafe()
    ensures UrlSafe(Results.ReportIdKey)
  {
    var k := Results.ReportIdKey;
    assert forall i :: 0 <= i < |k| ==> 'a' <= k[i] <= 'z' || 'A' <= k[i] <= 'Z';
  }

  /**
   * For a URL-safe id the text of the share link's query parses back to the
   * single `reportId` parameter, so the decoder sees the published id.
   */
  lemma ShareLinkTextRoundTrip(loc: Url, id: string, r: real, now: int)
    requires UrlSafe(id) && id != "" && 0.0 <= r < 1.0
    ensures ParseSearch(SearchString(Results.ShareUrl(loc, id).query)) == Results.ShareUrl(loc, id).query
    ensures GetReportFromUrl(ParseSearch(SearchString(Results.ShareUrl(loc, id).query)), r, now)
            == Some(DecodeReport(id, r, now))
  {
    ReportIdKeyIsUrlSafe();
    var q := Results.ShareUrl(loc, id).query;
    ParseSearchRoundTrip(q);
  }

  /**
   * A result of the workspace survives publishing: its id (built from a
   * base-36 draw) is URL-safe, the link text parses back to it, and the report
   * opened from the link has the same id. Its label is the one the id's
   * letters give, whatever label the run produced.
   */
  lemma WorkspaceResultSurvivesSharing(res: DiagnosisResult, draw36: string, loc: Url, r: real, now: int)
    requires Diagnosis.Base36Text(draw36) && res.id == Diagnosis.IdFromDraw(draw36)
    requires 0.0 <= r < 1.0
    ensures var rep := GetReportFromUrl(ParseSearch(SearchString(Results.ShareUrl(loc, res.id).query)), r, now);
      rep.Some? && rep.value.id == res.id && rep.value.prediction == DecodedLabel(res.id)
  {
    ShareLinkTextRoundTrip(loc, res.id, r, now);
  }

  /** The id the workspace builds from the base-36 draw `0.m12345`. */
  lemma IdOfDrawM12345()
    ensures Diagnosis.IdFromDraw("0.m12345") == "ONCO-M12345"
  {
    assert Diagnosis.Upper("0.m12345") == "0.M12345";
    assert Diagnosis.Substr("0.M12345", 2, 6) == "M12345";
  }

  /** The id `ONCO-M12345` holds an `M`, so it decodes as Malignant. */
  lemma IdM12345IsMalignant()
    ensures DecodedLabel("ONCO-M12345") == Malignant
  {
    var id := "ONCO-M12345";
    assert id[5] == 'M';
  }

  /**
   * The label does not survive sharing in general: a workspace result labelled
   * Normal whose id draw renders as `0.m12345` is shared as `ONCO-M12345` and
   * opens as Malignant.
   */
  lemma SharedLabelCanDiffer(loc: Url, r: real, now: int)
    requires 0.0 <= r < 1.0
    ensures var res := Diagnosis.BuildResult(IMAGE, Some(FileRef("ab", 1)), Diagnosis.ImageLabel("ab"),
                                             "0.m12345", 0.5, "", now, "blob:scan");
      && res.prediction == Normal
      && res.id == "ONCO-M12345"
      && GetReportFromUrl(Results.ShareUrl(loc, res.id).query, r, now).value.prediction == Malignant
  {
    var res := Diagnosis.BuildResult(IMAGE, Some(FileRef("ab", 1)), Diagnosis.ImageLabel("ab"),
                                     "0.m12345", 0.5, "", now, "blob:scan");
    assert res.prediction == Normal by {
      var name := "ab";
      assert forall i :: 0 <= i < |name| ==> name[i] as int <= 0xFFFF;
      Diagnosis.Utf16LengthBasicPlane(name);
      assert Diagnosis.Utf16Length(name) % 3 == 2;
    }
    assert res.id == "ONCO-M12345" by {
      IdOfDrawM12345();
    }
    var id := "ONCO-M12345";
    assert GetReportFromUrl(Results.ShareUrl(loc, id).query, r, now).value.prediction == Malignant by {
      ShareRoundTrip(loc, id, r, now);
      IdM12345IsMalignant();
    }
  }

  // ---------------------------------------------------------------------------
  // Pages
  // ---------------------------------------------------------------------------

  /** What the main area shows. */
  datatype Page =
    | PublicReportPage(report: DiagnosisResult)
    | LoginPage
    | HomePage          // hero followed by the architecture diagram
    | DashboardPage
    | ArchitecturePage
    | AboutPage
    | HeroPage          // hero alone: the fallback of the view switch

  /**
   * The page for a (view, authenticated, report) state. A public report is
   * shown whatever the sign-in state; every other page is behind sign-in; an
   * unauthenticated visitor outside a public report sees the login form.
   */
  function RenderView(view: AppView, authenticated: bool, report: Option<DiagnosisResult>): (p: Page)
    ensures p.PublicReportPage? <==> view == PUBLIC_REPORT && report.Some?
    ensures p.PublicReportPage? ==> report == Some(p.report)
    ensures p == LoginPage <==> !authenticated && !(view == PUBLIC_REPORT && report.Some?)
    ensures (!p.PublicReportPage? && p != LoginPage) ==> authenticated
  {
    if view == PUBLIC_REPORT && report.Some? then PublicReportPage(report.value)
    else if !authenticated then LoginPage
    else match view
      case HOME => HomePage
      case DIAGNOSIS => DashboardPage
      case ARCHITECTURE => ArchitecturePage
      case ABOUT => AboutPage
      case _ => HeroPage
  }

  /** Signed in and off a public report, each view has its own page; HISTORY falls back to the hero. */
  lemma RenderViewSwitch(view: AppView, report: Option<DiagnosisResult>)
    requires !(view == PUBLIC_REPORT && report.Some?)
    ensures RenderView(view, true, report) == HomePage <==> view == HOME
    ensures RenderView(view, true, report) == DashboardPage <==> view == DIAGNOSIS
    ensures RenderView(view, true, report) == ArchitecturePage <==> view == ARCHITECTURE
    ensures RenderView(view, true, report) == AboutPage <==> view == ABOUT
    ensures RenderView(view, true, report) == HeroPage <==> view == HISTORY || view == PUBLIC_REPORT
  {
  }

  /** The navigation bar is shown on every view except the public report. */
  predicate NavbarShown(view: AppView) {
    view != PUBLIC_REPORT
  }

  /** In a reachable state the navigation bar is hidden exactly while the public report is on screen. */
  lemma NavbarHiddenExactlyOnPublicReport(view: AppView, authenticated: bool, report: Option<DiagnosisResult>)
    requires Reachable(view, report)
    ensures !NavbarShown(view) <==> RenderView(view, authenticated, report).PublicReportPage?
  {
  }

  /** The views the navigation bar links to. */
  const NavViews: set<AppView> := {HOME, DIAGNOSIS, ARCHITECTURE, ABOUT}

  /** The states the shell can reach: a public-report view always has its report, and HISTORY is never entered. */
  predicate Reachable(view: AppView, report: Option<DiagnosisResult>) {
    (view == PUBLIC_REPORT ==> report.Some?) && view != HISTORY
  }

  /** In a reachable state the hero-only fallback of the view switch is never rendered. */
  lemma FallbackUnreachable(view: AppView, authenticated: bool, report: Option<DiagnosisResult>)
    requires Reachable(view, report)
    ensures RenderView(view, authenticated, report) != HeroPage
    ensures view == PUBLIC_REPORT ==> RenderView(view, authenticated, report).PublicReportPage?
  {
  }

  // ---------------------------------------------------------------------------
  // The shell
  // ---------------------------------------------------------------------------

  class AppShell {
    var isAuthenticated: bool
    var currentView: AppView
    var publicReport: Option<DiagnosisResult>
    /** The address bar. */
    var location: Url

    ghost predicate Valid()
      reads this
    {
      Reachable(currentView, publicReport)
    }

    /** Page load: signed out; a decodable `reportId` opens the public report, otherwise home. */
    constructor (loc: Url, r: real, now: int)
      requires 0.0 <= r < 1.0
      ensures Valid()
      ensures !isAuthenticated && location == loc
      ensures publicReport == GetReportFromUrl(loc.query, r, now)
      ensures currentView == if publicReport.Some? then PUBLIC_REPORT else HOME
    {
      var initialReport := GetReportFromUrl(loc.query, r, now);
      isAuthenticated := false;
      currentView := if initialReport.Some? then PUBLIC_REPORT else HOME;
      publicReport := initialReport;
      location := loc;
    }

    function CurrentPage(): Page
      reads this
    {
      RenderView(currentView, isAuthenticated, publicReport)
    }

    /** Logout: signed out, home view, and the address reduced to its path, so no `reportId` is left. */
    method HandleLogout()
      requires Valid()
      modifies this
      ensures Valid()
      ensures !isAuthenticated && currentView == HOME
      ensures location == PathOnly(old(location))
      ensures Get(location.query, Results.ReportIdKey).None?
      ensures publicReport == old(publicReport)
    {
      isAuthenticated := false;
      currentView := HOME;
      location := PathOnly(location);
    }

    /** "Back to Portal" on a public report: the address loses its query, the view goes home, the report is dropped. */
    method BackToPortal()
      requires Valid() && CurrentPage().PublicReportPage?
      modifies this
      ensures Valid()
      ensures currentView == HOME && publicReport.None?
      ensures location == PathOnly(old(location))
      ensures Get(location.query, Results.ReportIdKey).None?
      ensures isAuthenticated == old(isAuthenticated)
    {
      location := PathOnly(location);
      currentView := HOME;
      publicReport := None;
    }

    /** The login form's success callback: signed in, nothing else changes. */
    method OnLogin()
      requires Valid() && CurrentPage() == LoginPage
      modifies this`isAuthenticated
      ensures Valid()
      ensures isAuthenticated
    {
      isAuthenticated := true;
    }

    /** A navigation-bar link. */
    method SetView(v: AppView)
      requires Valid() && NavbarShown(currentView) && v in NavViews
      modifies this`currentView
      ensures Valid()
      ensures currentView == v
    {
      currentView := v;
    }

    /** The hero's start button opens the workspace. */
    method StartDiagnosis()
      requires Valid() && (CurrentPage() == HomePage || CurrentPage() == HeroPage)
      modifies this`currentView
      ensures Valid()
      ensures currentView == DIAGNOSIS && CurrentPage() == DashboardPage
    {
      currentView := DIAGNOSIS;
    }
  }
}
