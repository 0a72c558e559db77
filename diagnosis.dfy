/**
 * The diagnostic workspace: input gating, the mock label derivation, the fixed
 * explanation tables, the construction of a result record, and the workspace
 * state (mode, file, stage, result, clinical form) that the event handlers and
 * one analysis run update.
 *
 * Random draws, the clock, the object URL of an uploaded file and the reply of
 * the external text service are parameters.
 */
module Diagnosis {
  import opened Wrappers
  import opened Types
  import Urls

  // ---------------------------------------------------------------------------
  // Clinical form
  // ---------------------------------------------------------------------------

  /** The five clinical marker fields, each holding the text typed into it. */
  datatype ClinicalData = ClinicalData(
    radiusMean: string,
    textureMean: string,
    perimeterMean: string,
    areaMean: string,
    smoothnessMean: string)

  const EmptyClinical: ClinicalData := ClinicalData("", "", "", "", "")

  /** The four fields the form renders an input for (smoothness has none). */
  datatype ClinicalField = RadiusMean | TextureMean | PerimeterMean | AreaMean

  /** The text held by one of the four rendered fields. */
  function Field(d: ClinicalData, f: ClinicalField): string {
    match f
    case RadiusMean => d.radiusMean
    case TextureMean => d.textureMean
    case PerimeterMean => d.perimeterMean
    case AreaMean => d.areaMean
  }

  /** The form after typing `v` into field `f`: that field replaced, every other field kept. */
  function WithField(d: ClinicalData, f: ClinicalField, v: string): (e: ClinicalData)
    ensures Field(e, f) == v
    ensures forall g :: g != f ==> Field(e, g) == Field(d, g)
    ensures e.smoothnessMean == d.smoothnessMean
  {
    match f
    case RadiusMean => d.(radiusMean := v)
    case TextureMean => d.(textureMean := v)
    case PerimeterMean => d.(perimeterMean := v)
    case AreaMean => d.(areaMean := v)
  }

  // ---------------------------------------------------------------------------
  // Gating and stages
  // ---------------------------------------------------------------------------

  /** A run may start: a file in image mode, a non-empty radius in clinical mode. */
  function InputReady(mode: DiagnosisMode, file: Option<FileRef>, clinical: ClinicalData): (ok: bool)
    ensures mode == IMAGE ==> (ok <==> file.Some?)
    ensures mode == CLINICAL ==> (ok <==> clinical.radiusMean != "")
  {
    !(file.None? && mode == IMAGE) && !(mode == CLINICAL && clinical.radiusMean == "")
  }

  /** A run is under way: the stage is neither the resting IDLE nor the final COMPLETE. */
  function IsProcessing(step: ProcessingStep): (b: bool)
    ensures b <==> Ordinal(IDLE) < Ordinal(step) < Ordinal(COMPLETE)
  {
    step != IDLE && step != COMPLETE
  }

  /**
   * The submit button is greyed out while a run is under way or while the input
   * is missing; an enabled button therefore always passes the run's guard.
   */
  function SubmitDisabled(step: ProcessingStep, mode: DiagnosisMode, file: Option<FileRef>,
                          clinical: ClinicalData): (d: bool)
    ensures d <==> IsProcessing(step) || !InputReady(mode, file, clinical)
    ensures !d ==> InputReady(mode, file, clinical) && !IsProcessing(step)
  {
    IsProcessing(step) || (file.None? && mode == IMAGE) || (mode == CLINICAL && clinical.radiusMean == "")
  }

  // ---------------------------------------------------------------------------
  // Label derivation
  // ---------------------------------------------------------------------------

  /** Width of one character in UTF-16 code units: two above U+FFFF, one otherwise. */
  function CodeUnits(c: char): nat {
    if c as int > 0xFFFF then 2 else 1
  }

  /** What JavaScript's `length` counts: UTF-16 code units, two for a character above U+FFFF. */
  function Utf16Length(s: string): (n: nat)
    ensures |s| <= n <= 2 * |s|
  {
    if s == [] then 0 else CodeUnits(s[0]) + Utf16Length(s[1..])
  }

  /** Without characters above U+FFFF, the code-unit length is the character count. */
  lemma {:induction false} Utf16LengthBasicPlane(s: string)
    requires forall i :: 0 <= i < |s| ==> s[i] as int <= 0xFFFF
    ensures Utf16Length(s) == |s|
  {
    if s != [] {
      assert forall i :: 0 <= i < |s[1..]| ==> s[1..][i] == s[i + 1];
      Utf16LengthBasicPlane(s[1..]);
    }
  }

  /** A single character above U+FFFF makes the code-unit length exceed the character count. */
  lemma {:induction false} Utf16LengthAstral(s: string, k: nat)
    requires k < |s| && s[k] as int > 0xFFFF
    ensures Utf16Length(s) > |s|
  {
    if k > 0 {
      assert s[1..][k - 1] == s[k];
      Utf16LengthAstral(s[1..], k - 1);
    }
  }

  /** Image mode: the label is the file name's length modulo 3 (0 Malignant, 1 Benign, 2 Normal). */
  function ImageLabel(name: string): (p: Prediction)
    ensures p == Malignant <==> Utf16Length(name) % 3 == 0
    ensures p == Benign <==> Utf16Length(name) % 3 == 1
    ensures p == Normal <==> Utf16Length(name) % 3 == 2
  {
    var len := Utf16Length(name);
    if len % 3 == 0 then Malignant else if len % 3 == 1 then Benign else Normal
  }

  /** Clinical mode: a uniform draw in [0, 1) split at 0.33 and 0.66. */
  function ClinicalLabel(r: real): (p: Prediction)
    ensures p == Normal <==> r < 0.33
    ensures p == Benign <==> 0.33 <= r < 0.66
    ensures p == Malignant <==> 0.66 <= r
  {
    if r < 0.33 then Normal else if r < 0.66 then Benign else Malignant
  }

  /** The label of a run: from the file name when in image mode with a file, else from the draw. */
  function DerivePrediction(mode: DiagnosisMode, file: Option<FileRef>, draw: real): (p: Prediction)
    ensures mode == IMAGE && file.Some? ==> p == ImageLabel(file.value.name)
    ensures !(mode == IMAGE && file.Some?) ==> p == ClinicalLabel(draw)
  {
    if mode == IMAGE && file.Some? then ImageLabel(file.value.name) else ClinicalLabel(draw)
  }

  /** Names whose lengths agree modulo 3 get the same label; in particular a name always gets the same label. */
  lemma ImageLabelDependsOnLengthMod3(a: string, b: string)
    requires Utf16Length(a) % 3 == Utf16Length(b) % 3
    ensures ImageLabel(a) == ImageLabel(b)
  {
  }

  /** Every label is produced by some file name and by some draw in [0, 1). */
  lemma EveryLabelReachable(p: Prediction)
    ensures exists name: string :: ImageLabel(name) == p
    ensures exists r: real :: 0.0 <= r < 1.0 && ClinicalLabel(r) == p
  {
    var name: string := if p == Malignant then "" else if p == Benign then "a" else "ab";
    assert forall i :: 0 <= i < |name| ==> name[i] as int <= 0xFFFF;
    Utf16LengthBasicPlane(name);
    assert ImageLabel(name) == p;
    var r: real := if p == Normal then 0.0 else if p == Benign then 0.5 else 0.9;
    assert ClinicalLabel(r) == p;
  }

  /** Order of severity used to compare labels: Normal < Benign < Malignant. */
  function Severity(p: Prediction): nat {
    match p
    case Normal => 0
    case Benign => 1
    case Malignant => 2
  }

  /** A larger draw never yields a less severe clinical label. */
  lemma ClinicalLabelMonotone(r1: real, r2: real)
    requires r1 <= r2
    ensures Severity(ClinicalLabel(r1)) <= Severity(ClinicalLabel(r2))
  {
  }

  /** A file named `scanA.png` has 9 characters, all in the basic plane, so it is labelled Malignant. */
  lemma ScanExampleIsMalignant()
    ensures Utf16Length("scanA.png") == 9
    ensures ImageLabel("scanA.png") == Malignant
  {
    var name := "scanA.png";
    assert forall i :: 0 <= i < |name| ==> name[i] as int <= 0xFFFF;
    Utf16LengthBasicPlane(name);
    assert Utf16Length(name) % 3 == 0;
  }

  /**
   * A character above U+FFFF counts twice: `😀.png` is five characters but six
   * code units long, so it is labelled Malignant, not Normal.
   */
  lemma AstralNameCountsTwice()
    ensures |"\U{1F600}.png"| == 5
    ensures Utf16Length("\U{1F600}.png") == 6
    ensures ImageLabel("\U{1F600}.png") == Malignant
  {
    var name := "\U{1F600}.png";
    assert name == ['\U{1F600}'] + ".png";
    assert name[1..] == ".png";
    var rest := ".png";
    assert forall i :: 0 <= i < |rest| ==> rest[i] as int <= 0xFFFF;
    Utf16LengthBasicPlane(rest);
  }

  // ---------------------------------------------------------------------------
  // Explanation table
  // ---------------------------------------------------------------------------

  /** The fixed SHAP triple the workspace attaches to each label. */
  function ShapTable(p: Prediction): (t: seq<FeatureImportance>)
    ensures |t| == 3 && forall i :: 0 <= i < 3 ==> t[i].feature == ChartFeatures[i]
    ensures forall i :: 0 <= i < |t| ==> SignConsistent(t[i])
    ensures p == Malignant <==> forall i :: 0 <= i < |t| ==> t[i].impact == Positive
    ensures p == Normal <==> forall i :: 0 <= i < |t| ==> t[i].impact == Negative
  {
    match p
    case Malignant =>
      var t := [FeatureImportance("radius_mean", 0.45, Positive),
                FeatureImportance("texture_worst", 0.38, Positive),
                FeatureImportance("concavity_mean", 0.22, Positive)];
      assert t[0].impact != Negative;
      t
    case Benign =>
      var t := [FeatureImportance("radius_mean", 0.15, Positive),
                FeatureImportance("texture_worst", -0.10, Negative),
                FeatureImportance("concavity_mean", -0.15, Negative)];
      assert t[0].impact != Negative && t[1].impact != Positive;
      t
    case Normal =>
      var t := [FeatureImportance("radius_mean", -0.32, Negative),
                FeatureImportance("texture_worst", -0.21, Negative),
                FeatureImportance("concavity_mean", -0.15, Negative)];
      assert t[0].impact != Positive;
      t
  }

  /** The table determines the label: three labels, three distinct tables. */
  lemma ShapTableInjective(p: Prediction, q: Prediction)
    ensures ShapTable(p) == ShapTable(q) <==> p == q
  {
    if p != q {
      assert ShapTable(p)[0].value != ShapTable(q)[0].value;
    }
  }

  // ---------------------------------------------------------------------------
  // Result construction
  // ---------------------------------------------------------------------------

  /** Confidence of a local run: 0.85 plus 0.14 times a draw in [0, 1). */
  function DashboardConfidence(r: real): (c: real)
    requires 0.0 <= r < 1.0
    ensures 0.85 <= c < 0.99
  {
    0.85 + r * 0.14
  }

  /** The sentence shown when the external text service fails. */
  const InterpretationFallback: string :=
    "Unable to generate AI interpretation at this time. Please refer to the feature importance chart below."

  /** The interpretation text: the service's reply, or the fixed fallback sentence when the call fails. */
  function Interpretation(reply: Option<string>): (text: string)
    ensures reply.Some? ==> text == reply.value
    ensures reply.None? ==> text == InterpretationFallback
  {
    reply.GetOr(InterpretationFallback)
  }

  /** Lower-case ASCII letters, the only characters upper-casing a base-36 rendering changes. */
  predicate IsLowerAscii(c: char) {
    'a' <= c <= 'z'
  }

  /** Upper-casing of one character: `a`..`z` to `A`..`Z`, everything else kept. */
  function UpperChar(c: char): (u: char)
    ensures IsLowerAscii(c) ==> 'A' <= u <= 'Z' && u as int + 32 == c as int
    ensures !IsLowerAscii(c) ==> u == c
    ensures !IsLowerAscii(u)
  {
    if 'a' <= c <= 'z' then (c as int - 32) as char else c
  }

  /**
   * `toUpperCase()` on a base-36 rendering: same length, every lower-case ASCII
   * letter replaced by its capital, every other character kept, and no
   * lower-case ASCII letter left.
   */
  function Upper(s: string): (u: string)
    ensures |u| == |s|
    ensures forall i :: 0 <= i < |s| && IsLowerAscii(s[i]) ==> 'A' <= u[i] <= 'Z' && u[i] as int + 32 == s[i] as int
    ensures forall i :: 0 <= i < |s| && !IsLowerAscii(s[i]) ==> u[i] == s[i]
    ensures forall i :: 0 <= i < |u| ==> !IsLowerAscii(u[i])
  {
    seq(|s|, i requires 0 <= i < |s| => UpperChar(s[i]))
  }

  /** Upper-casing twice changes nothing more. */
  lemma {:induction false} UpperIdempotent(s: string)
    ensures Upper(Upper(s)) == Upper(s)
  {
    var u := Upper(s);
    forall i | 0 <= i < |u| ensures Upper(u)[i] == u[i] {
      assert !IsLowerAscii(u[i]);
    }
  }

  /** `s.substr(start, n)`: at most `n` characters from `start`, fewer at the end, none past it. */
  function Substr(s: string, start: nat, n: nat): (r: string)
    ensures |r| <= n
    ensures start >= |s| ==> r == ""
    ensures start < |s| ==> |r| == (if start + n <= |s| then n else |s| - start)
    ensures forall i :: 0 <= i < |r| ==> start + i < |s| && r[i] == s[start + i]
  {
    if start >= |s| then ""
    else if start + n <= |s| then s[start..start + n]
    else s[start..]
  }

  /** The text a base-36 rendering of a draw in [0, 1) is made of: digits, lower-case letters, a point. */
  predicate Base36Text(s: string) {
    forall i :: 0 <= i < |s| ==> ('0' <= s[i] <= '9') || ('a' <= s[i] <= 'z') || s[i] == '.'
  }

  const IdPrefix: string := "ONCO-"

  /** `ONCO-` followed by characters 2..7 of the upper-cased base-36 rendering of a draw. */
  function IdFromDraw(draw36: string): (id: string)
    ensures 5 <= |id| <= 11 && id[..5] == IdPrefix
    ensures id[5..] == Substr(Upper(draw36), 2, 6)
    ensures Base36Text(draw36) ==> Urls.UrlSafe(id)
  {
    var suffix := Substr(Upper(draw36), 2, 6);
    var id := IdPrefix + suffix;
    assert id[..5] == IdPrefix && id[5..] == suffix;
    assert Base36Text(draw36) ==> Urls.UrlSafe(id) by {
      if Base36Text(draw36) {
        forall i | 0 <= i < |id| ensures Urls.UrlSafeChar(id[i]) {
          if i >= 5 {
            assert id[i] == suffix[i - 5] == Upper(draw36)[2 + i - 5];
          }
        }
      }
    }
    id
  }

  /** The record a completed run shows. */
  function BuildResult(mode: DiagnosisMode, file: Option<FileRef>, prediction: Prediction,
                       idDraw: string, confidenceDraw: real, aiText: string, now: int,
                       objectUrl: string): (r: DiagnosisResult)
    requires 0.0 <= confidenceDraw < 1.0
    ensures r.mode == mode && r.prediction == prediction && r.timestamp == now
    ensures r.shapValues == ShapTable(r.prediction)
    ensures r.id == IdFromDraw(idDraw) && |r.id| >= 5 && r.id[..5] == IdPrefix
    ensures r.imageUrl.Some? <==> file.Some?
    ensures 0.85 <= r.confidence < 0.99
    ensures r.aiInterpretation == Some(aiText)
    ensures r.isPublished.None? && r.publicUrl.None?
  {
    DiagnosisResult(
      id := IdFromDraw(idDraw),
      timestamp := now,
      mode := mode,
      prediction := prediction,
      confidence := DashboardConfidence(confidenceDraw),
      imageUrl := if file.Some? then Some(objectUrl) else None,
      shapValues := ShapTable(prediction),
      aiInterpretation := Some(aiText),
      isPublished := None,
      publicUrl := None)
  }

  // ---------------------------------------------------------------------------
  // What a run shows
  // ---------------------------------------------------------------------------

  /** The (stage, result) pair the workspace shows at one moment. */
  datatype Snapshot = Snapshot(step: ProcessingStep, result: Option<DiagnosisResult>)

  /** The states a run shows while it is processing: each stage in turn, with no result. */
  const ProcessingTrace: seq<Snapshot> := [
    Snapshot(PREPROCESSING, None),
    Snapshot(CNN_EXTRACTION, None),
    Snapshot(ML_CLASSIFICATION, None),
    Snapshot(XAI_CALCULATION, None),
    Snapshot(AI_INSIGHTS, None)]

  /** The states one run passes through: one per pause, then the finished result. */
  function RunTrace(r: DiagnosisResult): seq<Snapshot> {
    ProcessingTrace + [Snapshot(COMPLETE, Some(r))]
  }

  /**
   * A run walks the stages strictly forward from PREPROCESSING to COMPLETE,
   * shows no result while it is processing, and shows the result only together
   * with COMPLETE.
   */
  lemma RunTraceForward(r: DiagnosisResult)
    ensures var t := RunTrace(r);
      && |t| == 6 && t[0].step == PREPROCESSING && t[5] == Snapshot(COMPLETE, Some(r))
      && (forall i, j :: 0 <= i < j < |t| ==> Ordinal(t[i].step) < Ordinal(t[j].step))
      && (forall i :: 0 <= i < |t| - 1 ==> t[i].result.None? && IsProcessing(t[i].step))
      && (forall i :: 0 <= i < |t| ==> Ordinal(t[i].step) == i + 1)
  {
  }

  // ---------------------------------------------------------------------------
  // The workspace
  // ---------------------------------------------------------------------------

  class Workspace {
    var mode: DiagnosisMode
    var file: Option<FileRef>
    var step: ProcessingStep
    var result: Option<DiagnosisResult>
    var clinical: ClinicalData
    /** Every (stage, result) state shown so far, the newest last. */
    ghost var trace: seq<Snapshot>

    /**
     * Between two events the workspace rests at IDLE without a result or at
     * COMPLETE with one; a shown result belongs to the current mode and carries
     * its label's table; clinical mode holds no file; the trace ends in the
     * state shown now.
     */
    ghost predicate Valid()
      reads this
    {
      && (step == IDLE || step == COMPLETE)
      && (result.Some? <==> step == COMPLETE)
      && (result.Some? ==>
            && result.value.mode == mode
            && result.value.shapValues == ShapTable(result.value.prediction)
            && (result.value.imageUrl.Some? <==> file.Some?))
      && (mode == CLINICAL ==> file.None?)
      && (trace == [] || trace[|trace| - 1] == Snapshot(step, result))
    }

    constructor ()
      ensures Valid()
      ensures mode == IMAGE && file == None && step == IDLE && result == None
      ensures clinical == EmptyClinical && trace == []
    {
      mode := IMAGE;
      file := None;
      step := IDLE;
      result := None;
      clinical := EmptyClinical;
      trace := [];
    }

    /** The spinner and the greyed-out button of a running workspace. */
    function Processing(): bool
      reads this
    {
      IsProcessing(step)
    }

    function SubmitButtonDisabled(): bool
      reads this
    {
      SubmitDisabled(step, mode, file, clinical)
    }

    /** Picking a file (or dropping one): the first file is taken, the old result and stage are cleared. */
    method HandleFileChange(files: seq<FileRef>)
      requires Valid() && mode == IMAGE
      modifies this
      ensures Valid()
      ensures files == [] ==> unchanged(this)
      ensures files != [] ==>
        && file == Some(files[0]) && result == None && step == IDLE
        && mode == old(mode) && clinical == old(clinical)
        && trace == old(trace) + [Snapshot(IDLE, None)]
    {
      if files != [] {
        file := Some(files[0]);
        result := None;
        step := IDLE;
        trace := trace + [Snapshot(step, result)];
      }
    }

    /** Dropping files on the drop zone does what picking them does. */
    method HandleDrop(files: seq<FileRef>)
      requires Valid() && mode == IMAGE
      modifies this
      ensures Valid()
      ensures files == [] ==> unchanged(this)
      ensures files != [] ==>
        && file == Some(files[0]) && result == None && step == IDLE
        && mode == old(mode) && clinical == old(clinical)
        && trace == old(trace) + [Snapshot(IDLE, None)]
    {
      HandleFileChange(files);
    }

    /** Typing into one of the clinical fields. */
    method EditClinical(f: ClinicalField, v: string)
      requires Valid() && mode == CLINICAL
      modifies this`clinical
      ensures Valid()
      ensures clinical == WithField(old(clinical), f, v)
    {
      clinical := WithField(clinical, f, v);
    }

    /** Clear the file, the result, the stage and all five clinical fields; the mode stays. */
    method Reset()
      modifies this
      ensures Valid()
      ensures file == None && result == None && step == IDLE && clinical == EmptyClinical
      ensures mode == old(mode)
      ensures trace == old(trace) + [Snapshot(IDLE, None)]
    {
      file := None;
      result := None;
      step := IDLE;
      clinical := EmptyClinical;
      trace := trace + [Snapshot(step, result)];
    }

    /** The two mode buttons: switch mode, then reset. */
    method SelectMode(m: DiagnosisMode)
      requires Valid()
      modifies this
      ensures Valid()
      ensures mode == m
      ensures file == None && result == None && step == IDLE && clinical == EmptyClinical
      ensures trace == old(trace) + [Snapshot(IDLE, None)]
    {
      mode := m;
      Reset();
    }

    /** Move to stage `s` and show it, the result untouched. */
    method ShowStage(s: ProcessingStep)
      modifies this`step, this`trace
      ensures step == s
      ensures trace == old(trace) + [Snapshot(s, result)]
    {
      step := s;
      trace := trace + [Snapshot(step, result)];
    }

    /** The five processing stages in turn, each shown with no result. */
    method ShowProcessingStages()
      modifies this`step, this`trace, this`result
      ensures step == AI_INSIGHTS && result == None
      ensures trace == old(trace) + ProcessingTrace
    {
      ghost var before := trace;
      result := None;
      ShowStage(PREPROCESSING);
      assert trace == before + ProcessingTrace[..1];
      // pause of 800 ms
      ShowStage(CNN_EXTRACTION);
      assert trace == before + ProcessingTrace[..2];
      // pause of 1000 ms
      ShowStage(ML_CLASSIFICATION);
      assert trace == before + ProcessingTrace[..3];
      // pause of 800 ms
      ShowStage(XAI_CALCULATION);
      assert trace == before + ProcessingTrace[..4];
      // pause of 900 ms
      ShowStage(AI_INSIGHTS);
      assert trace == before + ProcessingTrace;
    }

    /**
     * One analysis run. Without the required input nothing changes. Otherwise
     * the stages are shown in order with no result, the label, table and record
     * are built from the mode and file of the moment the run started, and the
     * run ends at COMPLETE showing that record.
     */
    method StartAnalysis(labelDraw: real, idDraw: string, confidenceDraw: real,
                         reply: Option<string>, now: int, objectUrl: string)
      requires Valid()
      requires 0.0 <= labelDraw < 1.0 && 0.0 <= confidenceDraw < 1.0
      requires Base36Text(idDraw)
      modifies this
      ensures Valid()
      ensures InputReady(old(mode), old(file), old(clinical)) ==> result.Some? && Urls.UrlSafe(result.value.id)
      ensures !InputReady(old(mode), old(file), old(clinical)) ==> unchanged(this)
      ensures InputReady(old(mode), old(file), old(clinical)) ==>
        && mode == old(mode) && file == old(file) && clinical == old(clinical)
        && step == COMPLETE
        && result == Some(BuildResult(mode, file, DerivePrediction(mode, file, labelDraw),
                                      idDraw, confidenceDraw, Interpretation(reply), now, objectUrl))
        && trace == old(trace) + RunTrace(result.value)
    {
      if file.None? && mode == IMAGE { return; }
      if mode == CLINICAL && clinical.radiusMean == "" { return; }

      ShowProcessingStages();
      var prediction := DerivePrediction(mode, file, labelDraw);
      // waiting for the text service
      var aiText := Interpretation(reply);
      var r := BuildResult(mode, file, prediction, idDraw, confidenceDraw, aiText, now, objectUrl);
      result := Some(r);
      ShowStage(COMPLETE);
    }
  }
}
