/**
 * Fusion (the body of `scan`): the weighted final score, the verdict
 * thresholds, the defaults for missing classifier fields, and the reasons
 * list truncated to six entries. A classifier record whose fields cannot be
 * used makes `scan` raise; that is the `Err` side of `Fuse`.
 */
module Fusion {
  import opened Wrappers
  import opened JsonValue
  import opened Features
  import opened Heuristics
  import opened Classifier

  datatype Verdict = Safe | Suspicious | Phishing

  const HeuristicWeight: real := 0.45
  const ClassifierWeight: real := 0.55
  const PhishingThreshold: real := 75.0
  const SuspiciousThreshold: real := 45.0
  const MaxReasons: nat := 6

  /** Why `scan` raises on the classifier record. */
  datatype ScanError =
    | NotAnObject       // `genai.get` on a value that is not a dictionary
    | ScoreNotANumber   // `float(genai_score)` raises
    | ReasonsNotAList   // `ml_reasons + top_reasons` with a non-list

  datatype ScanResult = ScanResult(
    url: string,
    verdict: Verdict,
    riskScore: real,
    mlScore: real,
    genaiScore: real,
    reasons: seq<Json>,
    signals: UrlFeatures,
    genaiSummary: Json)

  // ---------------------------------------------------------------------------
  // Score and verdict
  // ---------------------------------------------------------------------------

  /** `0.45 * ml_score + 0.55 * genai_score`, exactly. */
  function FinalScore(ml: real, genai: real): (r: real)
    ensures ml <= genai ==> ml <= r <= genai
    ensures genai <= ml ==> genai <= r <= ml
    ensures 0.0 <= ml <= 100.0 && 0.0 <= genai <= 100.0 ==> 0.0 <= r <= 100.0
  {
    HeuristicWeight * ml + ClassifierWeight * genai
  }

  function VerdictFor(score: real): (v: Verdict)
    ensures v == Phishing <==> score >= PhishingThreshold
    ensures v == Suspicious <==> SuspiciousThreshold <= score < PhishingThreshold
    ensures v == Safe <==> score < SuspiciousThreshold
  {
    if score >= PhishingThreshold then Phishing
    else if score >= SuspiciousThreshold then Suspicious
    else Safe
  }

  function Severity(v: Verdict): nat {
    match v
    case Safe => 0
    case Suspicious => 1
    case Phishing => 2
  }

  /** A higher final score never gives a milder verdict. */
  lemma VerdictIsMonotone(a: real, b: real)
    requires a <= b
    ensures Severity(VerdictFor(a)) <= Severity(VerdictFor(b))
  {
  }

  /** Worked fusion examples. */
  lemma FusionExamples()
    ensures FinalScore(0.0, 0.0) == 0.0 && VerdictFor(0.0) == Safe
    ensures FinalScore(100.0, 100.0) == 100.0 && VerdictFor(100.0) == Phishing
    ensures FinalScore(20.0, 50.0) == 36.5 && VerdictFor(36.5) == Safe
    ensures FinalScore(60.0, 60.0) == 60.0 && VerdictFor(60.0) == Suspicious
  {
  }

  // ---------------------------------------------------------------------------
  // Reading the classifier record
  // ---------------------------------------------------------------------------

  /** The heuristic reasons as list elements. */
  function Strs(xs: seq<string>): (r: seq<Json>)
    ensures |r| == |xs| && forall k :: 0 <= k < |xs| ==> r[k] == Str(xs[k])
  {
    seq(|xs|, k requires 0 <= k < |xs| => Str(xs[k]))
  }

  function Min(a: nat, b: nat): nat {
    if a < b then a else b
  }

  /** `(ml_reasons + top_reasons)[:6]`. */
  function FusedReasons(mlReasons: seq<string>, topReasons: seq<Json>): (r: seq<Json>)
    ensures |r| == Min(MaxReasons, |mlReasons| + |topReasons|)
    ensures forall k :: 0 <= k < |r| && k < |mlReasons| ==> r[k] == Str(mlReasons[k])
    ensures forall k :: |mlReasons| <= k < |r| ==> r[k] == topReasons[k - |mlReasons|]
  {
    var all := Strs(mlReasons) + topReasons;
    all[..Min(MaxReasons, |all|)]
  }

  /**
   * Lines 243-266 of `scan`: fuse the heuristic result with the classifier
   * record. A missing `genai_score` counts as 50 and missing `top_reasons` as
   * an empty list.
   */
  function Fuse(url: string, features: UrlFeatures, mlScore: nat, mlReasons: seq<string>,
                genai: Json, parseFloat: FloatParser): (r: Result<ScanResult, ScanError>)
    ensures r.Ok? <==> Usable(genai, parseFloat)
    ensures !genai.Object? ==> r == Err(NotAnObject)
    ensures genai.Object? && ToFloat(Get(genai.fields, "genai_score", Number(DefaultGenaiScore)), parseFloat).None? ==>
      r == Err(ScoreNotANumber)
    ensures (genai.Object? && ToFloat(Get(genai.fields, "genai_score", Number(DefaultGenaiScore)), parseFloat).Some? &&
             !Get(genai.fields, "top_reasons", Array([])).Array?) ==> r == Err(ReasonsNotAList)
    ensures r.Ok? ==>
      var s := r.value;
      s.url == url && s.signals == features && s.genaiSummary == genai && s.mlScore == mlScore as real &&
      s.riskScore == FinalScore(mlScore as real, s.genaiScore) && s.verdict == VerdictFor(s.riskScore)
    ensures r.Ok? && "genai_score" !in genai.fields ==> r.value.genaiScore == DefaultGenaiScore
    ensures r.Ok? && "genai_score" in genai.fields ==> Some(r.value.genaiScore) == ToFloat(genai.fields["genai_score"], parseFloat)
    ensures r.Ok? && "genai_score" in genai.fields && genai.fields["genai_score"].Number? ==>
      r.value.genaiScore == genai.fields["genai_score"].n
    ensures r.Ok? && "genai_score" in genai.fields && genai.fields["genai_score"].Bool? ==>
      r.value.genaiScore == if genai.fields["genai_score"].b then 1.0 else 0.0
    ensures genai.Object? && "genai_score" in genai.fields && genai.fields["genai_score"].Str? ==>
      (r.Ok? ==> parseFloat(genai.fields["genai_score"].s) == Some(r.value.genaiScore)) &&
      (parseFloat(genai.fields["genai_score"].s).None? ==> r == Err(ScoreNotANumber))
    ensures genai.Object? && "genai_score" in genai.fields ==>
      var v := genai.fields["genai_score"];
      (v.Null? || v.Array? || v.Object?) ==> r == Err(ScoreNotANumber)
    ensures r.Ok? ==>
      Get(genai.fields, "top_reasons", Array([])).Array? &&
      r.value.reasons == FusedReasons(mlReasons, Get(genai.fields, "top_reasons", Array([])).items)
    ensures r.Ok? ==> Min(MaxReasons, |mlReasons|) <= |r.value.reasons| <= MaxReasons
    ensures r.Ok? ==> forall k :: 0 <= k < Min(MaxReasons, |mlReasons|) ==> r.value.reasons[k] == Str(mlReasons[k])
    ensures r.Ok? && "top_reasons" !in genai.fields ==> r.value.reasons == Strs(mlReasons)[..Min(MaxReasons, |mlReasons|)]
  {
    if !genai.Object? then Err(NotAnObject)
    else
      match ToFloat(Get(genai.fields, "genai_score", Number(DefaultGenaiScore)), parseFloat)
      case None => Err(ScoreNotANumber)
      case Some(genaiScore) =>
        var final := FinalScore(mlScore as real, genaiScore);
        match Get(genai.fields, "top_reasons", Array([]))
        case Array(topReasons) =>
          Ok(ScanResult(url, VerdictFor(final), final, mlScore as real, genaiScore,
                        FusedReasons(mlReasons, topReasons), features, genai))
        case _ => Err(ReasonsNotAList)
  }

  /**
   * With the as-written adapter, a reply that parses to a list reaches
   * `genai.get` and the scan raises instead of answering.
   */
  lemma AsWrittenScanFailsOnList(url: string, features: UrlFeatures, mlScore: nat, mlReasons: seq<string>,
                                 loads: Parser, parseFloat: FloatParser)
    requires loads("[]") == Ok(Array([]))
    ensures Fuse(url, features, mlScore, mlReasons,
                 GenaiAnalysisAsWritten(true, Replied("[]"), loads), parseFloat) == Err(NotAnObject)
  {
    AsWrittenReturnsNonObjects(loads);
  }

  /** A reply whose score is text that `float` rejects. */
  const TextScoreReply: string := "{\"genai_score\": \"high\"}"
  /** A reply whose reasons are a string rather than a list. */
  const TextReasonsReply: string := "{\"top_reasons\": \"x\"}"

  /**
   * With the as-written adapter, a dictionary reply whose score is not a
   * number reaches `float(...)` and the scan raises.
   */
  lemma AsWrittenScanFailsOnTextScore(url: string, features: UrlFeatures, mlScore: nat, mlReasons: seq<string>,
                                      loads: Parser, parseFloat: FloatParser)
    requires loads(TextScoreReply) == Ok(Object(map["genai_score" := Str("high")]))
    requires parseFloat("high") == None
    ensures Fuse(url, features, mlScore, mlReasons,
                 GenaiAnalysisAsWritten(true, Replied(TextScoreReply), loads), parseFloat) == Err(ScoreNotANumber)
  {
    var genai := Object(map["genai_score" := Str("high")]);
    assert Get(genai.fields, "genai_score", Number(DefaultGenaiScore)) == Str("high");
  }

  /**
   * With the as-written adapter, a dictionary reply whose reasons are a
   * string reaches `ml_reasons + top_reasons` and the scan raises.
   */
  lemma AsWrittenScanFailsOnTextReasons(url: string, features: UrlFeatures, mlScore: nat, mlReasons: seq<string>,
                                        loads: Parser, parseFloat: FloatParser)
    requires loads(TextReasonsReply) == Ok(Object(map["top_reasons" := Str("x")]))
    ensures Fuse(url, features, mlScore, mlReasons,
                 GenaiAnalysisAsWritten(true, Replied(TextReasonsReply), loads), parseFloat) == Err(ReasonsNotAList)
  {
    var genai := Object(map["top_reasons" := Str("x")]);
    assert "genai_score" !in genai.fields;
    assert Get(genai.fields, "top_reasons", Array([])) == Str("x");
  }

  /**
   * A fallback record always fuses: the score is the neutral 50 and, when at
   * most five heuristic reasons precede it, the fallback reason is kept.
   */
  lemma {:induction false} FallbackAlwaysFuses(url: string, features: UrlFeatures, mlScore: nat, mlReasons: seq<string>,
                                               reason: string, notes: string, parseFloat: FloatParser)
    requires |mlReasons| < MaxReasons
    ensures var r := Fuse(url, features, mlScore, mlReasons, FallbackRecord(reason, notes), parseFloat);
      r.Ok? && r.value.genaiScore == DefaultGenaiScore && r.value.reasons == Strs(mlReasons) + [Str(reason)]
  {
    var genai := FallbackRecord(reason, notes);
    assert Get(genai.fields, "genai_score", Number(DefaultGenaiScore)) == Number(NeutralScore);
    assert Get(genai.fields, "top_reasons", Array([])) == Array([Str(reason)]);
    var all := Strs(mlReasons) + [Str(reason)];
    assert all[..Min(MaxReasons, |all|)] == all;
  }

  // ---------------------------------------------------------------------------
  // The whole scan
  // ---------------------------------------------------------------------------

  /**
   * `scan(req)`: extract the features, score them, ask the classifier (the
   * adapter that always yields a record `scan` can read) and fuse. The scan
   * always answers; with no classifier or a failed call the classifier score
   * is the neutral 50 and the reasons are the heuristic ones followed by the
   * fallback reason.
   */
  method Scan(url: string, host: string, suffix: string,
              configured: bool, reply: Completion, loads: Parser, parseFloat: FloatParser)
    returns (r: Result<ScanResult, ScanError>)
    ensures var f := GetUrlFeatures(url, host, suffix);
      r == Fuse(url, f, ScoreOf(f), ReasonsOf(f), GenaiAnalysis(configured, reply, loads, parseFloat), parseFloat)
    ensures r.Ok?
    ensures r.Ok? ==>
      var s := r.value;
      var f := GetUrlFeatures(url, host, suffix);
      s.signals == f && s.mlScore == ScoreOf(f) as real && s.mlScore <= 65.0 &&
      s.genaiSummary == GenaiAnalysis(configured, reply, loads, parseFloat) &&
      s.riskScore == FinalScore(s.mlScore, s.genaiScore) &&
      s.verdict == VerdictFor(s.riskScore) && |s.reasons| <= MaxReasons
    ensures !configured ==>
      r.Ok? && r.value.genaiScore == DefaultGenaiScore &&
      r.value.riskScore == HeuristicWeight * r.value.mlScore + ClassifierWeight * DefaultGenaiScore &&
      r.value.reasons == Strs(ReasonsOf(GetUrlFeatures(url, host, suffix))) + [Str(UnavailableReason)]
    ensures configured && reply.CallFailed? ==>
      r.Ok? && r.value.genaiScore == DefaultGenaiScore &&
      r.value.riskScore == HeuristicWeight * r.value.mlScore + ClassifierWeight * DefaultGenaiScore &&
      r.value.reasons == Strs(ReasonsOf(GetUrlFeatures(url, host, suffix))) + [Str(ErrorReasonPrefix + reply.message)]
  {
    var features := GetUrlFeatures(url, host, suffix);
    var mlScore, mlReasons := MlScoreCalc(features);
    var genai := GenaiAnalysis(configured, reply, loads, parseFloat);
    r := Fuse(url, features, mlScore, mlReasons, genai, parseFloat);
    ReasonsAtMostFive(features);
    if !configured {
      FallbackAlwaysFuses(url, features, mlScore, mlReasons, UnavailableReason, UnavailableNotes, parseFloat);
    } else if reply.CallFailed? {
      FallbackAlwaysFuses(url, features, mlScore, mlReasons, ErrorReasonPrefix + reply.message, ErrorNotes, parseFloat);
    }
  }
}
