/**
 * The heuristic scorer (`ml_score_calc`): an ordered table of rules, each of
 * which, when it fires on the URL features, adds a fixed delta to the score
 * and appends its reason. The sum is clamped to 100.
 */
module Heuristics {
  import opened Features

  const MaxScore: nat := 100

  /** The rules, in the order the scorer evaluates them. */
  datatype Rule = IpHost | SuspiciousTld | LongUrl | ManyHyphens | NoHttps

  const Rules: seq<Rule> := [IpHost, SuspiciousTld, LongUrl, ManyHyphens, NoHttps]

  /** The condition each rule checks on the features. */
  predicate Fires(rule: Rule, f: UrlFeatures) {
    match rule
    case IpHost => f.looksLikeIp
    case SuspiciousTld => f.suspiciousTld
    case LongUrl => f.urlLength > 70
    case ManyHyphens => f.numHyphens >= 3
    case NoHttps => !f.hasHttps
  }

  /** The points a rule adds: 20 for an IP host, 15 for a suspicious suffix, 10 for each other rule. */
  function Delta(rule: Rule): (d: nat)
    ensures 10 <= d <= 20
    ensures d == 20 <==> rule == IpHost
    ensures d == 15 <==> rule == SuspiciousTld
  {
    match rule
    case IpHost => 20
    case SuspiciousTld => 15
    case LongUrl => 10
    case ManyHyphens => 10
    case NoHttps => 10
  }

  /** The reason a rule reports; each text names exactly one rule. */
  function Reason(rule: Rule): (r: string)
    ensures r == "IP address used instead of domain" <==> rule == IpHost
    ensures r == "Suspicious TLD detected" <==> rule == SuspiciousTld
    ensures r == "Unusually long URL" <==> rule == LongUrl
    ensures r == "Too many hyphens in domain" <==> rule == ManyHyphens
    ensures r == "HTTPS not used" <==> rule == NoHttps
  {
    match rule
    case IpHost => "IP address used instead of domain"
    case SuspiciousTld => "Suspicious TLD detected"
    case LongUrl => "Unusually long URL"
    case ManyHyphens => "Too many hyphens in domain"
    case NoHttps => "HTTPS not used"
  }

  /** Position of a rule in the table. */
  function Rank(rule: Rule): nat {
    match rule
    case IpHost => 0
    case SuspiciousTld => 1
    case LongUrl => 2
    case ManyHyphens => 3
    case NoHttps => 4
  }

  // ---------------------------------------------------------------------------
  // Specification: the rules of a prefix of the table, folded left to right
  // ---------------------------------------------------------------------------

  /** The rule itself when it fires on `f`, otherwise nothing. */
  function Fired(rule: Rule, f: UrlFeatures): seq<Rule> {
    if Fires(rule, f) then [rule] else []
  }

  /** The rules of `rules` that fire on `f`, in table order. */
  function Triggered(rules: seq<Rule>, f: UrlFeatures): seq<Rule> {
    if rules == [] then [] else Triggered(rules[..|rules| - 1], f) + Fired(rules[|rules| - 1], f)
  }

  /** Sum of the deltas of the given rules. */
  function SumDeltas(rules: seq<Rule>): nat {
    if rules == [] then 0 else SumDeltas(rules[..|rules| - 1]) + Delta(rules[|rules| - 1])
  }

  /** Reason strings of the given rules, in order. */
  function ReasonTexts(rules: seq<Rule>): seq<string> {
    if rules == [] then [] else ReasonTexts(rules[..|rules| - 1]) + [Reason(rules[|rules| - 1])]
  }

  /** The score of the table, clamped to `MaxScore`. */
  function ScoreOf(f: UrlFeatures): nat {
    var raw := SumDeltas(Triggered(Rules, f));
    if raw < MaxScore then raw else MaxScore
  }

  /** The reasons of the table. */
  function ReasonsOf(f: UrlFeatures): seq<string> {
    ReasonTexts(Triggered(Rules, f))
  }

  lemma TriggeredStep(rules: seq<Rule>, rule: Rule, f: UrlFeatures)
    ensures Triggered(rules + [rule], f) == Triggered(rules, f) + Fired(rule, f)
  {
    assert (rules + [rule])[..|rules|] == rules;
  }

  lemma SumDeltasAppend(a: seq<Rule>, b: seq<Rule>)
    ensures SumDeltas(a + b) == SumDeltas(a) + SumDeltas(b)
    decreases |b|
  {
    if b == [] {
      assert a + b == a;
    } else {
      var b' := b[..|b| - 1];
      assert (a + b)[..|a + b| - 1] == a + b';
      SumDeltasAppend(a, b');
    }
  }

  lemma ReasonTextsAppend(a: seq<Rule>, b: seq<Rule>)
    ensures ReasonTexts(a + b) == ReasonTexts(a) + ReasonTexts(b)
    decreases |b|
  {
    if b == [] {
      assert a + b == a;
    } else {
      var b' := b[..|b| - 1];
      assert (a + b)[..|a + b| - 1] == a + b';
      ReasonTextsAppend(a, b');
    }
  }

  // ---------------------------------------------------------------------------
  // The scorer
  // ---------------------------------------------------------------------------

  /** Extending a prefix of the rules by one rule adds that rule's delta and reason when it fires. */
  lemma PrefixStep(rules: seq<Rule>, i: nat, f: UrlFeatures)
    requires i < |rules|
    ensures SumDeltas(Triggered(rules[..i + 1], f))
         == SumDeltas(Triggered(rules[..i], f)) + if Fires(rules[i], f) then Delta(rules[i]) else 0
    ensures ReasonTexts(Triggered(rules[..i + 1], f))
         == ReasonTexts(Triggered(rules[..i], f)) + if Fires(rules[i], f) then [Reason(rules[i])] else []
  {
    var rule := rules[i];
    assert rules[..i + 1] == rules[..i] + [rule];
    TriggeredStep(rules[..i], rule, f);
    SumDeltasAppend(Triggered(rules[..i], f), Fired(rule, f));
    ReasonTextsAppend(Triggered(rules[..i], f), Fired(rule, f));
    if Fires(rule, f) {
      assert SumDeltas([rule]) == Delta(rule);
      assert ReasonTexts([rule]) == [Reason(rule)];
    } else {
      assert Triggered(rules[..i], f) + Fired(rule, f) == Triggered(rules[..i], f);
    }
  }

  /** `ml_score_calc(features)`: accumulate the deltas and reasons of the firing rules, then clamp. */
  method MlScoreCalc(f: UrlFeatures) returns (score: nat, reasons: seq<string>)
    ensures score == ScoreOf(f) && reasons == ReasonsOf(f)
    ensures score <= 65
  {
    var total := 0;
    reasons := [];
    for i := 0 to |Rules|
      invariant total == SumDeltas(Triggered(Rules[..i], f))
      invariant reasons == ReasonTexts(Triggered(Rules[..i], f))
    {
      var rule := Rules[i];
      PrefixStep(Rules, i, f);
      if Fires(rule, f) {
        total := total + Delta(rule);
        reasons := reasons + [Reason(rule)];
      }
    }
    assert Rules[..|Rules|] == Rules;
    score := if total < MaxScore then total else MaxScore;
    ScoreIsSumOfFiredDeltas(f);
  }

  // ---------------------------------------------------------------------------
  // Properties of the scorer
  // ---------------------------------------------------------------------------

  /** `delta` when `fired`, otherwise nothing. */
  function Bonus(fired: bool, delta: nat): nat {
    if fired then delta else 0
  }

  /** A rule's contribution to the reasons: its reason when it fires, otherwise nothing. */
  function ReasonIf(rule: Rule, f: UrlFeatures): seq<string> {
    if Fires(rule, f) then [Reason(rule)] else []
  }

  /** The rules that fire, written out in the order of the five checks. */
  lemma {:induction false} TriggeredInTableOrder(f: UrlFeatures)
    ensures Triggered(Rules, f)
         == Fired(IpHost, f) + Fired(SuspiciousTld, f) + Fired(LongUrl, f) + Fired(ManyHyphens, f) + Fired(NoHttps, f)
  {
    assert Triggered([], f) == [];
    TriggeredStep([], IpHost, f);
    TriggeredStep([IpHost], SuspiciousTld, f);
    TriggeredStep([IpHost, SuspiciousTld], LongUrl, f);
    TriggeredStep([IpHost, SuspiciousTld, LongUrl], ManyHyphens, f);
    TriggeredStep([IpHost, SuspiciousTld, LongUrl, ManyHyphens], NoHttps, f);
    assert [IpHost] == [] + [IpHost];
    assert [IpHost, SuspiciousTld] == [IpHost] + [SuspiciousTld];
    assert [IpHost, SuspiciousTld, LongUrl] == [IpHost, SuspiciousTld] + [LongUrl];
    assert [IpHost, SuspiciousTld, LongUrl, ManyHyphens] == [IpHost, SuspiciousTld, LongUrl] + [ManyHyphens];
    assert Rules == [IpHost, SuspiciousTld, LongUrl, ManyHyphens] + [NoHttps];
  }

  lemma FiredDeltas(rule: Rule, f: UrlFeatures)
    ensures SumDeltas(Fired(rule, f)) == Bonus(Fires(rule, f), Delta(rule))
    ensures ReasonTexts(Fired(rule, f)) == ReasonIf(rule, f)
  {
    if Fires(rule, f) {
      assert SumDeltas([rule]) == Delta(rule);
      assert ReasonTexts([rule]) == [Reason(rule)];
    }
  }

  lemma {:induction false} RawScoreIsSumOfFiredDeltas(f: UrlFeatures)
    ensures SumDeltas(Triggered(Rules, f))
         == Bonus(Fires(IpHost, f), 20) + Bonus(Fires(SuspiciousTld, f), 15) + Bonus(Fires(LongUrl, f), 10)
          + Bonus(Fires(ManyHyphens, f), 10) + Bonus(Fires(NoHttps, f), 10)
  {
    TriggeredInTableOrder(f);
    var a, b, c := Fired(IpHost, f), Fired(SuspiciousTld, f), Fired(LongUrl, f);
    var d, e := Fired(ManyHyphens, f), Fired(NoHttps, f);
    FiredDeltas(IpHost, f);
    FiredDeltas(SuspiciousTld, f);
    FiredDeltas(LongUrl, f);
    FiredDeltas(ManyHyphens, f);
    FiredDeltas(NoHttps, f);
    SumDeltasAppend(a, b);
    SumDeltasAppend(a + b, c);
    SumDeltasAppend(a + b + c, d);
    SumDeltasAppend(a + b + c + d, e);
  }

  /**
   * The score is the sum of the deltas of the firing rules (20, 15, 10, 10,
   * 10); that sum is at most 65, so the clamp to 100 never changes it.
   */
  lemma ScoreIsSumOfFiredDeltas(f: UrlFeatures)
    ensures ScoreOf(f)
         == Bonus(f.looksLikeIp, 20) + Bonus(f.suspiciousTld, 15) + Bonus(f.urlLength > 70, 10)
          + Bonus(f.numHyphens >= 3, 10) + Bonus(!f.hasHttps, 10)
    ensures ScoreOf(f) <= 65
  {
    RawScoreIsSumOfFiredDeltas(f);
  }

  /**
   * The reasons: one fixed text per check that holds on the features, in the
   * order IP, TLD, length, hyphens, HTTPS.
   */
  lemma {:induction false} ReasonsInRuleOrder(f: UrlFeatures)
    ensures ReasonsOf(f)
         == ReasonIf(IpHost, f) + ReasonIf(SuspiciousTld, f) + ReasonIf(LongUrl, f)
          + ReasonIf(ManyHyphens, f) + ReasonIf(NoHttps, f)
    ensures ReasonsOf(f)
         == (if f.looksLikeIp then ["IP address used instead of domain"] else [])
          + (if f.suspiciousTld then ["Suspicious TLD detected"] else [])
          + (if f.urlLength > 70 then ["Unusually long URL"] else [])
          + (if f.numHyphens >= 3 then ["Too many hyphens in domain"] else [])
          + (if !f.hasHttps then ["HTTPS not used"] else [])
  {
    TriggeredInTableOrder(f);
    var a, b, c := Fired(IpHost, f), Fired(SuspiciousTld, f), Fired(LongUrl, f);
    var d, e := Fired(ManyHyphens, f), Fired(NoHttps, f);
    ReasonTextsAppend(a, b);
    ReasonTextsAppend(a + b, c);
    ReasonTextsAppend(a + b + c, d);
    ReasonTextsAppend(a + b + c + d, e);
    FiredDeltas(IpHost, f);
    FiredDeltas(SuspiciousTld, f);
    FiredDeltas(LongUrl, f);
    FiredDeltas(ManyHyphens, f);
    FiredDeltas(NoHttps, f);
  }

  /** Rules listed in strictly increasing table position. */
  predicate InTableOrder(rules: seq<Rule>) {
    forall i, j :: 0 <= i < j < |rules| ==> Rank(rules[i]) < Rank(rules[j])
  }

  /** Filtering keeps table order and keeps exactly the rules that fire. */
  lemma {:induction false} TriggeredIsOrderedFilter(rules: seq<Rule>, f: UrlFeatures)
    requires InTableOrder(rules)
    ensures InTableOrder(Triggered(rules, f))
    ensures forall rule :: rule in Triggered(rules, f) <==> rule in rules && Fires(rule, f)
  {
    if rules != [] {
      var prefix, last := rules[..|rules| - 1], rules[|rules| - 1];
      TriggeredIsOrderedFilter(prefix, f);
      assert rules == prefix + [last];
      var t, tp := Triggered(rules, f), Triggered(prefix, f);
      assert t == tp + Fired(last, f);
      forall i, j | 0 <= i < j < |t|
        ensures Rank(t[i]) < Rank(t[j])
      {
        if j < |tp| {
          assert t[i] == tp[i] && t[j] == tp[j];
        } else {
          assert t[j] == last && t[i] == tp[i] && tp[i] in tp;
          var k :| 0 <= k < |prefix| && prefix[k] == tp[i];
          assert rules[k] == tp[i] && rules[|rules| - 1] == last;
          assert Rank(rules[k]) < Rank(rules[|rules| - 1]);
        }
      }
    }
  }

  lemma {:induction false} ReasonTextsAt(rules: seq<Rule>)
    ensures |ReasonTexts(rules)| == |rules|
    ensures forall i :: 0 <= i < |rules| ==> ReasonTexts(rules)[i] == Reason(rules[i])
  {
    if rules != [] {
      var prefix := rules[..|rules| - 1];
      ReasonTextsAt(prefix);
      var texts := ReasonTexts(rules);
      assert texts == ReasonTexts(prefix) + [Reason(rules[|rules| - 1])];
      forall i | 0 <= i < |rules|
        ensures texts[i] == Reason(rules[i])
      {
        if i < |prefix| {
          assert texts[i] == ReasonTexts(prefix)[i] && rules[i] == prefix[i];
        }
      }
    }
  }

  lemma ReasonDistinguishesRules(a: Rule, b: Rule)
    ensures Reason(a) == Reason(b) ==> a == b
  {
  }

  lemma {:induction false} ReasonTextsMembership(rules: seq<Rule>, rule: Rule)
    ensures Reason(rule) in ReasonTexts(rules) <==> rule in rules
  {
    ReasonTextsAt(rules);
    if rule in rules {
      var k :| 0 <= k < |rules| && rules[k] == rule;
      assert ReasonTexts(rules)[k] == Reason(rule);
    }
    if Reason(rule) in ReasonTexts(rules) {
      var k :| 0 <= k < |rules| && ReasonTexts(rules)[k] == Reason(rule);
      ReasonDistinguishesRules(rules[k], rule);
    }
  }

  lemma {:induction false} TriggeredLength(rules: seq<Rule>, f: UrlFeatures)
    ensures |Triggered(rules, f)| <= |rules|
  {
    if rules != [] {
      TriggeredLength(rules[..|rules| - 1], f);
    }
  }

  /** At most one reason per rule of the table: at most five reasons. */
  lemma ReasonsAtMostFive(f: UrlFeatures)
    ensures |ReasonsOf(f)| <= 5
  {
    TriggeredLength(Rules, f);
    ReasonTextsAt(Triggered(Rules, f));
  }

  /** A reason is reported exactly when its rule fires. */
  lemma ReasonPresentIffRuleFires(f: UrlFeatures, rule: Rule)
    ensures Reason(rule) in ReasonsOf(f) <==> Fires(rule, f)
  {
    TriggeredIsOrderedFilter(Rules, f);
    ReasonTextsMembership(Triggered(Rules, f), rule);
    assert rule in Rules;
  }

  /** No reason is reported twice. */
  lemma ReasonsAreDistinct(f: UrlFeatures)
    ensures forall i, j :: 0 <= i < j < |ReasonsOf(f)| ==> ReasonsOf(f)[i] != ReasonsOf(f)[j]
  {
    var t := Triggered(Rules, f);
    TriggeredIsOrderedFilter(Rules, f);
    ReasonTextsAt(t);
    forall i, j | 0 <= i < j < |t|
      ensures ReasonTexts(t)[i] != ReasonTexts(t)[j]
    {
      assert Rank(t[i]) < Rank(t[j]);
      assert ReasonTexts(t)[i] == Reason(t[i]) && ReasonTexts(t)[j] == Reason(t[j]);
      ReasonDistinguishesRules(t[i], t[j]);
    }
  }

  /** No rule fires exactly when the score is 0, and exactly when the reasons are empty. */
  lemma QuietFeatures(f: UrlFeatures)
    ensures ScoreOf(f) == 0 <==> ReasonsOf(f) == []
    ensures ReasonsOf(f) == [] <==> forall rule: Rule :: !Fires(rule, f)
  {
    ScoreIsSumOfFiredDeltas(f);
    ReasonsInRuleOrder(f);
    if !(forall rule: Rule :: !Fires(rule, f)) {
      var rule: Rule :| Fires(rule, f);
      assert Reason(rule) in ReasonIf(rule, f);
    }
  }
}
