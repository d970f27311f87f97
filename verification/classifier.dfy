/**
 * The external-classifier adapter (`genai_analysis`) without the network.
 *
 * The remote completion call and `json.loads` are oracles: the call's outcome
 * is a parameter (`Completion`), and the JSON parser is a total function from
 * text to a JSON value or the text of the exception it would raise. The
 * adapter never fails: every path ends in a JSON value.
 */
module Classifier {
  import opened Wrappers
  import opened JsonValue

  /** What the completion call produced: the message content, or the text of the exception it raised. */
  datatype Completion = Replied(content: string) | CallFailed(message: string)

  /** `json.loads`: the parsed value, or the text of the exception it raises. */
  type Parser = string -> Result<Json, string>

  const NeutralScore: real := 50.0
  const FallbackVerdict: string := "SUSPICIOUS"
  const UnavailableReason: string := "GenAI not configured (missing GROQ_API_KEY or Groq SDK)."
  const UnavailableNotes: string := "Fallback used (GenAI unavailable)"
  const ErrorReasonPrefix: string := "GenAI fallback: "
  const ErrorNotes: string := "Fallback used (GenAI error)"

  /** A fallback classifier result: neutral score, SUSPICIOUS, one reason, and notes. */
  function FallbackRecord(reason: string, notes: string): (r: Json)
    ensures r.Object? && r.fields.Keys == {"genai_score", "verdict", "top_reasons", "notes"}
    ensures r.fields["genai_score"] == Number(NeutralScore) && r.fields["verdict"] == Str(FallbackVerdict)
    ensures r.fields["top_reasons"] == Array([Str(reason)]) && r.fields["notes"] == Str(notes)
    ensures forall parseFloat :: Usable(r, parseFloat)
  {
    Object(map[
      "genai_score" := Number(NeutralScore),
      "verdict" := Str(FallbackVerdict),
      "top_reasons" := Array([Str(reason)]),
      "notes" := Str(notes)])
  }

  /** The result when no classifier client is configured: the neutral record with the "not configured" reason. */
  function Unavailable(): (r: Json)
    ensures r.Object? && r.fields.Keys == {"genai_score", "verdict", "top_reasons", "notes"}
    ensures r.fields["genai_score"] == Number(NeutralScore) && r.fields["verdict"] == Str(FallbackVerdict)
    ensures r.fields["top_reasons"] == Array([Str(UnavailableReason)]) && r.fields["notes"] == Str(UnavailableNotes)
    ensures forall parseFloat :: Usable(r, parseFloat)
  {
    FallbackRecord(UnavailableReason, UnavailableNotes)
  }

  /**
   * The result when the call or the parsing fails with the given exception
   * text: the neutral record whose one reason carries that text, which no
   * "not configured" record can be mistaken for.
   */
  function ErrorFallback(message: string): (r: Json)
    ensures r.Object? && r.fields.Keys == {"genai_score", "verdict", "top_reasons", "notes"}
    ensures r.fields["genai_score"] == Number(NeutralScore) && r.fields["verdict"] == Str(FallbackVerdict)
    ensures r.fields["top_reasons"] == Array([Str(ErrorReasonPrefix + message)]) && r.fields["notes"] == Str(ErrorNotes)
    ensures forall parseFloat :: Usable(r, parseFloat)
    ensures r != Unavailable()
  {
    var r := FallbackRecord(ErrorReasonPrefix + message, ErrorNotes);
    assert r.fields["notes"].s[22] != Unavailable().fields["notes"].s[22];
    r
  }

  // ---------------------------------------------------------------------------
  // What `scan` reads from the record
  // ---------------------------------------------------------------------------

  /** Python's `float(s)` on a string: the number, or nothing when it raises. */
  type FloatParser = string -> Option<real>

  /** The score `scan` assumes when the record has no `genai_score`. */
  const DefaultGenaiScore: real := 50.0

  /** `float(v)` on a JSON value: numbers, booleans and numeric strings convert; null, lists and objects raise. */
  function ToFloat(v: Json, parseFloat: FloatParser): Option<real> {
    match v
    case Number(n) => Some(n)
    case Bool(b) => Some(if b then 1.0 else 0.0)
    case Str(s) => parseFloat(s)
    case _ => None
  }

  /**
   * Whether `scan` can read the record without raising: a dictionary whose
   * `genai_score`, where present, converts to a number and whose
   * `top_reasons`, where present, is a list.
   */
  predicate Usable(genai: Json, parseFloat: FloatParser) {
    genai.Object? &&
    ToFloat(Get(genai.fields, "genai_score", Number(DefaultGenaiScore)), parseFloat).Some? &&
    Get(genai.fields, "top_reasons", Array([])).Array?
  }

  // ---------------------------------------------------------------------------
  // Recovering the JSON block: re.search(r"\{.*\}", content, flags=re.DOTALL)
  // ---------------------------------------------------------------------------

  /** Index of the first occurrence of `c` in `s`. */
  function FirstIndex(s: string, c: char): (r: Option<nat>)
    ensures r.None? <==> c !in s
    ensures r.Some? ==> r.value < |s| && s[r.value] == c && c !in s[..r.value]
  {
    if s == [] then None
    else if s[0] == c then Some(0)
    else
      match FirstIndex(s[1..], c)
      case None => None
      case Some(i) =>
        assert s[..i + 1] == [s[0]] + s[1..][..i];
        Some(i + 1)
  }

  /** Index of the last occurrence of `c` in `s`. */
  function LastIndex(s: string, c: char): (r: Option<nat>)
    ensures r.None? <==> c !in s
    ensures r.Some? ==> r.value < |s| && s[r.value] == c && c !in s[r.value + 1..]
  {
    if s == [] then None
    else if s[|s| - 1] == c then Some(|s| - 1)
    else
      var init := s[..|s| - 1];
      assert s == init + [s[|s| - 1]];
      match LastIndex(init, c)
      case None => None
      case Some(i) =>
        assert s[i + 1..] == init[i + 1..] + [s[|s| - 1]];
        Some(i)
  }

  /**
   * The span the greedy pattern `\{.*\}` (dot matching newlines) finds:
   * start and end (exclusive) of the text from the first `{` through the last
   * `}`, provided a `}` follows that `{`.
   */
  function BraceBounds(content: string): (r: Option<(nat, nat)>)
    ensures r.None? <==> forall i, j :: 0 <= i < j < |content| && content[i] == '{' ==> content[j] != '}'
    ensures r.Some? ==> var (start, end) := r.value;
      start < end <= |content| && content[start] == '{' && content[end - 1] == '}' &&
      '{' !in content[..start] && '}' !in content[end..]
  {
    match (FirstIndex(content, '{'), LastIndex(content, '}'))
    case (Some(i), Some(j)) =>
      assert forall k :: 0 <= k < i ==> content[..i][k] == content[k];
      assert forall k :: j < k < |content| ==> content[j + 1..][k - j - 1] == content[k];
      if i < j then Some((i, j + 1)) else None
    case (_, _) => None
  }

  /** The recovered block `m.group(0)`, if the pattern matches at all. */
  function BraceSpan(content: string): (r: Option<string>)
    ensures r.Some? ==> |r.value| >= 2 && r.value[0] == '{' && r.value[|r.value| - 1] == '}'
  {
    match BraceBounds(content)
    case None => None
    case Some((start, end)) => Some(content[start..end])
  }

  /** A JSON block wrapped in prose without braces is recovered exactly. */
  lemma {:induction false} WrappedBlockIsRecovered(prose: string, block: string, trailer: string)
    requires '{' !in prose && '}' !in trailer
    requires |block| >= 2 && block[0] == '{' && block[|block| - 1] == '}'
    ensures BraceSpan(prose + block + trailer) == Some(block)
  {
    var content := prose + block + trailer;
    var start, end := |prose|, |prose| + |block|;
    assert content[start] == '{' && content[end - 1] == '}';
    match BraceBounds(content)
    case None =>
      assert false;
    case Some((s, e)) =>
      assert forall k :: 0 <= k < |prose| ==> content[k] == prose[k];
      assert forall k :: end <= k < |content| ==> content[k] == trailer[k - end];
      assert forall k :: 0 <= k < s ==> content[..s][k] == content[k];
      assert forall k :: e <= k < |content| ==> content[e..][k - e] == content[k];
      assert s == start && e == end;
      assert content[start..end] == block;
  }

  // ---------------------------------------------------------------------------
  // genai_analysis
  // ---------------------------------------------------------------------------

  /**
   * `genai_analysis` as written: no client gives the unavailable fallback; a
   * failed call gives the error fallback with the exception text; otherwise
   * the content is parsed directly, then through the recovered block, and a
   * parse failure gives the error fallback with the text of the exception
   * that reached the outer handler (the direct parse's when no block is
   * found, since the bare `raise` re-raises it; the block parse's otherwise).
   * Whatever value the parser produces is returned unchecked.
   */
  function GenaiAnalysisAsWritten(configured: bool, reply: Completion, loads: Parser): (r: Json)
    ensures !configured ==> r == Unavailable()
    ensures configured && reply.CallFailed? ==> r == ErrorFallback(reply.message)
    ensures configured && reply.Replied? && loads(reply.content).Ok? ==> r == loads(reply.content).value
    ensures configured && reply.Replied? && loads(reply.content).Err? && BraceSpan(reply.content).None? ==>
      r == ErrorFallback(loads(reply.content).error)
    ensures configured && reply.Replied? && loads(reply.content).Err? && BraceSpan(reply.content).Some? ==>
      var block := BraceSpan(reply.content).value;
      (loads(block).Ok? ==> r == loads(block).value) &&
      (loads(block).Err? ==> r == ErrorFallback(loads(block).error))
  {
    if !configured then Unavailable()
    else
      match reply
      case CallFailed(message) => ErrorFallback(message)
      case Replied(content) =>
        match loads(content)
        case Ok(value) => value
        case Err(directError) =>
          match BraceSpan(content)
          case None => ErrorFallback(directError)
          case Some(block) =>
            match loads(block)
            case Ok(value) => value
            case Err(blockError) => ErrorFallback(blockError)
  }

  /**
   * The as-written adapter hands back whatever the parser produced, so a reply
   * that is valid JSON but not an object (for example "[]") is returned as is,
   * against the promise that the adapter always returns a dictionary.
   */
  lemma AsWrittenReturnsNonObjects(loads: Parser)
    requires loads("[]") == Ok(Array([]))
    ensures !GenaiAnalysisAsWritten(true, Replied("[]"), loads).Object?
  {
  }

  /** Exception text used when the parsed reply is not a JSON object. */
  const NotAnObjectMessage: string := "GenAI response is not a JSON object"

  /** Exception text used when the parsed object has a `genai_score` or `top_reasons` that `scan` cannot read. */
  const UnusableFieldsMessage: string := "GenAI response has an unreadable genai_score or top_reasons"

  /**
   * `genai_analysis` as its documentation promises it ("always returns a dict
   * so /scan always returns JSON"): the as-written adapter, except that a
   * parsed value that is not a JSON object, or an object whose score or
   * reasons `scan` cannot read, is treated like a parse failure and gives the
   * error fallback.
   */
  function GenaiAnalysis(configured: bool, reply: Completion, loads: Parser, parseFloat: FloatParser): (r: Json)
    ensures r.Object? && Usable(r, parseFloat)
    ensures !configured ==> r == Unavailable()
    ensures configured && reply.CallFailed? ==> r == ErrorFallback(reply.message)
    ensures var value := GenaiAnalysisAsWritten(configured, reply, loads);
      (Usable(value, parseFloat) ==> r == value) &&
      (!value.Object? ==> r == ErrorFallback(NotAnObjectMessage)) &&
      (value.Object? && !Usable(value, parseFloat) ==> r == ErrorFallback(UnusableFieldsMessage))
  {
    var value := GenaiAnalysisAsWritten(configured, reply, loads);
    if Usable(value, parseFloat) then value
    else if !value.Object? then ErrorFallback(NotAnObjectMessage)
    else ErrorFallback(UnusableFieldsMessage)
  }

  /** A successful direct parse to a readable record wins: no recovery is attempted. */
  lemma DirectParseWins(content: string, loads: Parser, parseFloat: FloatParser)
    requires loads(content).Ok? && Usable(loads(content).value, parseFloat)
    ensures GenaiAnalysis(true, Replied(content), loads, parseFloat) == loads(content).value
  {
  }

  /** A reply that parses to something other than an object gives the error fallback, "[]" included. */
  lemma NonObjectReplyFallsBack(content: string, loads: Parser, parseFloat: FloatParser)
    requires loads(content).Ok? && !loads(content).value.Object?
    ensures GenaiAnalysis(true, Replied(content), loads, parseFloat) == ErrorFallback(NotAnObjectMessage)
  {
  }

  /** A reply that parses to an object `scan` cannot read gives the error fallback. */
  lemma UnreadableRecordFallsBack(content: string, loads: Parser, parseFloat: FloatParser)
    requires loads(content).Ok? && loads(content).value.Object? && !Usable(loads(content).value, parseFloat)
    ensures GenaiAnalysis(true, Replied(content), loads, parseFloat) == ErrorFallback(UnusableFieldsMessage)
  {
  }

  /**
   * Recovery round trip: a readable record block wrapped in prose that the
   * direct parse rejects is recovered, and its parse is the result.
   */
  lemma WrappedReplyIsRecovered(prose: string, block: string, trailer: string, loads: Parser, parseFloat: FloatParser,
                                value: Json)
    requires '{' !in prose && '}' !in trailer
    requires |block| >= 2 && block[0] == '{' && block[|block| - 1] == '}'
    requires loads(prose + block + trailer).Err?
    requires loads(block) == Ok(value) && Usable(value, parseFloat)
    ensures GenaiAnalysis(true, Replied(prose + block + trailer), loads, parseFloat) == value
  {
    WrappedBlockIsRecovered(prose, block, trailer);
  }

  /**
   * When the recovered block does not parse either, the block parse's
   * exception reaches the outer handler and its text is the fallback reason.
   */
  lemma BlockParseFailureFallsBack(prose: string, block: string, trailer: string, loads: Parser, parseFloat: FloatParser)
    requires '{' !in prose && '}' !in trailer
    requires |block| >= 2 && block[0] == '{' && block[|block| - 1] == '}'
    requires loads(prose + block + trailer).Err?
    requires loads(block).Err?
    ensures GenaiAnalysis(true, Replied(prose + block + trailer), loads, parseFloat) == ErrorFallback(loads(block).error)
  {
    WrappedBlockIsRecovered(prose, block, trailer);
  }

  /** Without a JSON block, a reply the parser rejects ends in the error fallback carrying the parser's message. */
  lemma UnparseableReplyFallsBack(content: string, loads: Parser, parseFloat: FloatParser)
    requires loads(content).Err?
    requires forall i, j :: 0 <= i < j < |content| && content[i] == '{' ==> content[j] != '}'
    ensures GenaiAnalysis(true, Replied(content), loads, parseFloat) == ErrorFallback(loads(content).error)
  {
  }

  /**
   * A worked example: a reply of prose, then an object whose
   * genai_score is 80, then more prose, is recovered as that object by any
   * parser that rejects the whole reply and parses the object.
   */
  lemma ProseWrappedExample(loads: Parser, parseFloat: FloatParser)
    requires loads(ExampleReply).Err?
    requires loads(ExampleBlock) == Ok(ExampleRecord)
    ensures GenaiAnalysis(true, Replied(ExampleReply), loads, parseFloat) == ExampleRecord
    ensures ExampleRecord.fields["genai_score"] == Number(80.0)
  {
    assert ExampleBlock[0] == '{' && ExampleBlock[|ExampleBlock| - 1] == '}';
    assert Get(ExampleRecord.fields, "genai_score", Number(DefaultGenaiScore)) == Number(80.0);
    assert Get(ExampleRecord.fields, "top_reasons", Array([])) == Array([Str("x")]);
    WrappedReplyIsRecovered(ExamplePrefix, ExampleBlock, ExampleSuffix, loads, parseFloat, ExampleRecord);
  }

  const ExamplePrefix: string := "here's the result: "
  const ExampleFields: string := "\"genai_score\": 80, \"verdict\": \"PHISHING\", \"top_reasons\": [\"x\"], \"notes\": \"n\""
  const ExampleBlock: string := "{" + ExampleFields + "}"
  const ExampleSuffix: string := " thanks"
  const ExampleReply: string := ExamplePrefix + ExampleBlock + ExampleSuffix
  /** The value `ExampleBlock` denotes. */
  const ExampleRecord: Json := Object(map[
    "genai_score" := Number(80.0),
    "verdict" := Str("PHISHING"),
    "top_reasons" := Array([Str("x")]),
    "notes" := Str("n")])
}
