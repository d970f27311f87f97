# PhishGuard risk fusion, modelled in Dafny

This project models the risk-fusion core of the PhishGuard URL scanner
(`api/genai_app.py`). The core labels a URL SAFE, SUSPICIOUS or PHISHING. To do
this it combines a deterministic heuristic score with the score of an external
language-model classifier. It has four parts:

- **Feature extraction** (`is_ip`, `get_url_features`), in module `Features`.
  The host and public suffix come from the public-suffix parser and are
  parameters here. Every feature is specified from them and the URL text:
  - the dot and hyphen counts;
  - the URL length;
  - the literal `"https"` prefix test;
  - the dotted-quad test;
  - membership of the suffix in the deny-set.

  The dotted-quad matcher is proved equal to a reference definition: four
  groups of one to three digits joined by dots. No range check applies, so
  `999.999.999.999` is an IP.
- **Heuristic scorer** (`ml_score_calc`), in module `Heuristics`. The rules form
  an ordered table. `MlScoreCalc` is a loop over that table. Its result is
  proved equal to a functional specification. The lemmas show:
  - the score is the sum of the deltas of the firing rules, at most 65;
  - there is one reason per firing rule, in the fixed rule order, with no
    duplicates;
  - the score is 0 exactly when the reasons list is empty, which happens
    exactly when no rule fires.
- **Classifier adapter** (`genai_analysis`), in module `Classifier`. The network
  call and `json.loads` are oracles, and the adapter is a total function of
  them:
  - no client gives the "unavailable" fallback;
  - a failed call gives the "error" fallback, which carries the exception text;
  - a successful direct parse is returned;
  - otherwise the text from the first `{` through the last `}` is parsed;
  - a parse failure gives the error fallback, carrying the text of the
    exception that reached the outer handler.

  `BraceBounds` characterises exactly what the greedy `\{.*\}` search (with dot
  matching newlines) finds. The recovery round trip is proved: an object block
  wrapped in prose without braces is recovered exactly.
- **Fusion** (the body of `scan`), in module `Fusion`:
  - `final = 0.45*ml + 0.55*genai`, with exact reals;
  - the verdict thresholds 75 and 45;
  - a missing `genai_score` counts as 50 and missing `top_reasons` as `[]`;
  - the reasons are `(ml_reasons + top_reasons)[:6]`.

  A classifier record that `scan` cannot read is the error side of `Fuse`:
  a record that is not a dictionary, a score that `float()` rejects, or
  reasons that are not a list. In Python each of these raises, so the request
  fails. The adapter as written lets all three through (see "## Findings").
  `Scan` composes the four parts with the corrected adapter and is specified
  as exactly that composition. It proves that the scan always answers. With
  no classifier, or with a failed call, the classifier score is 50 and the
  risk score is `0.45*ml + 27.5`. The answer's reasons are then the heuristic
  reasons followed by the fallback reason.

Two behaviours of the code are easy to assume otherwise, and the model
follows the code:

- An empty host does not make every boolean feature false: `has_https`
  depends only on the URL and `suspicious_tld` only on the suffix.
  `EmptyHostFeatures` states what an empty host fixes.
- The reasons are not deduplicated: `(ml_reasons + top_reasons)[:6]` keeps a
  classifier reason that repeats a heuristic one, and so does `FusedReasons`.

## Model

| member | source | states |
|---|---|---|
| `Features.Count` | api/genai_app.py:98-99 | `host.count(c)` equals the number of occurrences of `c` in the host (its multiset count) |
| `Features.StartsWith` | api/genai_app.py:100 | `startswith` holds exactly when the prefix fits and agrees with the text position by position |
| `Features.IsIp` | api/genai_app.py:88-89 | `is_ip` holds exactly when the host is four groups of 1-3 digits joined by three dots and nothing else (both directions) |
| `Features.QuadMatchIffDottedQuad` | api/genai_app.py:89 | the left-to-right matcher for `\d{1,3}(\.\d{1,3}){3}` with a full match accepts exactly the dotted quads of the reference definition |
| `Features.PlainQuadIsIp` | api/genai_app.py:88-89 | "1.2.3.4" looks like an IP |
| `Features.OutOfRangeQuadIsIp` | api/genai_app.py:88-89 | "999.999.999.999" looks like an IP: no 0-255 range check |
| `Features.DomainIsNotIp` | api/genai_app.py:88-89 | "example.com" does not look like an IP |
| `Features.LongGroupIsNotIp` | api/genai_app.py:88-89 | a group of four digits ("1234.1.1.1") is rejected |
| `Features.ThreeGroupsAreNotIp` | api/genai_app.py:88-89 | three groups ("1.2.3") are rejected |
| `Features.FiveGroupsAreNotIp` | api/genai_app.py:88-89 | five groups ("1.2.3.4.5") are rejected |
| `Features.GetUrlFeatures` | api/genai_app.py:92-103 | each feature follows from the inputs: the host, `len(url)`, the dot and hyphen counts of the host, the literal "https" prefix, the dotted-quad test, and suffix membership in {xyz, zip, click, top, tk, ml, ga, cf} |
| `Features.HttpsPrefixIsLiteral` | api/genai_app.py:100 | "httpsx://..." counts as HTTPS and "http://..." does not |
| `Features.EmptyHostFeatures` | api/genai_app.py:94-101 | an empty host has zero dots and hyphens and does not look like an IP |
| `Heuristics.Reason` | api/genai_app.py:112-128 | each rule's reason text, and each text belongs to exactly one rule |
| `Heuristics.MlScoreCalc` | api/genai_app.py:106-130 | the loop over the rule table returns the clamped sum of the deltas of the firing rules and their reasons in table order; the score is at most 65 |
| `Heuristics.TriggeredInTableOrder` | api/genai_app.py:110-128 | the firing rules are exactly the five checks that hold, in the order IP, TLD, length > 70, hyphens >= 3, no HTTPS |
| `Heuristics.RawScoreIsSumOfFiredDeltas` | api/genai_app.py:107-128 | before clamping, the accumulated score is the sum of 20/15/10/10/10 over the rules that fire |
| `Heuristics.ScoreIsSumOfFiredDeltas` | api/genai_app.py:106-130 | the score is 20/15/10/10/10 summed over the firing checks and never exceeds 65, so the clamp to 100 is never reached |
| `Heuristics.ReasonsInRuleOrder` | api/genai_app.py:110-128 | the reasons are, in this order: "IP address used instead of domain" when the host looks like an IP, "Suspicious TLD detected" when the suffix is suspicious, "Unusually long URL" when the URL is longer than 70, "Too many hyphens in domain" when the host has at least 3 hyphens, "HTTPS not used" when the URL lacks the "https" prefix |
| `Heuristics.TriggeredIsOrderedFilter` | api/genai_app.py:110-128 | filtering the table keeps table order and keeps exactly the rules that fire |
| `Heuristics.TriggeredLength` | api/genai_app.py:110-128 | no more rules fire than the table holds |
| `Heuristics.ReasonsAtMostFive` | api/genai_app.py:108-128 | the scorer reports at most five reasons |
| `Heuristics.ReasonTextsMembership` | api/genai_app.py:110-128 | a rule's reason is among the reasons of a list of rules exactly when the rule is in the list |
| `Heuristics.ReasonPresentIffRuleFires` | api/genai_app.py:110-128 | a rule's reason is reported exactly when the rule fires |
| `Heuristics.ReasonsAreDistinct` | api/genai_app.py:110-128 | no reason is reported twice |
| `Heuristics.QuietFeatures` | api/genai_app.py:106-130 | the score is 0 exactly when the reasons are empty, and that happens exactly when no rule fires |
| `Classifier.FallbackRecord` | api/genai_app.py:152-157 | a fallback record has exactly the four keys: score 50, verdict SUSPICIOUS, the one given reason, and the given notes; `scan` can always read it |
| `Classifier.Unavailable` | api/genai_app.py:152-157 | the no-client record: score 50, SUSPICIOUS, the "not configured" reason and the "unavailable" notes; `scan` can always read it |
| `Classifier.ErrorFallback` | api/genai_app.py:191-196 | the error record: score 50, SUSPICIOUS, the one reason "GenAI fallback: " followed by the exception text, and the "error" notes; it is never the no-client record |
| `Classifier.FirstIndex` | api/genai_app.py:185 | the index found holds the character and no earlier position does; none exactly when the character is absent |
| `Classifier.LastIndex` | api/genai_app.py:185 | the index found holds the character and no later position does; none exactly when the character is absent |
| `Classifier.BraceBounds` | api/genai_app.py:185-186 | the search matches exactly when some `{` precedes some `}`; the match runs from the first `{` through the last `}` |
| `Classifier.BraceSpan` | api/genai_app.py:185-187 | the recovered block starts with `{` and ends with `}` |
| `Classifier.WrappedBlockIsRecovered` | api/genai_app.py:185-187 | for a block wrapped in prose with no `{` before it and no `}` after it, the recovered text is exactly the block |
| `Classifier.GenaiAnalysisAsWritten` | api/genai_app.py:151-196 | no client gives the "unavailable" fallback; a failed call gives the error fallback with its message; a successful direct parse is returned unchecked; if the direct parse fails and there is no block, the error fallback carries the direct parse's message; otherwise the block's parse is returned unchecked, or its failure's message reaches the error fallback |
| `Classifier.AsWrittenReturnsNonObjects` | api/genai_app.py:181-182 | a reply that parses to a list is returned as the result, which is not a dictionary |
| `Classifier.GenaiAnalysis` | api/genai_app.py:146-196 | the adapter always yields a dictionary that `scan` can read; the no-client and failed-call results are the fixed fallbacks; a readable as-written result passes through unchanged; a non-dictionary or an unreadable dictionary gives the error fallback with its own message |
| `Classifier.DirectParseWins` | api/genai_app.py:181-182 | when the whole reply parses to a readable record, that record is the result and no recovery happens |
| `Classifier.NonObjectReplyFallsBack` | api/genai_app.py:181-182 | a reply that parses to something other than a dictionary gives the error fallback |
| `Classifier.UnreadableRecordFallsBack` | api/genai_app.py:146-149 | a reply that parses to a dictionary whose score `float()` rejects or whose reasons are not a list gives the error fallback |
| `Classifier.WrappedReplyIsRecovered` | api/genai_app.py:183-187 | when the direct parse fails and the reply is a readable record block wrapped in prose, the result is the block's parse |
| `Classifier.BlockParseFailureFallsBack` | api/genai_app.py:185-196 | when the direct parse fails and the wrapped block does not parse either, the error fallback carries the block parse's message |
| `Classifier.UnparseableReplyFallsBack` | api/genai_app.py:183-196 | when the direct parse fails and no `{` precedes a `}`, the result is the error fallback carrying the direct parse's message |
| `Classifier.ProseWrappedExample` | api/genai_app.py:180-187 | the reply `here's the result: {"genai_score": 80, ...} thanks` is recovered as exactly the record the block denotes, with score 80 |
| `Fusion.FinalScore` | api/genai_app.py:246 | the final score lies between the two input scores, so two scores in [0,100] give a final score in [0,100] |
| `Fusion.VerdictFor` | api/genai_app.py:248-253 | PHISHING iff score >= 75; SUSPICIOUS iff 45 <= score < 75; SAFE iff score < 45 |
| `Fusion.VerdictIsMonotone` | api/genai_app.py:248-253 | a higher final score never gives a milder verdict |
| `Fusion.FusionExamples` | api/genai_app.py:246-253 | (0,0) gives 0 and SAFE; (100,100) gives 100 and PHISHING; (20,50) gives 36.5 and SAFE; (60,60) gives 60 and SUSPICIOUS |
| `Fusion.FusedReasons` | api/genai_app.py:255 | the result has min(6, total) entries: the heuristic reasons first, then the classifier's in their order, with no deduplication |
| `Fusion.Fuse` | api/genai_app.py:243-266 | fusion succeeds exactly when the record is a dictionary with a convertible score and list-valued reasons, and each failure names the step that raises; the classifier score is `float()` of the record's `genai_score`: a number as itself, a boolean as 1.0 or 0.0, a string as `float` parses it, while null, a list or a dictionary raise; a missing score counts as 50; the risk score is the weighted sum and the verdict follows the thresholds; the reasons are the first 6 of the heuristic reasons followed by the record's `top_reasons` |
| `Fusion.FallbackAlwaysFuses` | api/genai_app.py:243-255 | a fallback record always fuses: the classifier score is 50, and after at most five heuristic reasons the fallback reason is kept |
| `Fusion.AsWrittenScanFailsOnList` | api/genai_app.py:242-243 | with the as-written adapter, a reply that parses to a list makes the scan fail on `genai.get` |
| `Fusion.AsWrittenScanFailsOnTextScore` | api/genai_app.py:242-243 | with the as-written adapter, the reply `{"genai_score": "high"}` makes the scan fail in `float()` |
| `Fusion.AsWrittenScanFailsOnTextReasons` | api/genai_app.py:255 | with the as-written adapter, the reply `{"top_reasons": "x"}` makes the scan fail when the reasons are concatenated |
| `Fusion.Scan` | api/genai_app.py:232-266 | the scan is the fusion of the extracted features, their heuristic score and reasons, and the corrected adapter's record, and it always answers; with no client or a failed call the classifier score is 50, the risk score is 0.45·ml + 27.5, and the reasons are all heuristic reasons followed by the fallback reason; the heuristic score is at most 65 |

## Findings

| source | as written | input that shows it | evidently intended | confidence | as-written member | corrected member |
|---|---|---|---|---|---|---|
| api/genai_app.py:146-188 | the value parsed from the reply is returned whatever its JSON type, but the docstring promises "Always returns a dict" so that `/scan` always answers | a reply whose content is `[]` parses to a list; `scan` then calls `.get` on it and raises | a parsed value that is not a JSON object is treated like a parse failure and gives the error fallback | high (not executed) | `Classifier.GenaiAnalysisAsWritten`, `Classifier.AsWrittenReturnsNonObjects`, `Fusion.AsWrittenScanFailsOnList` | `Classifier.GenaiAnalysis`, `Classifier.NonObjectReplyFallsBack` (used by `Fusion.Scan`) |
| api/genai_app.py:243 | a parsed dictionary is returned without checking its `genai_score`, and `scan` calls `float()` on it | a reply whose content is `{"genai_score": "high"}`; `float("high")` raises ValueError in `scan` | a record whose score `float()` rejects is treated like a parse failure, so `/scan` always answers as the docstring says | medium (not executed) | `Classifier.GenaiAnalysisAsWritten`, `Fusion.AsWrittenScanFailsOnTextScore` | `Classifier.GenaiAnalysis`, `Classifier.UnreadableRecordFallsBack`, `Fusion.Scan` (ensures the scan always answers) |
| api/genai_app.py:255 | a parsed dictionary is returned without checking its `top_reasons`, and `scan` concatenates it to a list | a reply whose content is `{"top_reasons": "x"}`; `ml_reasons + "x"` raises TypeError in `scan` | a record whose reasons are not a list is treated like a parse failure, so `/scan` always answers as the docstring says | medium (not executed) | `Classifier.GenaiAnalysisAsWritten`, `Fusion.AsWrittenScanFailsOnTextReasons` | `Classifier.GenaiAnalysis`, `Classifier.UnreadableRecordFallsBack`, `Fusion.Scan` (ensures the scan always answers) |

The corrected adapter gives the error fallback with messages of its own,
`GenAI response is not a JSON object` and `GenAI response has an unreadable
genai_score or top_reasons`. The source has no such strings. The docstring's
promise is taken as intended: `genai_analysis` always returns a dict "so
/scan always returns JSON". A record the adapter hands over must therefore be
one `scan` can read, not only a dictionary.

## Left out

- `tldextract.extract` public-suffix parsing is a foreign library. The host
  (`ext.fqdn`) and the suffix are parameters of `GetUrlFeatures`.
- `GetUrlFeatures`: host and suffix are independent parameters, so the model
  admits combinations the library never produces. According to tldextract's
  documentation, a non-empty `fqdn` ends with the suffix, and an IP address
  has no suffix and so an empty `fqdn`. If that holds, `looks_like_ip`, and
  with it the IP rule, may never fire in the deployed service. The model
  states the features for every host and suffix.
- `\d` is modelled as the ASCII digits `0`-`9`. Python's `\d` also matches
  other Unicode decimal digits. The host reaching `is_ip` has passed URL
  validation and IDNA encoding, so it is ASCII.
- The Groq client and its `chat.completions.create` call are not modelled:
  the model name, temperature, the prompt text and the `json.dumps` payload.
  The call is an oracle outcome (`Completion`): the reply content, or the text
  of the exception it raised. The outcome is a parameter even when no client
  is configured, in which case it is ignored. A reply whose content is `None`
  raises inside the same `try` and reaches the same error fallback, so it is
  folded into `CallFailed`.
- `json.loads` is an oracle (`Parser`). It returns a JSON value or the text
  of its exception. Python's `float()` on a string is an oracle too
  (`FloatParser`). No JSON or number parser is modelled.
- Floating point is not modelled. `0.45`/`0.55` are exact reals, and
  `round(final_score, 2)` is left out: the model's risk score is the exact
  weighted sum. Near the thresholds an IEEE sum could land on the other side.
  NaN and infinities from the parser, and integer overflow in `float()`, are
  not modelled.
- The reasons are a list of JSON values, because `top_reasons` may hold
  anything. The response schema's check that every reason is a string is
  not modelled, so `Scan`'s promise that the scan answers does not cover a
  `top_reasons` list holding non-strings, which that check may reject. Neither is `HttpUrl` validation and normalisation of the
  request URL: the model takes the URL text as given.
- The FastAPI app, CORS, static files, and the `/health`, `/` and `/scan_ui`
  routes are HTTP and file plumbing. Environment loading and client
  construction are configuration; `configured` stands for `groq_client is
  not None`. `versions.py` only prints installed package versions.
