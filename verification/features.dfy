/**
 * URL feature extraction (`is_ip`, `get_url_features`).
 *
 * The host (`ext.fqdn`) and the public suffix (`ext.suffix`) come from a
 * public-suffix library that is not part of this model; they are parameters
 * here, and every feature is specified in terms of them and of the URL text.
 */
module Features {

  /** The fixed deny-set of public suffixes. */
  const SuspiciousTlds: set<string> := {"xyz", "zip", "click", "top", "tk", "ml", "ga", "cf"}

  /** The literal prefix tested by `url.startswith("https")`. */
  const HttpsPrefix: string := "https"

  datatype UrlFeatures = UrlFeatures(
    host: string,
    urlLength: nat,
    numDots: nat,
    numHyphens: nat,
    hasHttps: bool,
    looksLikeIp: bool,
    suspiciousTld: bool)

  // ---------------------------------------------------------------------------
  // Counting characters (`str.count` with a one-character argument)
  // ---------------------------------------------------------------------------

  /** Number of occurrences of `c` in `s`. */
  function Count(s: string, c: char): (n: nat)
    ensures n == multiset(s)[c]
    ensures n <= |s|
  {
    if s == [] then 0
    else
      assert s == [s[0]] + s[1..];
      (if s[0] == c then 1 else 0) + Count(s[1..], c)
  }

  // ---------------------------------------------------------------------------
  // Prefix test (`str.startswith`)
  // ---------------------------------------------------------------------------

  function StartsWith(s: string, prefix: string): (b: bool)
    ensures b <==> |prefix| <= |s| && forall i :: 0 <= i < |prefix| ==> s[i] == prefix[i]
  {
    |prefix| <= |s| && s[..|prefix|] == prefix
  }

  // ---------------------------------------------------------------------------
  // Dotted-quad test: re.fullmatch(r"\d{1,3}(\.\d{1,3}){3}", host)
  // ---------------------------------------------------------------------------

  predicate IsDigit(c: char) {
    '0' <= c <= '9'
  }

  /** Length of the longest prefix of `s` made of digits only. */
  function DigitRun(s: string): (k: nat)
    ensures k <= |s|
    ensures forall i :: 0 <= i < k ==> IsDigit(s[i])
    ensures k < |s| ==> !IsDigit(s[k])
  {
    if |s| > 0 && IsDigit(s[0]) then 1 + DigitRun(s[1..]) else 0
  }

  /**
   * The matcher: `s` is exactly `\d{1,3}` followed by `n - 1` repetitions of
   * `\.\d{1,3}`. A group of digits is always followed by a dot or by the end
   * of the text, and a dot is not a digit, so each group is the longest run
   * of digits at its position and no backtracking is needed.
   */
  predicate MatchGroups(s: string, n: nat)
    requires n >= 1
    decreases n
  {
    var k := DigitRun(s);
    1 <= k <= 3 &&
    if n == 1 then k == |s|
    else k < |s| && s[k] == '.' && MatchGroups(s[k + 1..], n - 1)
  }

  /** `is_ip(host)`: the host is a dotted quad, with no range check on the groups. */
  predicate IsIp(host: string)
    ensures IsIp(host) <==> DottedQuad(host)
  {
    QuadMatchIffDottedQuad(host);
    MatchGroups(host, 4)
  }

  /** One group of the pattern: one to three ASCII digits. */
  ghost predicate DigitGroup(g: string) {
    1 <= |g| <= 3 && forall i :: 0 <= i < |g| ==> IsDigit(g[i])
  }

  /** The groups joined by single dots. */
  function JoinDots(groups: seq<string>): string
    requires |groups| >= 1
  {
    if |groups| == 1 then groups[0] else groups[0] + "." + JoinDots(groups[1..])
  }

  /**
   * Reference definition of a dotted quad: four digit groups joined by three
   * dots and nothing else. No range check is applied to the groups.
   */
  ghost predicate DottedQuad(host: string) {
    exists groups: seq<string> ::
      |groups| == 4 && (forall i :: 0 <= i < 4 ==> DigitGroup(groups[i])) && JoinDots(groups) == host
  }

  /** A digit group is a whole run of digits, also when a dot follows it. */
  lemma DigitRunOfGroup(g: string, rest: string)
    requires DigitGroup(g)
    ensures DigitRun(g) == |g|
    ensures DigitRun(g + "." + rest) == |g|
  {
    var s := g + "." + rest;
    assert forall i :: 0 <= i < |g| ==> s[i] == g[i];
    assert s[|g|] == '.';
  }

  /** The matcher accepts a digit group, a dot, and `n - 1` further groups. */
  lemma MatchGroupsCons(g: string, rest: string, n: nat)
    requires DigitGroup(g) && n >= 2 && MatchGroups(rest, n - 1)
    ensures MatchGroups(g + "." + rest, n)
  {
    DigitRunOfGroup(g, rest);
    assert (g + "." + rest)[|g| + 1..] == rest;
  }

  /** Digit groups joined by dots are accepted by the matcher. */
  lemma {:induction false} JoinedGroupsMatch(groups: seq<string>)
    requires |groups| >= 1
    requires forall i :: 0 <= i < |groups| ==> DigitGroup(groups[i])
    ensures MatchGroups(JoinDots(groups), |groups|)
  {
    if |groups| == 1 {
      DigitRunOfGroup(groups[0], "");
    } else {
      var tail := groups[1..];
      assert forall i :: 0 <= i < |tail| ==> tail[i] == groups[i + 1];
      JoinedGroupsMatch(tail);
      MatchGroupsCons(groups[0], JoinDots(tail), |groups|);
    }
  }

  /** The digits before the first non-digit form a group when there are one to three of them. */
  lemma DigitPrefixIsGroup(s: string)
    requires 1 <= DigitRun(s) <= 3
    ensures DigitGroup(s[..DigitRun(s)])
  {
    var k := DigitRun(s);
    assert forall i :: 0 <= i < k ==> s[..k][i] == s[i];
  }

  /** A group in front of digit groups gives digit groups, joined with one more dot. */
  lemma ConsGroups(head: string, rest: seq<string>)
    requires DigitGroup(head) && |rest| >= 1
    requires forall i :: 0 <= i < |rest| ==> DigitGroup(rest[i])
    ensures forall i :: 0 <= i < |rest| + 1 ==> DigitGroup(([head] + rest)[i])
    ensures JoinDots([head] + rest) == head + "." + JoinDots(rest)
  {
    var groups := [head] + rest;
    assert groups[1..] == rest;
    assert forall i :: 1 <= i < |groups| ==> groups[i] == rest[i - 1];
  }

  lemma SplitAtDot(s: string, k: nat)
    requires k < |s| && s[k] == '.'
    ensures s == s[..k] + "." + s[k + 1..]
  {
    assert s == s[..k] + [s[k]] + s[k + 1..];
  }

  /** Text accepted by the matcher splits into `n` digit groups joined by dots. */
  lemma {:induction false} MatchedTextSplits(s: string, n: nat) returns (groups: seq<string>)
    requires n >= 1 && MatchGroups(s, n)
    ensures |groups| == n
    ensures forall i :: 0 <= i < n ==> DigitGroup(groups[i])
    ensures JoinDots(groups) == s
    decreases n
  {
    var k := DigitRun(s);
    DigitPrefixIsGroup(s);
    if n == 1 {
      assert s[..k] == s;
      assert DigitGroup(s);
      groups := [s];
      assert groups[0] == s && JoinDots(groups) == s;
    } else {
      var rest := MatchedTextSplits(s[k + 1..], n - 1);
      ConsGroups(s[..k], rest);
      SplitAtDot(s, k);
      groups := [s[..k]] + rest;
    }
  }

  /** The four-group matcher accepts exactly the dotted quads: both directions. */
  lemma QuadMatchIffDottedQuad(host: string)
    ensures MatchGroups(host, 4) <==> DottedQuad(host)
  {
    if MatchGroups(host, 4) {
      var groups := MatchedTextSplits(host, 4);
      assert |groups| == 4 && (forall i :: 0 <= i < 4 ==> DigitGroup(groups[i])) && JoinDots(groups) == host;
    }
    if DottedQuad(host) {
      var groups: seq<string> :|
        |groups| == 4 && (forall i :: 0 <= i < 4 ==> DigitGroup(groups[i])) && JoinDots(groups) == host;
      JoinedGroupsMatch(groups);
    }
  }

  /** A plain dotted quad is accepted. */
  lemma PlainQuadIsIp()
    ensures IsIp("1.2.3.4")
  {
    var groups := ["1", "2", "3", "4"];
    assert JoinDots(groups[3..]) == "4";
    assert JoinDots(groups[2..]) == "3.4";
    assert JoinDots(groups[1..]) == "2.3.4";
    assert JoinDots(groups) == "1.2.3.4";
    JoinedGroupsMatch(groups);
  }

  /** Out-of-range groups such as 999 are accepted too: no range check is applied. */
  lemma OutOfRangeQuadIsIp()
    ensures IsIp("999.999.999.999")
  {
    var groups := ["999", "999", "999", "999"];
    assert JoinDots(groups[3..]) == "999";
    assert JoinDots(groups[2..]) == "999.999";
    assert JoinDots(groups[1..]) == "999.999.999";
    assert JoinDots(groups) == "999.999.999.999";
    JoinedGroupsMatch(groups);
  }

  /** A domain name is not an IP. */
  lemma DomainIsNotIp()
    ensures !IsIp("example.com")
  {
    assert DigitRun("example.com") == 0;
  }

  /** A group of four digits is rejected. */
  lemma LongGroupIsNotIp()
    ensures !IsIp("1234.1.1.1")
  {
    assert DigitRun("1234.1.1.1") == 4;
  }

  /** Three groups are too few. */
  lemma ThreeGroupsAreNotIp()
    ensures !IsIp("1.2.3")
  {
    var t := "1.2.3";
    assert DigitRun(t) == 1 && t[2..] == "2.3";
    assert DigitRun("2.3") == 1 && "2.3"[2..] == "3";
    assert DigitRun("3") == 1;
  }

  /** Five groups are too many. */
  lemma FiveGroupsAreNotIp()
    ensures !IsIp("1.2.3.4.5")
  {
    var t := "1.2.3.4.5";
    assert DigitRun(t) == 1 && t[2..] == "2.3.4.5";
    assert DigitRun("2.3.4.5") == 1 && "2.3.4.5"[2..] == "3.4.5";
    assert DigitRun("3.4.5") == 1 && "3.4.5"[2..] == "4.5";
    assert DigitRun("4.5") == 1;
  }

  // ---------------------------------------------------------------------------
  // get_url_features
  // ---------------------------------------------------------------------------

  /** `get_url_features(url)`, with `host` and `suffix` supplied by the suffix parser. */
  function GetUrlFeatures(url: string, host: string, suffix: string): (f: UrlFeatures)
    ensures f.host == host
    ensures f.urlLength == |url|
    ensures f.numDots == multiset(host)['.'] && f.numHyphens == multiset(host)['-']
    ensures f.hasHttps <==> |url| >= 5 && url[0] == 'h' && url[1] == 't' && url[2] == 't' && url[3] == 'p' && url[4] == 's'
    ensures f.looksLikeIp <==> DottedQuad(host)
    ensures f.suspiciousTld <==> suffix in SuspiciousTlds
  {
    UrlFeatures(
      host := host,
      urlLength := |url|,
      numDots := Count(host, '.'),
      numHyphens := Count(host, '-'),
      hasHttps := StartsWith(url, HttpsPrefix),
      looksLikeIp := IsIp(host),
      suspiciousTld := suffix in SuspiciousTlds)
  }

  /** The prefix test is literal: a scheme such as "httpsx" passes, "http" does not. */
  lemma HttpsPrefixIsLiteral(rest: string)
    ensures GetUrlFeatures("httpsx://" + rest, "", "").hasHttps
    ensures !GetUrlFeatures("http://" + rest, "", "").hasHttps
  {
  }

  /** With an empty host the host-derived counts are zero and the host does not look like an IP. */
  lemma EmptyHostFeatures(url: string, suffix: string)
    ensures var f := GetUrlFeatures(url, "", suffix);
      f.numDots == 0 && f.numHyphens == 0 && !f.looksLikeIp
  {
  }
}
