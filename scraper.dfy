/**
 * The response scraper's inline-config extraction
 * (`Credential::extract_json_from_config_variable_in_response_body`): split the
 * body into lines, keep the longest one, and cut off its first eight octets and
 * its last octet. What remains is the text handed to the JSON parser.
 */
module Scraper {
  import opened Text

  /**
   * Rust's `str::lines`: split after each LF, drop that LF and a CR just before
   * it. A last line without an LF is kept whole, a trailing CR included.
   */
  function Lines(s: seq<byte>): (r: seq<seq<byte>>)
    ensures forall i :: 0 <= i < |r| ==> LF !in r[i]
    ensures s != [] && LF !in s ==> r == [s]
    decreases |s|
  {
    if s == [] then []
    else
      var k := LineEnd(s, 0);
      if k == |s| then [s] else [StripCR(s[..k])] + Lines(s[k + 1..])
  }

  /** The index of the first LF at or after `i`, or the length when there is none. */
  function LineEnd(s: seq<byte>, i: nat): (k: nat)
    requires i <= |s|
    ensures i <= k <= |s| && (k < |s| ==> s[k] == LF)
    ensures forall j :: i <= j < k ==> s[j] != LF
    decreases |s| - i
  {
    if i == |s| || s[i] == LF then i else LineEnd(s, i + 1)
  }

  /**
   * A line that an LF ends is the first line of the split, its CR dropped, and
   * the lines of the rest follow it. Together with the empty text giving no line
   * and a text without an LF giving itself, this fixes the split completely.
   */
  lemma LinesAfterLF(l: seq<byte>, rest: seq<byte>)
    requires LF !in l
    ensures Lines(l + [LF] + rest) == [StripCR(l)] + Lines(rest)
  {
    var s := l + [LF] + rest;
    assert s[|l|] == LF && forall j :: 0 <= j < |l| ==> s[j] == l[j];
    var k := LineEnd(s, 0);
    assert s[..k] == l && s[k + 1..] == rest;
  }

  /** A line without its terminating CR, if it has one. */
  function StripCR(l: seq<byte>): (r: seq<byte>)
    ensures l == r + [CR] <==> |l| > 0 && l[|l| - 1] == CR
    ensures l != r + [CR] ==> r == l
    ensures LF !in l ==> LF !in r
  {
    if |l| > 0 && l[|l| - 1] == CR then l[..|l| - 1] else l
  }

  /**
   * The line the loop settles on: a later line replaces the current one only
   * when it is strictly longer, so ties keep the earlier line, and an empty
   * line is never taken (the running maximum starts at 0).
   */
  function Longest(lines: seq<seq<byte>>): seq<byte> {
    if lines == [] then []
    else
      var best := Longest(lines[..|lines| - 1]);
      var last := lines[|lines| - 1];
      if |last| > |best| then last else best
  }

  /** The chosen line is at least as long as every line, and is the first line of that length. */
  lemma {:induction false} LongestIsFirstMaximal(lines: seq<seq<byte>>)
    ensures forall j :: 0 <= j < |lines| ==> |lines[j]| <= |Longest(lines)|
    ensures Longest(lines) == [] ||
            exists k :: 0 <= k < |lines| && lines[k] == Longest(lines) &&
                        forall j :: 0 <= j < k ==> |lines[j]| < |lines[k]|
  {
    if lines != [] {
      var init := lines[..|lines| - 1];
      LongestIsFirstMaximal(init);
      var best := Longest(init);
      var last := lines[|lines| - 1];
      assert forall j :: 0 <= j < |init| ==> lines[j] == init[j];
      if |last| > |best| {
        assert lines[|lines| - 1] == Longest(lines);
      } else if best != [] {
        var k :| 0 <= k < |init| && init[k] == best && forall j :: 0 <= j < k ==> |init[j]| < |init[k]|;
        assert lines[k] == Longest(lines);
      }
    }
  }

  /** Line `k` is at least as long as every line and strictly longer than every line before it. */
  predicate IsFirstLongest(lines: seq<seq<byte>>, k: int) {
    && 0 <= k < |lines|
    && (forall j :: 0 <= j < |lines| ==> |lines[j]| <= |lines[k]|)
    && (forall j :: 0 <= j < k ==> |lines[j]| < |lines[k]|)
  }

  /**
   * `str::is_char_boundary` on the octets of a UTF-8 string: the ends, and every
   * index whose octet is not a continuation octet (0x80 to 0xBF).
   */
  predicate IsCharBoundary(s: seq<byte>, i: nat) {
    i == 0 || i == |s| || (i < |s| && !(0x80 <= s[i] < 0xC0))
  }

  /**
   * When `long_line.get(8..len - 1)` yields a value instead of the `unwrap`
   * panicking: the longest line has at least nine octets and both cut points
   * fall on character boundaries. No lines at all, or only short ones, panic.
   */
  predicate Extractable(body: seq<byte>) {
    var l := Longest(Lines(body));
    |l| >= 9 && IsCharBoundary(l, 8) && IsCharBoundary(l, |l| - 1)
  }

  /** The blob text: the longest line without its first eight octets and its last octet. */
  function ConfigBlob(body: seq<byte>): (r: seq<byte>)
    requires Extractable(body)
    ensures |r| == |Longest(Lines(body))| - 9
  {
    var l := Longest(Lines(body));
    l[8..|l| - 1]
  }

  /** The extraction loop, step by step, as the source writes it. */
  method ExtractJson(body: seq<byte>) returns (json: seq<byte>)
    requires Extractable(body)
    ensures json == ConfigBlob(body)
    ensures exists k :: IsFirstLongest(Lines(body), k) && |Lines(body)[k]| >= 9 &&
                        json == Lines(body)[k][8..|Lines(body)[k]| - 1]
  {
    var lines := Lines(body);
    var max := 0;
    var longLine: seq<byte> := [];
    for i := 0 to |lines|
      invariant longLine == Longest(lines[..i])
      invariant max == |longLine|
    {
      assert lines[..i + 1][..i] == lines[..i];
      if |lines[i]| > max {
        max := |lines[i]|;
        longLine := lines[i];
      }
    }
    assert lines[..|lines|] == lines;
    json := longLine[8..|longLine| - 1];
    LongestIsFirstMaximal(lines);
    var k :| 0 <= k < |lines| && lines[k] == longLine && forall j :: 0 <= j < k ==> |lines[j]| < |lines[k]|;
    assert IsFirstLongest(lines, k);
  }
}
