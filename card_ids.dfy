/**
 * Extraction of card identifiers from a chat reply: Python's
 * `re.findall(r"카드ID\s*:\s*(\d+)", text)`, which yields the captured digit
 * run of every leftmost, non-overlapping match, left to right.
 */
module CardIds {

  import opened Common

  /** The literal that opens every match. */
  const Marker: string := "카드ID"

  /**
   * The character classes `\s` and `\d` of Python's `re` on `str`. Both are
   * Unicode-aware, so they are given, not defined here.
   */
  datatype CharClasses = CharClasses(isSpace: char -> bool, isDigit: char -> bool)

  /**
   * What holds of Python's classes and makes the pattern match in only one way:
   * a colon is not white space, and no character is both a digit and white space.
   * Under it, the greedy scanner below agrees with the backtracking matcher.
   */
  ghost predicate Sane(cc: CharClasses) {
    && !cc.isSpace(':')
    && forall c :: cc.isDigit(c) ==> !cc.isSpace(c)
  }

  /** Every character of `s` satisfies `p`. */
  ghost predicate All(p: char -> bool, s: string) {
    forall k | 0 <= k < |s| :: p(s[k])
  }

  /** The marker occurs in `text` at index `i`. */
  predicate MarkerAt(text: string, i: nat) {
    i + |Marker| <= |text| && text[i..i + |Marker|] == Marker
  }

  /**
   * One match of the pattern: the marker at `start`, white space up to the
   * colon at `colon`, white space up to `digitsFrom`, and the captured digits
   * `text[digitsFrom..end]`.
   */
  datatype Match = Match(start: nat, colon: nat, digitsFrom: nat, end: nat)

  /**
   * Specification of a match: `m` is how `카드ID\s*:\s*(\d+)` matches `text`
   * at `m.start`. The digit run is non-empty and greedy, so it is not followed
   * by another digit.
   */
  ghost predicate IsMatch(cc: CharClasses, text: string, m: Match) {
    && m.start + |Marker| <= m.colon < m.digitsFrom < m.end <= |text|
    && MarkerAt(text, m.start)
    && All(cc.isSpace, text[m.start + |Marker|..m.colon])
    && text[m.colon] == ':'
    && All(cc.isSpace, text[m.colon + 1..m.digitsFrom])
    && All(cc.isDigit, text[m.digitsFrom..m.end])
    && (m.end == |text| || !cc.isDigit(text[m.end]))
  }

  /** The first index at or after `k` whose character fails `p` (a greedy `p*`). */
  function SkipWhile(p: char -> bool, text: string, k: nat): (r: nat)
    requires k <= |text|
    ensures k <= r <= |text|
    ensures All(p, text[k..r])
    ensures r == |text| || !p(text[r])
    decreases |text| - k
  {
    if k < |text| && p(text[k]) then SkipWhile(p, text, k + 1) else k
  }

  /** A greedy run is the only run of `p` from `k` that stops before a non-`p` character. */
  lemma {:induction false} SkipWhileUnique(p: char -> bool, text: string, k: nat, x: nat)
    requires k <= x <= |text|
    requires All(p, text[k..x])
    requires x == |text| || !p(text[x])
    ensures SkipWhile(p, text, k) == x
    decreases x - k
  {
    if k < x {
      assert text[k..x][0] == text[k];
      SkipWhileUnique(p, text, k + 1, x);
    }
  }

  /** The scanner at one position: the match starting at `i`, if there is one. */
  function MatchAt(cc: CharClasses, text: string, i: nat): (r: Option<Match>)
    requires i <= |text|
    ensures r.Some? ==> r.value.start == i && IsMatch(cc, text, r.value)
  {
    if MarkerAt(text, i) then
      var colon := SkipWhile(cc.isSpace, text, i + |Marker|);
      if colon < |text| && text[colon] == ':' then
        var digitsFrom := SkipWhile(cc.isSpace, text, colon + 1);
        var end := SkipWhile(cc.isDigit, text, digitsFrom);
        if digitsFrom < end then Some(Match(i, colon, digitsFrom, end)) else None
      else None
    else None
  }

  /** The scanner finds every match that starts at `i`, and it is the only one. */
  lemma MatchAtExact(cc: CharClasses, text: string, i: nat, m: Match)
    requires Sane(cc)
    requires m.start == i && IsMatch(cc, text, m)
    ensures MatchAt(cc, text, i) == Some(m)
  {
    SkipWhileUnique(cc.isSpace, text, i + |Marker|, m.colon);
    assert text[m.digitsFrom..m.end][0] == text[m.digitsFrom];
    SkipWhileUnique(cc.isSpace, text, m.colon + 1, m.digitsFrom);
    SkipWhileUnique(cc.isDigit, text, m.digitsFrom, m.end);
  }

  /**
   * The scan of `findall` from `pos`: at each position take the match there and
   * resume at its end, or move one character on.
   */
  function Scan(cc: CharClasses, text: string, pos: nat): (ms: seq<Match>)
    requires pos <= |text|
    ensures forall k | 0 <= k < |ms| :: IsMatch(cc, text, ms[k]) && pos <= ms[k].start
    ensures forall k | 0 <= k < |ms| - 1 :: ms[k].end <= ms[k + 1].start
    decreases |text| - pos
  {
    if pos == |text| then []
    else
      match MatchAt(cc, text, pos)
      case Some(m) => [m] + Scan(cc, text, m.end)
      case None => Scan(cc, text, pos + 1)
  }

  /** Position `p` lies inside one of the matches `ms`. */
  ghost predicate Covered(ms: seq<Match>, p: nat) {
    exists k | 0 <= k < |ms| :: ms[k].start <= p < ms[k].end
  }

  /**
   * Completeness of the scan: every match of the pattern at or after `pos`
   * either is reported or starts inside a reported match.
   */
  lemma {:induction false} ScanComplete(cc: CharClasses, text: string, pos: nat, m: Match)
    requires Sane(cc) && pos <= |text|
    requires IsMatch(cc, text, m) && pos <= m.start
    ensures Covered(Scan(cc, text, pos), m.start)
    decreases |text| - pos
  {
    var ms := Scan(cc, text, pos);
    if m.start == pos {
      MatchAtExact(cc, text, pos, m);
      assert ms[0] == m;
    } else {
      match MatchAt(cc, text, pos)
      case Some(m0) =>
        assert ms[0] == m0;
        if m.start >= m0.end {
          ScanComplete(cc, text, m0.end, m);
          var rest := Scan(cc, text, m0.end);
          var k :| 0 <= k < |rest| && rest[k].start <= m.start < rest[k].end;
          assert ms[k + 1] == rest[k];
        }
      case None =>
        ScanComplete(cc, text, pos + 1, m);
    }
  }

  /** The digit strings that `extract_card_ids` returns, one per match, left to right. */
  function ExtractCardIds(cc: CharClasses, text: string): (ids: seq<string>)
    ensures forall k | 0 <= k < |ids| :: |ids[k]| > 0 && All(cc.isDigit, ids[k])
  {
    var ms := Scan(cc, text, 0);
    seq(|ms|, k requires 0 <= k < |ms| => text[ms[k].digitsFrom..ms[k].end])
  }

  /**
   * Each returned id is the digit run of the corresponding match, taken to its
   * end: the character after it, if any, is not a digit.
   */
  lemma ExtractedIdsAreMaximalRuns(cc: CharClasses, text: string)
    ensures var ms := Scan(cc, text, 0);
      && |ExtractCardIds(cc, text)| == |ms|
      && forall k | 0 <= k < |ms| ::
           && ExtractCardIds(cc, text)[k] == text[ms[k].digitsFrom..ms[k].end]
           && (ms[k].end == |text| || !cc.isDigit(text[ms[k].end]))
  {
  }

  /** A text without the marker yields no ids. */
  lemma NoMarkerNoIds(cc: CharClasses, text: string)
    requires forall i: nat | i <= |text| :: !MarkerAt(text, i)
    ensures ExtractCardIds(cc, text) == []
  {
    NoMatchFrom(cc, text, 0);
  }

  /** The number of occurrences of the marker in `text` at or after `pos`. */
  function MarkerCount(text: string, pos: nat): nat
    requires pos <= |text|
    decreases |text| - pos
  {
    if pos == |text| then 0
    else (if MarkerAt(text, pos) then 1 else 0) + MarkerCount(text, pos + 1)
  }

  lemma {:induction false} MarkerCountMonotone(text: string, a: nat, b: nat)
    requires a <= b <= |text|
    ensures MarkerCount(text, b) <= MarkerCount(text, a)
    decreases b - a
  {
    if a < b {
      MarkerCountMonotone(text, a + 1, b);
    }
  }

  /** Every reported match consumes its own occurrence of the marker. */
  lemma {:induction false} ScanAtMostMarkers(cc: CharClasses, text: string, pos: nat)
    requires pos <= |text|
    ensures |Scan(cc, text, pos)| <= MarkerCount(text, pos)
    decreases |text| - pos
  {
    if pos < |text| {
      match MatchAt(cc, text, pos)
      case Some(m) =>
        ScanAtMostMarkers(cc, text, m.end);
        MarkerCountMonotone(text, pos + 1, m.end);
      case None =>
        ScanAtMostMarkers(cc, text, pos + 1);
    }
  }

  /** There are never more ids than occurrences of the marker. */
  lemma IdsAtMostMarkers(cc: CharClasses, text: string)
    ensures |ExtractCardIds(cc, text)| <= MarkerCount(text, 0)
  {
    ScanAtMostMarkers(cc, text, 0);
  }

  /** One marker, a colon with a space after it, and a two-digit id. */
  lemma ExampleOneId(cc: CharClasses)
    requires Sane(cc)
    requires cc.isSpace(' ') && cc.isDigit('1') && cc.isDigit('2')
    ensures ExtractCardIds(cc, "카드ID: 12") == ["12"]
  {
    var text := "카드ID: 12";
    assert MarkerAt(text, 0);
    assert SkipWhile(cc.isSpace, text, 4) == 4;
    assert SkipWhile(cc.isSpace, text, 5) == 6;
    assert SkipWhile(cc.isDigit, text, 6) == 8;
    assert MatchAt(cc, text, 0) == Some(Match(0, 4, 6, 8));
    assert Scan(cc, text, 0) == [Match(0, 4, 6, 8)];
    assert text[6..8] == "12";
  }

  /** Without the colon the marker contributes nothing. */
  lemma ExampleNoColon(cc: CharClasses)
    requires Sane(cc)
    requires cc.isSpace(' ') && cc.isDigit('7')
    ensures ExtractCardIds(cc, "카드ID 7") == []
  {
    var text := "카드ID 7";
    assert SkipWhile(cc.isSpace, text, 4) == 5;
    assert MatchAt(cc, text, 0) == None;
    NoMatchFrom(cc, text, 1);
  }

  /** No match starts at or after `pos` when the marker does not occur there. */
  lemma {:induction false} NoMatchFrom(cc: CharClasses, text: string, pos: nat)
    requires pos <= |text|
    requires forall i: nat | pos <= i <= |text| :: !MarkerAt(text, i)
    ensures Scan(cc, text, pos) == []
    decreases |text| - pos
  {
    if pos < |text| {
      NoMatchFrom(cc, text, pos + 1);
    }
  }
}
