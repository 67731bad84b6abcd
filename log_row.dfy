/**
 * The spreadsheet row that `append_log_to_sheet` builds from a log entry:
 * nine cells, missing fields replaced by defaults, the two id lists joined
 * with ", ".
 */
module LogRow {

  import opened Common
  import CardIds

  /** The `user_info` dictionary of a log entry; each key may be missing. */
  datatype UserInfo = UserInfo(name: Option<string>, ageGroup: Option<string>, occupation: Option<string>)

  /** A log entry; each key may be missing. (Its `response` key is never read for the row.) */
  datatype LogEntry = LogEntry(
    timestamp: Option<string>,
    userInfo: Option<UserInfo>,
    query: Option<string>,
    cardIds: Option<seq<string>>,
    clickedCards: Option<seq<string>>,
    sessionDurationSec: Option<real>,
    abVersion: Option<string>)

  /** A cell of the row: Python `None`, a string, or a number. */
  datatype Cell = Null | Text(s: string) | Number(x: real)

  /** Python's `", ".join(xs)`. */
  function Join(xs: seq<string>): (s: string)
    ensures xs == [] ==> s == ""
    ensures |xs| == 1 ==> s == xs[0]
  {
    if xs == [] then "" else if |xs| == 1 then xs[0] else xs[0] + ", " + Join(xs[1..])
  }

  /** Python's `s.split(", ")`: the pieces between the leftmost non-overlapping separators. */
  function Split(s: string): (pieces: seq<string>)
    ensures |pieces| > 0
    decreases |s|
  {
    if |s| < 2 then [s]
    else if s[..2] == ", " then [""] + Split(s[2..])
    else
      var rest := Split(s[1..]);
      [[s[0]] + rest[0]] + rest[1..]
  }

  /** A joined cell read back as a list: the empty string stands for the empty list. */
  function ReadJoined(s: string): seq<string> {
    if s == "" then [] else Split(s)
  }

  /** A piece that can be joined and read back unchanged. */
  predicate Joinable(x: string) {
    x != "" && ',' !in x
  }

  lemma {:induction false} SplitNoSeparator(s: string)
    requires ',' !in s
    ensures Split(s) == [s]
    decreases |s|
  {
    if |s| >= 2 {
      assert s[..2][0] == s[0] != ',';
      SplitNoSeparator(s[1..]);
      assert [s[0]] + s[1..] == s;
    }
  }

  lemma {:induction false} SplitAfterPiece(a: string, rest: string)
    requires ',' !in a
    ensures Split(a + ", " + rest) == [a] + Split(rest)
    decreases |a|
  {
    var s := a + ", " + rest;
    if a == [] {
      assert s[..2] == ", " && s[2..] == rest;
    } else {
      assert s[0] == a[0] != ',';
      assert s[..2][0] == s[0];
      assert s[1..] == a[1..] + ", " + rest;
      SplitAfterPiece(a[1..], rest);
      assert [s[0]] + a[1..] == a;
    }
  }

  /** Splitting undoes joining when no piece holds a comma. */
  lemma {:induction false} SplitJoin(xs: seq<string>)
    requires |xs| > 0
    requires forall k | 0 <= k < |xs| :: ',' !in xs[k]
    ensures Split(Join(xs)) == xs
  {
    if |xs| == 1 {
      SplitNoSeparator(xs[0]);
    } else {
      SplitAfterPiece(xs[0], Join(xs[1..]));
      SplitJoin(xs[1..]);
    }
  }

  /** A joined list of non-empty, comma-free pieces reads back as the same list, order included. */
  lemma JoinedReadsBack(xs: seq<string>)
    requires forall k | 0 <= k < |xs| :: Joinable(xs[k])
    ensures ReadJoined(Join(xs)) == xs
  {
    if xs != [] {
      SplitJoin(xs);
    }
  }

  /** The row of `append_log_to_sheet`, column by column. */
  function BuildRow(e: LogEntry): (row: seq<Cell>)
    ensures |row| == 9
    ensures row[0].Null? || row[0].Text?
    ensures row[1].Text? && row[2].Text? && row[3].Text? && row[4].Text?
    ensures row[5].Text? && row[6].Text? && row[7].Number? && row[8].Text?
  {
    var info := e.userInfo.GetOr(UserInfo(None, None, None));
    [
      if e.timestamp.Some? then Text(e.timestamp.value) else Null,
      Text(info.name.GetOr("")),
      Text(info.ageGroup.GetOr("")),
      Text(info.occupation.GetOr("")),
      Text(e.query.GetOr("")),
      Text(Join(e.cardIds.GetOr([]))),
      Text(Join(e.clickedCards.GetOr([]))),
      Number(e.sessionDurationSec.GetOr(0.0)),
      Text(e.abVersion.GetOr(""))
    ]
  }

  /** Example: an entry with no keys at all gives the row of defaults. */
  lemma EmptyEntryRow()
    ensures BuildRow(LogEntry(None, None, None, None, None, None, None))
         == [Null, Text(""), Text(""), Text(""), Text(""), Text(""), Text(""), Number(0.0), Text("")]
  {
  }

  /** Each missing key becomes its default, whatever the other keys hold. */
  lemma MissingFieldsGetDefaults(e: LogEntry)
    ensures e.timestamp.None? ==> BuildRow(e)[0] == Null
    ensures (e.userInfo.None? || e.userInfo.value.name.None?) ==> BuildRow(e)[1] == Text("")
    ensures (e.userInfo.None? || e.userInfo.value.ageGroup.None?) ==> BuildRow(e)[2] == Text("")
    ensures (e.userInfo.None? || e.userInfo.value.occupation.None?) ==> BuildRow(e)[3] == Text("")
    ensures e.query.None? ==> BuildRow(e)[4] == Text("")
    ensures e.cardIds.None? ==> BuildRow(e)[5] == Text("")
    ensures e.clickedCards.None? ==> BuildRow(e)[6] == Text("")
    ensures e.sessionDurationSec.None? ==> BuildRow(e)[7] == Number(0.0)
    ensures e.abVersion.None? ==> BuildRow(e)[8] == Text("")
  {
  }

  /** Each present key lands in its own column, in the order of the sheet. */
  lemma PresentFieldsInPlace(e: LogEntry)
    ensures e.timestamp.Some? ==> BuildRow(e)[0] == Text(e.timestamp.value)
    ensures e.userInfo.Some? && e.userInfo.value.name.Some? ==> BuildRow(e)[1] == Text(e.userInfo.value.name.value)
    ensures e.userInfo.Some? && e.userInfo.value.ageGroup.Some? ==> BuildRow(e)[2] == Text(e.userInfo.value.ageGroup.value)
    ensures e.userInfo.Some? && e.userInfo.value.occupation.Some? ==> BuildRow(e)[3] == Text(e.userInfo.value.occupation.value)
    ensures e.query.Some? ==> BuildRow(e)[4] == Text(e.query.value)
    ensures e.cardIds.Some? ==> BuildRow(e)[5] == Text(Join(e.cardIds.value))
    ensures e.clickedCards.Some? ==> BuildRow(e)[6] == Text(Join(e.clickedCards.value))
    ensures e.cardIds.Some? && |e.cardIds.value| == 1 ==> BuildRow(e)[5] == Text(e.cardIds.value[0])
    ensures e.clickedCards.Some? && |e.clickedCards.value| == 1 ==> BuildRow(e)[6] == Text(e.clickedCards.value[0])
    ensures e.sessionDurationSec.Some? ==> BuildRow(e)[7] == Number(e.sessionDurationSec.value)
    ensures e.abVersion.Some? ==> BuildRow(e)[8] == Text(e.abVersion.value)
  {
  }

  /**
   * The two list columns keep their contents and order: reading them back
   * gives the lists (an absent list reads back as the empty one).
   */
  lemma ListColumnsReadBack(e: LogEntry)
    requires forall k | 0 <= k < |e.cardIds.GetOr([])| :: Joinable(e.cardIds.GetOr([])[k])
    requires forall k | 0 <= k < |e.clickedCards.GetOr([])| :: Joinable(e.clickedCards.GetOr([])[k])
    ensures ReadJoined(BuildRow(e)[5].s) == e.cardIds.GetOr([])
    ensures ReadJoined(BuildRow(e)[6].s) == e.clickedCards.GetOr([])
  {
    JoinedReadsBack(e.cardIds.GetOr([]));
    JoinedReadsBack(e.clickedCards.GetOr([]));
  }

  /**
   * For the ids extracted from a reply and logged as `card_ids`, the card-id
   * cell string built for them splits on `", "` back into those ids, provided
   * a comma is not a digit (it is not one for Python's `\d`).
   */
  lemma ExtractedIdsReadBack(cc: CardIds.CharClasses, reply: string, e: LogEntry)
    requires !cc.isDigit(',')
    requires e.cardIds == Some(CardIds.ExtractCardIds(cc, reply))
    ensures ReadJoined(BuildRow(e)[5].s) == CardIds.ExtractCardIds(cc, reply)
  {
    var ids := CardIds.ExtractCardIds(cc, reply);
    forall k | 0 <= k < |ids|
      ensures Joinable(ids[k])
    {
      assert CardIds.All(cc.isDigit, ids[k]);
    }
    JoinedReadsBack(ids);
  }
}
