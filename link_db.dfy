/**
 * The card link table `LINK_DB`, keyed by `str(card_id)`, and
 * `show_card_details`, which walks the extracted ids and shows the image and
 * application links of every id the table knows.
 */
module LinkDb {

  import opened Common

  /** A `card_id` as the JSON file may hold it: an integer or a string. */
  datatype CardId = IntId(n: int) | StrId(s: string)

  /** One entry of the link file; the keys read by the display may be missing. */
  datatype LinkItem = LinkItem(cardId: CardId, image: Option<string>, requestPc: Option<string>, requestM: Option<string>)

  /** The ASCII digit of value `d`. */
  function DigitChar(d: nat): (c: char)
    requires d < 10
    ensures '0' <= c <= '9' && (c as int) - ('0' as int) == d
  {
    "0123456789"[d]
  }

  /** Python's `str(n)` for `n >= 0`: decimal, without leading zeros. */
  function DecimalString(n: nat): (s: string)
    ensures |s| > 0 && forall k | 0 <= k < |s| :: '0' <= s[k] <= '9'
    ensures |s| > 1 ==> s[0] != '0'
    decreases n
  {
    if n < 10 then [DigitChar(n)] else DecimalString(n / 10) + [DigitChar(n % 10)]
  }

  /** Python's `int(s)` on a string of ASCII digits. */
  function DecimalValue(s: string): nat
    requires forall k | 0 <= k < |s| :: '0' <= s[k] <= '9'
  {
    if s == [] then 0
    else DecimalValue(s[..|s| - 1]) * 10 + ((s[|s| - 1] as int) - ('0' as int))
  }

  /** Reading back the decimal string of a number gives the number. */
  lemma {:induction false} DecimalRoundTrip(n: nat)
    ensures DecimalValue(DecimalString(n)) == n
    decreases n
  {
    if n >= 10 {
      var s := DecimalString(n);
      assert s[..|s| - 1] == DecimalString(n / 10);
      DecimalRoundTrip(n / 10);
    }
  }

  /** The key of an item in `LINK_DB`: Python's `str(card_id)`. */
  function Key(id: CardId): (key: string)
    ensures id.StrId? ==> key == id.s
    ensures id.IntId? ==> |key| > 0 && (key[0] == '-' <==> id.n < 0)
    ensures id.IntId? && id.n < 0 ==> key[1..] == DecimalString(-id.n)
    ensures id.IntId? && id.n >= 0 ==> key == DecimalString(id.n)
  {
    match id
    case IntId(n) => if n < 0 then "-" + DecimalString(-n) else DecimalString(n)
    case StrId(s) => s
  }

  /** Two numeric ids share a key only when they are equal. */
  lemma {:induction false} IntKeysInjective(a: int, b: int)
    requires Key(IntId(a)) == Key(IntId(b))
    ensures a == b
  {
    var key := Key(IntId(a));
    var da, db := if a < 0 then -a else a, if b < 0 then -b else b;
    assert (a < 0) == (b < 0);
    assert DecimalString(da) == DecimalString(db) by {
      if a < 0 {
        assert DecimalString(da) == key[1..] == DecimalString(db);
      }
    }
    DecimalRoundTrip(da);
    DecimalRoundTrip(db);
  }

  /**
   * `LINK_DB = {str(item["card_id"]): item for item in link_data}`: the
   * comprehension inserts the items in order, so a later item with the same
   * key replaces an earlier one.
   */
  function BuildLinkDb(items: seq<LinkItem>): (db: map<string, LinkItem>)
    ensures db.Keys == set i | 0 <= i < |items| :: Key(items[i].cardId)
    ensures forall key | key in db :: db[key] in items && Key(db[key].cardId) == key
    decreases |items|
  {
    if items == [] then map[]
    else
      var last := items[|items| - 1];
      BuildLinkDb(items[..|items| - 1])[Key(last.cardId) := last]
  }

  /** The last item with a given key is the one stored under it. */
  lemma {:induction false} LastOccurrenceWins(items: seq<LinkItem>, i: nat)
    requires i < |items|
    requires forall j | i < j < |items| :: Key(items[j].cardId) != Key(items[i].cardId)
    ensures Key(items[i].cardId) in BuildLinkDb(items)
    ensures BuildLinkDb(items)[Key(items[i].cardId)] == items[i]
    decreases |items|
  {
    if i < |items| - 1 {
      var init := items[..|items| - 1];
      assert init[i] == items[i];
      LastOccurrenceWins(init, i);
    }
  }

  /** Python truthiness of an optional string: present and non-empty. */
  predicate Truthy(o: Option<string>) {
    o.Some? && o.value != ""
  }

  /** The image part of a card panel. */
  datatype ImageView = NoImage | Image(path: string) | MissingImageWarning(path: string)

  /** An application-link part of a card panel. */
  datatype LinkView = ApplyLink(url: string) | NoLinkNotice

  /** What is displayed for one card: its image, then its PC and mobile links. */
  datatype Panel = Panel(image: ImageView, pc: LinkView, mobile: LinkView)

  /**
   * The display of one known card. `resolve` stands for the path
   * normalisation of the image path and `fileExists` for the file system.
   */
  function RenderPanel(item: LinkItem, resolve: string -> string, fileExists: string -> bool): (p: Panel)
    ensures p.image.NoImage? <==> !Truthy(item.image)
    ensures p.image.Image? ==> fileExists(p.image.path)
    ensures p.image.MissingImageWarning? ==> !fileExists(p.image.path)
    ensures !p.image.NoImage? ==> p.image.path == resolve(item.image.value)
    ensures p.pc.ApplyLink? <==> Truthy(item.requestPc)
    ensures p.pc.ApplyLink? ==> p.pc.url == item.requestPc.value
    ensures p.mobile.ApplyLink? <==> Truthy(item.requestM)
    ensures p.mobile.ApplyLink? ==> p.mobile.url == item.requestM.value
  {
    var image :=
      if Truthy(item.image) then
        var path := resolve(item.image.value);
        if fileExists(path) then Image(path) else MissingImageWarning(path)
      else NoImage;
    var pc := if Truthy(item.requestPc) then ApplyLink(item.requestPc.value) else NoLinkNotice;
    var mobile := if Truthy(item.requestM) then ApplyLink(item.requestM.value) else NoLinkNotice;
    Panel(image, pc, mobile)
  }

  /** The ids the table knows, in their order, with repetitions kept. */
  function Known(db: map<string, LinkItem>, ids: seq<string>): (known: seq<string>)
    ensures forall k | 0 <= k < |known| :: known[k] in db
    ensures |known| <= |ids|
  {
    if ids == [] then []
    else
      var last := ids[|ids| - 1];
      Known(db, ids[..|ids| - 1]) + (if last in db then [last] else [])
  }

  /** Filtering distributes over concatenation, so the input order is kept. */
  lemma {:induction false} KnownAppend(db: map<string, LinkItem>, a: seq<string>, b: seq<string>)
    ensures Known(db, a + b) == Known(db, a) + Known(db, b)
    decreases |b|
  {
    if b == [] {
      assert a + b == a;
    } else {
      var init := b[..|b| - 1];
      assert (a + b)[..|a + b| - 1] == a + init;
      KnownAppend(db, a, init);
    }
  }

  /** Every known id is kept as often as it occurs; every unknown id is dropped. */
  lemma {:induction false} KnownCounts(db: map<string, LinkItem>, ids: seq<string>, x: string)
    ensures multiset(Known(db, ids))[x] == if x in db then multiset(ids)[x] else 0
    decreases |ids|
  {
    if ids != [] {
      var init := ids[..|ids| - 1];
      assert ids == init + [ids[|ids| - 1]];
      KnownCounts(db, init, x);
    }
  }

  /**
   * `show_card_details`: for each id, in order, skip it when the table does
   * not know it, otherwise display its panel; the function returns `[]`.
   * `panels` records what is displayed.
   */
  method ShowCardDetails(db: map<string, LinkItem>, cardIds: seq<string>,
                         resolve: string -> string, fileExists: string -> bool)
    returns (panels: seq<Panel>, result: seq<string>)
    ensures result == []
    ensures |panels| == |Known(db, cardIds)|
    ensures forall k | 0 <= k < |panels| ::
      panels[k] == RenderPanel(db[Known(db, cardIds)[k]], resolve, fileExists)
  {
    panels := [];
    for i := 0 to |cardIds|
      invariant |panels| == |Known(db, cardIds[..i])|
      invariant forall k | 0 <= k < |panels| ::
        panels[k] == RenderPanel(db[Known(db, cardIds[..i])[k]], resolve, fileExists)
    {
      assert cardIds[..i + 1][..i] == cardIds[..i];
      var cid := cardIds[i];
      if cid !in db {
        continue;
      }
      var data := db[cid];
      panels := panels + [RenderPanel(data, resolve, fileExists)];
    }
    assert cardIds[..|cardIds|] == cardIds;
    result := [];
  }
}
