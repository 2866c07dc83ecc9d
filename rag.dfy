/**
 * Retrieval results as text (rag.py and data/rag.py) and the static shop
 * table (rag.py).
 *
 * The vector-store query itself is foreign: what it hands back, the value
 * of `search_results['metadatas']`, is the input here. Both files render it
 * with the same nested loop; they differ only in how many results they ask
 * the store for (3 in rag.py, 10 in data/rag.py).
 */
module Rag {
  import opened Text

  /** An entry of an inner list: a metadata dict, or anything else. */
  datatype Metadata = Record(fields: map<string, string>) | NotRecord

  /** An entry of `metadatas`: a list of entries, or anything else. */
  datatype ResultEntry = Batch(items: seq<Metadata>) | NotBatch

  /** A dict whose keys keep their insertion order. */
  type Dict = seq<(string, string)>

  const NoText := "No text available"

  /** `metadata.get('information', 'No text available').strip()` */
  function BlockText(fields: map<string, string>): string {
    if "information" in fields then Strip(fields["information"]) else NoText
  }

  /** One numbered block of the rendered result. */
  datatype Block = Block(number: nat, text: string)

  function Render(b: Block): string {
    Decimal(b.number) + "). \n" + b.text + "\n\n"
  }

  function RenderAll(bs: seq<Block>): string {
    if |bs| == 0 then "" else RenderAll(bs[..|bs| - 1]) + Render(bs[|bs| - 1])
  }

  /** The dicts of an inner list, in order. */
  function Records(items: seq<Metadata>): seq<map<string, string>> {
    if |items| == 0 then []
    else
      var last := items[|items| - 1];
      Records(items[..|items| - 1]) + (if last.Record? then [last.fields] else [])
  }

  /**
   * The blocks for the dicts `rs` of one list entry, numbered from `j`
   * upwards: `enumerate` rebinds the counter to the entry's index `j`, and
   * the counter then grows by one per dict.
   */
  function NumberedBlocks(j: nat, rs: seq<map<string, string>>): (bs: seq<Block>)
    ensures |bs| == |rs|
  {
    if |rs| == 0 then []
    else
      var n := |rs| - 1;
      NumberedBlocks(j, rs[..n]) + [Block(j + n, BlockText(rs[n]))]
  }

  /** Block `k` carries number `j + k` and the text of dict `k`. */
  lemma {:induction false} NumberedBlocksAt(j: nat, rs: seq<map<string, string>>, k: nat)
    requires k < |rs|
    ensures NumberedBlocks(j, rs)[k] == Block(j + k, BlockText(rs[k]))
  {
    var n := |rs| - 1;
    if k < n {
      NumberedBlocksAt(j, rs[..n], k);
    }
  }

  /** The blocks entry `j` of `metadatas` yields: none unless it is a list. */
  function EntryBlocks(j: nat, e: ResultEntry): seq<Block> {
    match e
    case NotBatch => []
    case Batch(items) => NumberedBlocks(j, Records(items))
  }

  /** Every block, entry by entry, in input order. */
  function AllBlocks(metadatas: seq<ResultEntry>): seq<Block> {
    if |metadatas| == 0 then []
    else
      var n := |metadatas| - 1;
      AllBlocks(metadatas[..n]) + EntryBlocks(n, metadatas[n])
  }

  /** The text `rag` returns for the given `metadatas`. */
  function Formatted(metadatas: seq<ResultEntry>): string {
    RenderAll(AllBlocks(metadatas))
  }

  lemma EntryStep(metadatas: seq<ResultEntry>, j: nat)
    requires j < |metadatas|
    ensures AllBlocks(metadatas[..j + 1]) == AllBlocks(metadatas[..j]) + EntryBlocks(j, metadatas[j])
    ensures metadatas[j].NotBatch? ==> AllBlocks(metadatas[..j + 1]) == AllBlocks(metadatas[..j])
  {
    assert metadatas[..j + 1][..j] == metadatas[..j];
    assert AllBlocks(metadatas[..j]) + [] == AllBlocks(metadatas[..j]);
  }

  lemma RecordsStep(items: seq<Metadata>, k: nat)
    requires k < |items|
    ensures Records(items[..k + 1])
            == Records(items[..k]) + (if items[k].Record? then [items[k].fields] else [])
  {
    assert items[..k + 1][..k] == items[..k];
  }

  /**
   * rag.py:35-48 and data/rag.py:40-53: the loop appends one block per dict
   * in a list entry, numbering from the entry's index.
   */
  method FormatSearchResults(metadatas: seq<ResultEntry>) returns (searchResult: string)
    ensures searchResult == Formatted(metadatas)
  {
    searchResult := "";
    var i: nat := 0;
    var j := 0;
    while j < |metadatas|
      invariant 0 <= j <= |metadatas|
      invariant searchResult == Formatted(metadatas[..j])
    {
      EntryStep(metadatas, j);
      i := j;
      match metadatas[j] {
        case NotBatch =>
        case Batch(items) =>
          searchResult, i := AppendRecords(searchResult, AllBlocks(metadatas[..j]), i, items);
      }
      j := j + 1;
    }
    assert metadatas[..j] == metadatas;
  }

  /**
   * The inner loop of `rag`: one block per dict of `items`, numbered from the
   * counter `i`, which grows by one per dict.
   */
  method AppendRecords(searchResult: string, ghost done: seq<Block>, i: nat, items: seq<Metadata>)
    returns (result: string, next: nat)
    requires searchResult == RenderAll(done)
    ensures result == RenderAll(done + NumberedBlocks(i, Records(items)))
    ensures next == i + |Records(items)|
  {
    result, next := searchResult, i;
    ghost var shown: seq<Block> := [];
    var k := 0;
    assert done + shown == done;
    while k < |items|
      invariant 0 <= k <= |items|
      invariant next == i + |shown|
      invariant shown == NumberedBlocks(i, Records(items[..k]))
      invariant result == RenderAll(done + shown)
    {
      if items[k].Record? {
        result, shown, next := AppendRecord(result, done, shown, i, items, k, next);
      } else {
        SkipStep(items, k);
      }
      k := k + 1;
    }
    assert items[..k] == items;
  }

  /** An item that is not a dict adds no block. */
  lemma SkipStep(items: seq<Metadata>, k: nat)
    requires k < |items| && !items[k].Record?
    ensures Records(items[..k + 1]) == Records(items[..k])
  {
    RecordsStep(items, k);
    assert Records(items[..k]) + [] == Records(items[..k]);
  }

  /** One more dict adds one block, numbered after those already shown. */
  lemma RecordStep(done: seq<Block>, i: nat, items: seq<Metadata>, k: nat, shown: seq<Block>)
    requires k < |items| && items[k].Record?
    requires shown == NumberedBlocks(i, Records(items[..k]))
    ensures var b := Block(i + |shown|, BlockText(items[k].fields));
            && NumberedBlocks(i, Records(items[..k + 1])) == shown + [b]
            && done + shown + [b] == done + (shown + [b])
  {
    RecordsStep(items, k);
    NumberedBlocksSnoc(i, Records(items[..k]), items[k].fields);
  }

  /** One pass of the inner loop over a dict: render it and count it. */
  method AppendRecord(text: string, ghost done: seq<Block>, ghost shown: seq<Block>,
                      i: nat, items: seq<Metadata>, k: nat, counter: nat)
    returns (result: string, ghost shown': seq<Block>, next: nat)
    requires k < |items| && items[k].Record?
    requires counter == i + |shown|
    requires shown == NumberedBlocks(i, Records(items[..k]))
    requires text == RenderAll(done + shown)
    ensures shown' == NumberedBlocks(i, Records(items[..k + 1]))
    ensures next == i + |shown'|
    ensures result == RenderAll(done + shown')
  {
    var b := Block(counter, BlockText(items[k].fields));
    RecordStep(done, i, items, k, shown);
    RenderAllSnoc(done + shown, b);
    result := text + Render(b);
    shown' := shown + [b];
    next := counter + 1;
  }

  lemma NumberedBlocksSnoc(j: nat, rs: seq<map<string, string>>, r: map<string, string>)
    ensures NumberedBlocks(j, rs + [r]) == NumberedBlocks(j, rs) + [Block(j + |rs|, BlockText(r))]
  {
    assert (rs + [r])[..|rs|] == rs;
  }

  lemma RenderAllSnoc(bs: seq<Block>, b: Block)
    ensures RenderAll(bs + [b]) == RenderAll(bs) + Render(b)
  {
    assert (bs + [b])[..|bs|] == bs;
  }

  /** Each block renders to a non-empty text. */
  lemma RenderNonEmpty(b: Block)
    ensures |Render(b)| >= 6
  {
  }

  /** The result is empty exactly when no list entry holds a dict. */
  lemma {:induction false} FormattedEmptyIff(metadatas: seq<ResultEntry>)
    ensures Formatted(metadatas) == "" <==> AllBlocks(metadatas) == []
  {
    var bs := AllBlocks(metadatas);
    if bs != [] {
      RenderAllSnoc(bs[..|bs| - 1], bs[|bs| - 1]);
      assert bs[..|bs| - 1] + [bs[|bs| - 1]] == bs;
      RenderNonEmpty(bs[|bs| - 1]);
    }
  }

  /** Number of dicts inside the list entries of `metadatas`. */
  function RecordCount(metadatas: seq<ResultEntry>): nat {
    if |metadatas| == 0 then 0
    else
      var n := |metadatas| - 1;
      RecordCount(metadatas[..n]) + (match metadatas[n] case Batch(items) => |Records(items)| case NotBatch => 0)
  }

  /** Exactly one block per dict; non-list entries and non-dict items yield none. */
  lemma {:induction false} OneBlockPerRecord(metadatas: seq<ResultEntry>)
    ensures |AllBlocks(metadatas)| == RecordCount(metadatas)
  {
    if |metadatas| > 0 {
      OneBlockPerRecord(metadatas[..|metadatas| - 1]);
    }
  }

  /**
   * The blocks of the entries before `j` come first, in the same order and with
   * the same numbers, whatever follows.
   */
  lemma {:induction false} BlocksInInputOrder(metadatas: seq<ResultEntry>, j: nat)
    requires j <= |metadatas|
    ensures AllBlocks(metadatas[..j]) <= AllBlocks(metadatas)
    decreases |metadatas| - j
  {
    if j < |metadatas| {
      var n := |metadatas| - 1;
      assert metadatas[..n][..j] == metadatas[..j];
      BlocksInInputOrder(metadatas[..n], j);
      assert AllBlocks(metadatas) == AllBlocks(metadatas[..n]) + EntryBlocks(n, metadatas[n]);
      PrefixOfLonger(AllBlocks(metadatas[..j]), AllBlocks(metadatas[..n]), EntryBlocks(n, metadatas[n]));
    } else {
      assert metadatas[..j] == metadatas;
    }
  }

  lemma PrefixOfLonger<T>(a: seq<T>, b: seq<T>, c: seq<T>)
    requires a <= b
    ensures a <= b + c
  {
    assert (b + c)[..|a|] == b[..|a|];
  }

  /**
   * A single query asking for `limit` results hands back one list of at most
   * `limit` dicts, so the blocks are numbered 0, 1, ... below `limit`.
   */
  lemma SingleQueryNumbering(items: seq<Metadata>, limit: nat, k: nat)
    requires |items| <= limit
    requires k < |AllBlocks([Batch(items)])|
    ensures AllBlocks([Batch(items)])[k].number == k < limit
  {
    assert [Batch(items)][..0] == [];
    RecordsAtMost(items);
    NumberedBlocksAt(0, Records(items), k);
  }

  lemma {:induction false} RecordsAtMost(items: seq<Metadata>)
    ensures |Records(items)| <= |items|
  {
    if |items| > 0 {
      RecordsAtMost(items[..|items| - 1]);
    }
  }

  /**
   * Because `enumerate` rebinds the counter, numbers repeat across entries:
   * two results in entry 0 and one in entry 1 are numbered 0, 1 and 1.
   */
  lemma NumbersRepeatAcrossEntries(r: map<string, string>)
    ensures var bs := AllBlocks([Batch([Record(r), Record(r)]), Batch([Record(r)])]);
            |bs| == 3 && bs[0].number == 0 && bs[1].number == 1 && bs[2].number == 1
  {
    var ms := [Batch([Record(r), Record(r)]), Batch([Record(r)])];
    assert ms[..1] == [Batch([Record(r), Record(r)])];
    assert ms[..1][..0] == [];
    var two := [Record(r), Record(r)];
    assert two[..1] == [Record(r)];
    assert [Record(r)][..0] == [];
    assert Records([Record(r)]) == [r];
    assert Records(two) == [r, r];
    assert AllBlocks(ms[..1]) == EntryBlocks(0, ms[0]);
    assert AllBlocks(ms) == AllBlocks(ms[..1]) + EntryBlocks(1, ms[1]);
    NumberedBlocksAt(0, [r, r], 0);
    NumberedBlocksAt(0, [r, r], 1);
    NumberedBlocksAt(1, [r], 0);
  }

  const OpeningHours := "8:30 AM–9:30 PM"

  const FirstAddress := "89 Đ. Tam Trinh, Mai Động, Hoàng Mai, Hà Nội 100000, Vietnam"
  const FirstMapsUrl := "https://maps.app.goo.gl/SitTbiYwUpu8jpeRA"
  const SecondAddress := "27A Nguyễn Công Trứ, Phạm Đình Hổ, Hai Bà Trưng, Hà Nội 100000, Vietnam"
  const SecondMapsUrl := "https://maps.app.goo.gl/3L7iSHpbHawsEaTx9"
  const ThirdAddress := "392 Đ. Trương Định, Tương Mai, Hoàng Mai, Hà Nội, Vietnam"
  const ThirdMapsUrl := "https://maps.app.goo.gl/torAE2bHddW6nMPq9"

  /** rag.py:51-68: the three shop locations, as dicts in insertion order. */
  function ShopInformation(): (table: seq<Dict>)
    ensures |table| == 3
    ensures forall k :: 0 <= k < |table| ==>
              |table[k]| == 3
              && table[k][0].0 == "address" && table[k][1].0 == "maps_url"
              && table[k][2] == ("opening_hours", OpeningHours)
  {
    [ Location(FirstAddress, FirstMapsUrl),
      Location(SecondAddress, SecondMapsUrl),
      Location(ThirdAddress, ThirdMapsUrl) ]
  }

  function Location(address: string, mapsUrl: string): Dict {
    [("address", address), ("maps_url", mapsUrl), ("opening_hours", OpeningHours)]
  }

  /**
   * `repr` of a Python string that holds no quote, backslash or unprintable
   * character: the text between single quotes.
   */
  function QuotedText(s: string): string {
    "'" + s + "'"
  }

  function DictEntries(d: Dict): seq<string> {
    seq(|d|, k requires 0 <= k < |d| => QuotedText(d[k].0) + ": " + QuotedText(d[k].1))
  }

  /**
   * `str` of a list of dicts of plain strings, as an f-string prints it:
   * bracketed, "[]" exactly for the empty list, and "[{" before the first dict.
   */
  function DictListText(ds: seq<Dict>): (r: string)
    ensures |r| >= 2 && r[0] == '[' && r[|r| - 1] == ']'
    ensures r == "[]" <==> ds == []
    ensures ds != [] ==> "[{" <= r
  {
    JoinStartsWithFirst(", ", DictItems(ds));
    "[" + Join(", ", DictItems(ds)) + "]"
  }

  /** Each dict printed between braces. */
  function DictItems(ds: seq<Dict>): seq<string> {
    seq(|ds|, k requires 0 <= k < |ds| => "{" + Join(", ", DictEntries(ds[k])) + "}")
  }

  /** The printed table holds every key and value of every dict, quoted, as `'key': 'value'`. */
  lemma DictListTextHoldsEntries(ds: seq<Dict>, k: nat, j: nat)
    requires k < |ds| && j < |ds[k]|
    ensures Contains(DictListText(ds), QuotedText(ds[k][j].0) + ": " + QuotedText(ds[k][j].1))
  {
    var entries := DictEntries(ds[k]);
    var e := entries[j];
    var inner := Join(", ", entries);
    var items := DictItems(ds);
    var all := Join(", ", items);
    JoinContainsPart(", ", entries, j);
    ContainsMiddle("{", inner, "}");
    ContainsTrans(items[k], inner, e);
    JoinContainsPart(", ", items, k);
    ContainsTrans(all, items[k], e);
    ContainsMiddle("[", all, "]");
    ContainsTrans(DictListText(ds), all, e);
  }
}
