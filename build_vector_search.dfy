/**
 * The pure helpers and the list arithmetic of the script that builds the
 * product index: collection-name and metadata sanitising, the product text
 * `join_string` assembles from a CSV row, the filter and cap applied to the
 * rows, the per-row metadata, and the batches the rows are inserted in.
 */
module BuildVectorSearch {
  import opened Wrappers
  import opened Text

  // ---------------------------------------------------------------------
  // sanitize_collection_name
  // ---------------------------------------------------------------------

  /** The characters the pattern `[^a-zA-Z0-9_]` does not match. */
  predicate IsNameChar(c: char) {
    'a' <= c <= 'z' || 'A' <= c <= 'Z' || '0' <= c <= '9' || c == '_'
  }

  /** The characters a sanitised collection name is made of. */
  predicate IsCollectionChar(c: char) {
    'a' <= c <= 'z' || '0' <= c <= '9' || c == '_'
  }

  /** A name that sanitising leaves as it is. */
  predicate IsCleanName(name: string) {
    && (forall i :: 0 <= i < |name| ==> IsCollectionChar(name[i]))
    && (name != [] ==> name[0] != '_' && name[|name| - 1] != '_')
  }

  /** `re.sub(r'[^a-zA-Z0-9_]', '_', name)`. */
  function ReplaceInvalid(name: string): string {
    seq(|name|, i requires 0 <= i < |name| => if IsNameChar(name[i]) then name[i] else '_')
  }

  /** `sanitize_collection_name`: replace, strip `_`, then lower-case. */
  function SanitizeCollectionName(name: string): string {
    Lower(StripBy(ReplaceInvalid(name), {'_'}))
  }

  /**
   * A sanitised name holds only `[a-z0-9_]` and neither starts nor ends
   * with `_`.
   */
  lemma SanitizedIsClean(name: string)
    ensures IsCleanName(SanitizeCollectionName(name))
  {
    var t := ReplaceInvalid(name);
    var u := StripBy(t, {'_'});
    var a := LeadLen(t, {'_'});
    StripBySpec(t, {'_'});
    forall i | 0 <= i < |u| ensures IsNameChar(u[i]) {
      assert u[i] == t[a + i];
    }
  }

  /** Sanitising leaves a clean name unchanged, and changes every other name. */
  lemma SanitizeFixesExactlyClean(name: string)
    ensures SanitizeCollectionName(name) == name <==> IsCleanName(name)
  {
    SanitizedIsClean(name);
    if IsCleanName(name) {
      assert ReplaceInvalid(name) == name;
      assert StripBy(name, {'_'}) == name;
      assert Lower(name) == name;
    }
  }

  /** Sanitising twice is sanitising once. */
  lemma SanitizeIdempotent(name: string)
    ensures SanitizeCollectionName(SanitizeCollectionName(name)) == SanitizeCollectionName(name)
  {
    SanitizedIsClean(name);
    SanitizeFixesExactlyClean(SanitizeCollectionName(name));
  }

  /** The collection the script creates keeps the name "products". */
  lemma ProductsNameKept()
    ensures SanitizeCollectionName("products") == "products"
  {
    SanitizeFixesExactlyClean("products");
  }

  // ---------------------------------------------------------------------
  // sanitize_metadata
  // ---------------------------------------------------------------------

  /**
   * `sanitize_metadata`: every key but "embedding" is kept; Python's `None`
   * becomes "" and any other value its `str()` text (`Some` carries that
   * text).
   */
  function SanitizeMetadata(record: map<string, Option<string>>): (r: map<string, string>)
    ensures r.Keys == record.Keys - {"embedding"}
    ensures forall k :: k in r ==> r[k] == (if record[k].Some? then record[k].value else "")
  {
    map k | k in record && k != "embedding" :: if record[k].Some? then record[k].value else ""
  }

  /** A sanitised record, read back as metadata with no `None` in it. */
  function AsRecord(m: map<string, string>): map<string, Option<string>> {
    map k | k in m :: Some(m[k])
  }

  /**
   * "embedding" is dropped and every other key kept; a value becomes ""
   * exactly when it was `None` or already "".
   */
  lemma SanitizeMetadataValues(record: map<string, Option<string>>)
    ensures "embedding" !in SanitizeMetadata(record)
    ensures forall k :: k in record && k != "embedding" ==> k in SanitizeMetadata(record)
    ensures forall k :: k in SanitizeMetadata(record) ==>
              (SanitizeMetadata(record)[k] == "" <==> record[k] == None || record[k] == Some(""))
  {
  }

  /** Sanitising an already sanitised record changes nothing. */
  lemma SanitizeMetadataIdempotent(record: map<string, Option<string>>)
    ensures SanitizeMetadata(AsRecord(SanitizeMetadata(record))) == SanitizeMetadata(record)
  {
  }

  // ---------------------------------------------------------------------
  // join_string
  // ---------------------------------------------------------------------

  /**
   * A CSV row's five fields, each as the text `row.get(key, '') or ''`
   * yields for it; "" stands for every value Python treats as false.
   */
  datatype Row = Row(title: string, promotion: string, specs: string, price: string, colors: string)

  const PricePrefix: string := " có giá: "
  const ColorPrefix: string := " có màu sắc: "

  /** `.replace("<br>", " ").replace("\n", " ")`. */
  function CleanMarkup(s: string): string {
    ReplaceAll(ReplaceAll(s, "<br>", " "), "\n", " ")
  }

  /** Cleaned text holds neither a line break nor a "<br>" tag. */
  lemma CleanMarkupRemovesBreaks(s: string)
    ensures !Contains(CleanMarkup(s), "<br>")
    ensures '\n' !in CleanMarkup(s)
  {
    var once := ReplaceAll(s, "<br>", " ");
    ReplaceLeavesNoPattern(s, "<br>", " ");
    ReplaceCharKeepsAbsent(once, '\n', ' ', "<br>");
    ReplaceCharRemoves(once, '\n', " ");
  }

  /** The segment a field contributes: nothing when the field is empty. */
  function Segment(prefix: string, field: string, text: string): string {
    if field == "" then "" else prefix + text
  }

  /** The title, promotion, specs and price segments, in that order. */
  function LeadingSegments(title: string, promotion: string, specs: string, price: string): string {
    Segment("", title, title)
    + Segment(" ", promotion, CleanMarkup(promotion))
    + Segment(" ", specs, CleanMarkup(specs))
    + Segment(PricePrefix, price, price)
  }

  /**
   * The colours text: a value starting with '[' that parses as a list of
   * strings is joined with ", "; any other value, and one whose parse
   * raises, is appended as it is. `parse` stands for `ast.literal_eval`
   * followed by the join's check that every element is a string.
   */
  function ColorText(colors: string, parse: string -> Option<seq<string>>): string {
    if |colors| > 0 && colors[0] == '[' && parse(colors).Some? then Join(", ", parse(colors).value)
    else colors
  }

  /** The searchable text `join_string` builds for a row. */
  function ProductText(row: Row, parse: string -> Option<seq<string>>): string {
    LeadingSegments(row.title, row.promotion, row.specs, row.price)
    + Segment(ColorPrefix, row.colors, ColorText(row.colors, parse))
  }

  /** `join_string`: the text grows by one segment per non-empty field. */
  method JoinString(row: Row, parse: string -> Option<seq<string>>) returns (finalString: string)
    ensures finalString == ProductText(row, parse)
  {
    finalString := "";
    if row.title != "" {
      finalString := finalString + row.title;
    }
    ghost var lead := Segment("", row.title, row.title);
    assert finalString == lead;
    if row.promotion != "" {
      finalString := finalString + (" " + CleanMarkup(row.promotion));
    }
    lead := lead + Segment(" ", row.promotion, CleanMarkup(row.promotion));
    assert finalString == lead;
    if row.specs != "" {
      finalString := finalString + (" " + CleanMarkup(row.specs));
    }
    lead := lead + Segment(" ", row.specs, CleanMarkup(row.specs));
    assert finalString == lead;
    if row.price != "" {
      finalString := finalString + (PricePrefix + row.price);
    }
    lead := lead + Segment(PricePrefix, row.price, row.price);
    assert finalString == lead;
    assert lead == LeadingSegments(row.title, row.promotion, row.specs, row.price);
    if row.colors != "" {
      var colors: string;
      if |row.colors| > 0 && row.colors[0] == '[' && parse(row.colors).Some? {
        colors := Join(", ", parse(row.colors).value);
      } else {
        colors := row.colors;
      }
      assert colors == ColorText(row.colors, parse);
      finalString := finalString + (ColorPrefix + colors);
    }
    assert finalString == lead + Segment(ColorPrefix, row.colors, ColorText(row.colors, parse));
  }

  /** `s` ends with `t`. */
  predicate EndsWith(s: string, t: string) {
    |t| <= |s| && s[|s| - |t|..] == t
  }

  /**
   * The segments come in a fixed order: the text starts with the title, ends
   * with the colours segment when there are colours, and otherwise with the
   * price segment when there is a price.
   */
  lemma ProductTextOrder(row: Row, parse: string -> Option<seq<string>>)
    ensures row.title <= ProductText(row, parse)
    ensures row.colors != "" ==> EndsWith(ProductText(row, parse), ColorPrefix + ColorText(row.colors, parse))
    ensures row.colors == "" && row.price != "" ==> EndsWith(ProductText(row, parse), PricePrefix + row.price)
  {
    var t := ProductText(row, parse);
    var title := Segment("", row.title, row.title);
    var middle := Segment(" ", row.promotion, CleanMarkup(row.promotion))
                  + Segment(" ", row.specs, CleanMarkup(row.specs));
    var price := Segment(PricePrefix, row.price, row.price);
    var colors := Segment(ColorPrefix, row.colors, ColorText(row.colors, parse));
    assert t == title + middle + price + colors;
    Concat4(title, middle, price, colors, t);
  }

  /** The first of four concatenated texts is a prefix, the last two are suffixes. */
  lemma Concat4(a: string, b: string, c: string, d: string, t: string)
    requires t == a + b + c + d
    ensures a <= t
    ensures EndsWith(t, d)
    ensures d == "" ==> EndsWith(t, c)
  {
    assert t == a + (b + c + d);
    assert t == (a + b + c) + d;
    if d == "" {
      assert t == (a + b) + c;
    }
  }

  /** The text is empty exactly when every field is. */
  lemma ProductTextEmptyIff(row: Row, parse: string -> Option<seq<string>>)
    ensures ProductText(row, parse) == "" <==>
            row.title == "" && row.promotion == "" && row.specs == "" && row.price == "" && row.colors == ""
  {
    if row.title != "" {
      assert |ProductText(row, parse)| >= |row.title|;
    }
  }

  // ---------------------------------------------------------------------
  // main: filter, cap, metadata and batches
  // ---------------------------------------------------------------------

  /** A row with the text computed for its `information` column. */
  datatype Product = Product(row: Row, information: string)

  const MinInformationLength: nat := 10
  const RecordLimit: nat := 50
  const SpecsLimit: nat := 500
  const BatchSize: nat := 10

  predicate Informative(p: Product) {
    |p.information| > MinInformationLength
  }

  /** `df[df['information'].str.len() > 10]`, order kept. */
  function KeepInformative(ps: seq<Product>): seq<Product> {
    if ps == [] then []
    else (if Informative(ps[0]) then [ps[0]] else []) + KeepInformative(ps[1..])
  }

  function Min(a: int, b: int): int {
    if a < b then a else b
  }

  /** The rows the script indexes: the informative rows, capped by `head(50)`. */
  function SelectRecords(ps: seq<Product>): seq<Product> {
    var kept := KeepInformative(ps);
    kept[..Min(RecordLimit, |kept|)]
  }

  /**
   * The filter keeps exactly the informative rows. This states membership
   * only; that the kept rows stay in input order is what `SelectRecordsSpec`
   * states, as a prefix of `KeepInformative`, which is defined in order.
   */
  lemma {:induction false} KeepInformativeExact(ps: seq<Product>)
    ensures forall p :: p in KeepInformative(ps) <==> p in ps && Informative(p)
    decreases |ps|
  {
    if ps != [] {
      KeepInformativeExact(ps[1..]);
      assert ps == [ps[0]] + ps[1..];
    }
  }

  /**
   * The selection is the first at most 50 informative rows, in their
   * original order.
   */
  lemma SelectRecordsSpec(ps: seq<Product>)
    ensures |SelectRecords(ps)| == Min(RecordLimit, |KeepInformative(ps)|)
    ensures SelectRecords(ps) <= KeepInformative(ps)
    ensures forall p :: p in SelectRecords(ps) ==> p in ps && Informative(p)
  {
    KeepInformativeExact(ps);
    var kept := KeepInformative(ps);
    forall p | p in SelectRecords(ps) ensures p in kept {
      var i :| 0 <= i < |SelectRecords(ps)| && SelectRecords(ps)[i] == p;
      assert kept[i] == p;
    }
  }

  /** `str(...)[:500]`. */
  function Truncate(s: string, n: nat): string {
    s[..Min(n, |s|)]
  }

  /** The metadata dict stored beside a row's embedding. */
  function RowMetadata(p: Product): map<string, string> {
    map["information" := p.information, "title" := p.row.title,
        "current_price" := p.row.price, "product_specs" := Truncate(p.row.specs, SpecsLimit)]
  }

  /** Four keys; the specs are a prefix of the row's specs, at most 500 long. */
  lemma RowMetadataShape(p: Product)
    ensures RowMetadata(p).Keys == {"information", "title", "current_price", "product_specs"}
    ensures RowMetadata(p)["information"] == p.information
    ensures |RowMetadata(p)["product_specs"]| <= SpecsLimit
    ensures RowMetadata(p)["product_specs"] <= p.row.specs
    ensures |p.row.specs| <= SpecsLimit ==> RowMetadata(p)["product_specs"] == p.row.specs
  {
  }

  /** The metadata loop: one dict appended per selected row. */
  method BuildMetadatas(ps: seq<Product>) returns (metadatas: seq<map<string, string>>)
    ensures |metadatas| == |ps|
    ensures forall i :: 0 <= i < |ps| ==> metadatas[i] == RowMetadata(ps[i])
  {
    metadatas := [];
    for i := 0 to |ps|
      invariant |metadatas| == i
      invariant forall j :: 0 <= j < i ==> metadatas[j] == RowMetadata(ps[j])
    {
      metadatas := metadatas + [RowMetadata(ps[i])];
    }
  }

  /** The concatenation of a list of batches. */
  function Flatten<T>(bs: seq<seq<T>>): seq<T> {
    if |bs| == 0 then [] else bs[0] + Flatten(bs[1..])
  }

  lemma {:induction false} FlattenSnoc<T>(bs: seq<seq<T>>, b: seq<T>)
    ensures Flatten(bs + [b]) == Flatten(bs) + b
    decreases |bs|
  {
    if |bs| != 0 {
      assert (bs + [b])[1..] == bs[1..] + [b];
      FlattenSnoc(bs[1..], b);
    } else {
      assert [b][1..] == [];
    }
  }

  /** Batch `k` of `n` items: the index range `[10k, min(10k + 10, n))`. */
  predicate IsBatching<T(==)>(items: seq<T>, batches: seq<seq<T>>) {
    && |batches| == (|items| + BatchSize - 1) / BatchSize
    && forall k :: 0 <= k < |batches| ==>
         k * BatchSize < |items|
         && batches[k] == items[k * BatchSize..Min(k * BatchSize + BatchSize, |items|)]
  }

  /**
   * The insertion loop `for i in range(0, len(df), 10)`: the slices of one
   * list it sends, one per pass (ids, embeddings and metadatas are all
   * sliced by the same ranges). The slices, in order, make up the list.
   */
  method Batches<T(==)>(items: seq<T>) returns (batches: seq<seq<T>>)
    ensures IsBatching(items, batches)
    ensures Flatten(batches) == items
  {
    batches := [];
    var i := 0;
    while i < |items|
      invariant i == |batches| * BatchSize
      invariant i <= |items| || i - BatchSize < |items|
      invariant forall k :: 0 <= k < |batches| ==>
                  k * BatchSize < |items|
                  && batches[k] == items[k * BatchSize..Min(k * BatchSize + BatchSize, |items|)]
      invariant Flatten(batches) == items[..Min(i, |items|)]
      decreases |items| - i
    {
      var end := Min(i + BatchSize, |items|);
      FlattenSnoc(batches, items[i..end]);
      assert items[..Min(i, |items|)] + items[i..end] == items[..end];
      batches := batches + [items[i..end]];
      i := i + BatchSize;
    }
    assert items[..Min(i, |items|)] == items;
  }

  /** Each index falls in exactly one batch: batch `i / 10`. */
  lemma BatchOfIndex(n: nat, i: nat, k: nat)
    requires i < n && k < (n + BatchSize - 1) / BatchSize
    ensures k * BatchSize <= i < Min(k * BatchSize + BatchSize, n) <==> k == i / BatchSize
  {
  }
}
