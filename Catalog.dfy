/** The product catalog master: the "Division" clean-up applied when it is
    loaded, and the expansion of its pipe-separated sku_list into one row
    per SKU. */
module Catalog {
  import opened Text
  import opened Tables

  /** `replace({"Division": "D200"})` on one cell: only the exact value changes. */
  function RewriteDivisionCell(c: Cell): Cell {
    if c == Text("Division") then Text("D200") else c
  }

  /** load_product_catalog's clean-up of one entry. */
  function RewriteDivision(e: CatalogEntry): CatalogEntry {
    e.(buCode := RewriteDivisionCell(e.buCode), buName := RewriteDivisionCell(e.buName))
  }

  /** load_product_catalog, after the spreadsheet has been read. */
  function LoadCatalog(rows: seq<CatalogEntry>): (r: seq<CatalogEntry>)
    ensures |r| == |rows|
    ensures forall i :: 0 <= i < |r| ==> r[i] == RewriteDivision(rows[i])
  {
    seq(|rows|, i requires 0 <= i < |rows| => RewriteDivision(rows[i]))
  }

  /** The clean-up rewrites the BU code and name "Division" to "D200", leaves
      every other value and every other column alone, and leaves no
      "Division" behind; applying it twice is the same as once. */
  lemma RewriteDivisionSpec(e: CatalogEntry)
    ensures var r := RewriteDivision(e);
      && r.buCode != Text("Division") && r.buName != Text("Division")
      && (e.buCode == Text("Division") ==> r.buCode == Text("D200"))
      && (e.buCode != Text("Division") ==> r.buCode == e.buCode)
      && (e.buName == Text("Division") ==> r.buName == Text("D200"))
      && (e.buName != Text("Division") ==> r.buName == e.buName)
      && r.groupKey == e.groupKey && r.skuList == e.skuList
      && r.productFamily == e.productFamily && r.manager == e.manager
      && r.featureMode == e.featureMode
      && RewriteDivision(r) == r
  {
  }

  /** The SKU tokens of one entry: `astype(str).str.split("|")`. */
  function SkuTokens(e: CatalogEntry): seq<string> {
    Split(CellText(e.skuList), '|')
  }

  /** One catalog row per token, trimmed, all other columns copied. */
  function ExpandEntry(e: CatalogEntry): (r: seq<CatalogEntry>)
    ensures |r| == |SkuTokens(e)|
  {
    var toks := SkuTokens(e);
    seq(|toks|, i requires 0 <= i < |toks| => e.(skuList := Text(Trim(toks[i]))))
  }

  /** `explode("sku_list")` over the whole catalog, entries kept in order. */
  function ExpandCatalog(cat: seq<CatalogEntry>): seq<CatalogEntry>
    decreases |cat|
  {
    if |cat| == 0 then [] else ExpandEntry(cat[0]) + ExpandCatalog(cat[1..])
  }

  /** An entry whose sku_list holds N separators expands to N + 1 rows,
      row i carrying the i-th token, trimmed, and every other column of the
      entry unchanged; the tokens hold no separator and, joined with "|",
      give the sku_list text back. */
  lemma ExpandEntrySpec(e: CatalogEntry)
    ensures |ExpandEntry(e)| == CountChar(CellText(e.skuList), '|') + 1
    ensures JoinWith(SkuTokens(e), '|') == CellText(e.skuList)
    ensures forall i :: 0 <= i < |ExpandEntry(e)| ==>
      && ExpandEntry(e)[i].skuList == Text(Trim(SkuTokens(e)[i]))
      && '|' !in ExpandEntry(e)[i].skuList.s
      && ExpandEntry(e)[i].(skuList := e.skuList) == e
  {
    SplitCount(CellText(e.skuList), '|');
    SplitJoin(CellText(e.skuList), '|');
    forall i | 0 <= i < |ExpandEntry(e)|
      ensures '|' !in ExpandEntry(e)[i].skuList.s
    {
      var t := SkuTokens(e)[i];
      TrimLeftShape(t);
      TrimRightShape(TrimLeft(t));
    }
  }

  /** A sku_list without a separator (an empty or a missing one included)
      expands to exactly one row. */
  lemma ExpandSingleToken(e: CatalogEntry)
    requires '|' !in CellText(e.skuList)
    ensures |ExpandEntry(e)| == 1
    ensures ExpandEntry(e)[0] == e.(skuList := Text(Trim(CellText(e.skuList))))
  {
    NoSeparatorSplit(CellText(e.skuList), '|');
  }

  lemma {:induction false} NoSeparatorSplit(s: string, sep: char)
    requires sep !in s
    ensures Split(s, sep) == [s]
    decreases |s|
  {
    if |s| > 0 {
      NoSeparatorSplit(s[1..], sep);
      assert [s[0]] + s[1..] == s;
    }
  }

  /** The expanded catalog holds exactly the rows of the entries' expansions. */
  lemma {:induction false} ExpandCatalogMembers(cat: seq<CatalogEntry>, c: CatalogEntry)
    ensures c in ExpandCatalog(cat) <==> exists e :: e in cat && c in ExpandEntry(e)
    decreases |cat|
  {
    if |cat| > 0 {
      ExpandCatalogMembers(cat[1..], c);
      assert forall e :: e in cat <==> e == cat[0] || e in cat[1..];
    }
  }
}
