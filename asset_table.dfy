/** The HTML table that GetAllAssets returns: a header row and one row per asset,
    in the order the ledger listed them. Cell texts are inserted as they are,
    without HTML escaping. */
module AssetTable {
  import opened Base

  /** One asset record as the ledger lists it. Each field is the text that a
      template literal makes of the parsed JSON value. */
  datatype Asset = Asset(id: string, color: string, size: string, owner: string, appraisedValue: string)

  const TABLE_OPEN: string := "<table>"
  const TABLE_CLOSE: string := "</table>"
  const ROW_OPEN: string := "<tr>"
  const ROW_CLOSE: string := "</tr>"
  const CELL_OPEN: string := "<td>"
  const CELL_CLOSE: string := "</td>"
  const HEADER: string :=
    "<tr><th>Asset ID</th><th>Color</th><th>Size</th><th>Owner</th><th>Appraised Value</th></tr>"

  function Cell(text: string): string {
    CELL_OPEN + text + CELL_CLOSE
  }

  /** The row of one asset: its cells ID, Color, Size, Owner, AppraisedValue. */
  function Row(a: Asset): string {
    ROW_OPEN + Cell(a.id) + Cell(a.color) + Cell(a.size) + Cell(a.owner) + Cell(a.appraisedValue) + ROW_CLOSE
  }

  /** The concatenation of the renderings of `xs`, in order: that of all but the
      last element, then the last one's. */
  function Concat<T>(xs: seq<T>, render: T -> string): string {
    if xs == [] then "" else Concat(xs[..|xs| - 1], render) + render(xs[|xs| - 1])
  }

  /** The rows of a list of assets, in list order. */
  function Rows(assets: seq<Asset>): string {
    Concat(assets, Row)
  }

  /** The whole table for a list of assets. */
  function Table(assets: seq<Asset>): string {
    TABLE_OPEN + HEADER + Rows(assets) + TABLE_CLOSE
  }

  /** Read from the front, the concatenation is the first element's rendering
      followed by the rest's. */
  lemma {:induction false} ConcatCons<T>(x: T, xs: seq<T>, render: T -> string)
    ensures Concat([x] + xs, render) == render(x) + Concat(xs, render)
    decreases |xs|
  {
    var whole := [x] + xs;
    if xs == [] {
      assert whole[..0] == [];
    } else {
      var n := |xs| - 1;
      assert whole[..n + 1] == [x] + xs[..n];
      ConcatCons(x, xs[..n], render);
    }
  }

  /** The same, for a concatenation followed by more text. */
  lemma ConcatFirst<T>(xs: seq<T>, render: T -> string, rest: string)
    requires xs != []
    ensures Concat(xs, render) + rest == render(xs[0]) + (Concat(xs[1..], render) + rest)
  {
    ConcatCons(xs[0], xs[1..], render);
    assert [xs[0]] + xs[1..] == xs;
  }

  lemma AppendRow(t: string, a: Asset)
    ensures t + ROW_OPEN + Cell(a.id) + Cell(a.color) + Cell(a.size) + Cell(a.owner) + Cell(a.appraisedValue) + ROW_CLOSE
            == t + Row(a)
  {
  }

  /** The callback given to `forEach`: appends the row tag, each of the asset's
      five cells (one template literal each) and the closing row tag. */
  method AppendAssetRow(tableHTML: string, asset: Asset) returns (extended: string)
    ensures extended == tableHTML + Row(asset)
  {
    extended := tableHTML + ROW_OPEN;
    extended := extended + Cell(asset.id);
    extended := extended + Cell(asset.color);
    extended := extended + Cell(asset.size);
    extended := extended + Cell(asset.owner);
    extended := extended + Cell(asset.appraisedValue);
    extended := extended + ROW_CLOSE;
    AppendRow(tableHTML, asset);
  }

  /** The `forEach` loop over the parsed assets, in their order. */
  method AppendAssetRows(start: string, assetsData: seq<Asset>) returns (tableHTML: string)
    ensures tableHTML == start + Rows(assetsData)
  {
    tableHTML := start;
    for i := 0 to |assetsData|
      invariant tableHTML == start + Rows(assetsData[..i])
    {
      tableHTML := AppendAssetRow(tableHTML, assetsData[i]);
      assert assetsData[..i + 1][..i] == assetsData[..i];
    }
    assert assetsData[..|assetsData|] == assetsData;
  }

  /** The whole GetAllAssets rendering: the opening tag and the header, the rows
      in input order, the closing tag. */
  method BuildTable(assetsData: seq<Asset>) returns (tableHTML: string)
    ensures tableHTML == Table(assetsData)
  {
    tableHTML := TABLE_OPEN;
    tableHTML := tableHTML + HEADER;
    tableHTML := AppendAssetRows(tableHTML, assetsData);
    tableHTML := tableHTML + TABLE_CLOSE;
  }

  // ---------------------------------------------------------------------------
  // Reading a table back. The renderer escapes nothing, so a cell can be read
  // back only if its text contains no '<'.

  predicate PlainText(s: string) {
    forall i :: 0 <= i < |s| ==> s[i] != '<'
  }

  predicate PlainAsset(a: Asset) {
    PlainText(a.id) && PlainText(a.color) && PlainText(a.size) && PlainText(a.owner) && PlainText(a.appraisedValue)
  }

  /** The rest of `s` after the prefix `p`, if `s` starts with `p`. */
  function Expect(s: string, p: string): (rest: Option<string>)
    ensures rest.Some? ==> |rest.value| == |s| - |p|
  {
    if |p| <= |s| && s[..|p|] == p then Some(s[|p|..]) else None
  }

  /** The length of the longest prefix of `s` without '<'. */
  function TextLength(s: string): (n: nat)
    ensures n <= |s|
  {
    if s == [] || s[0] == '<' then 0 else 1 + TextLength(s[1..])
  }

  /** Reads one cell: its text and what follows it. */
  function ParseCell(s: string): (r: Option<(string, string)>)
    ensures r.Some? ==> |r.value.1| < |s|
  {
    match Expect(s, CELL_OPEN)
    case None => None
    case Some(body) =>
      var n := TextLength(body);
      match Expect(body[n..], CELL_CLOSE)
      case None => None
      case Some(rest) => Some((body[..n], rest))
  }

  /** Reads one row of five cells. */
  function ParseRow(s: string): (r: Option<(Asset, string)>)
    ensures r.Some? ==> |r.value.1| < |s|
  {
    match Expect(s, ROW_OPEN)
    case None => None
    case Some(s0) =>
      match ParseCell(s0)
      case None => None
      case Some((id, s1)) =>
        match ParseCell(s1)
        case None => None
        case Some((color, s2)) =>
          match ParseCell(s2)
          case None => None
          case Some((size, s3)) =>
            match ParseCell(s3)
            case None => None
            case Some((owner, s4)) =>
              match ParseCell(s4)
              case None => None
              case Some((value, s5)) =>
                match Expect(s5, ROW_CLOSE)
                case None => None
                case Some(rest) => Some((Asset(id, color, size, owner, value), rest))
  }

  /** Reads rows for as long as one can be read; returns them and what follows. */
  function ParseRows(s: string): (r: (seq<Asset>, string))
    decreases |s|
  {
    match ParseRow(s)
    case None => ([], s)
    case Some((a, rest)) =>
      var (more, tail) := ParseRows(rest);
      ([a] + more, tail)
  }

  /** Reads a whole table: the opening tag, the header, the rows, the closing tag. */
  function ParseTable(html: string): Option<seq<Asset>> {
    match Expect(html, TABLE_OPEN + HEADER)
    case None => None
    case Some(body) =>
      var (assets, rest) := ParseRows(body);
      if rest == TABLE_CLOSE then Some(assets) else None
  }

  lemma ExpectPrefix(p: string, rest: string)
    ensures Expect(p + rest, p) == Some(rest)
  {
  }

  lemma {:induction false} TextLengthPlain(t: string, rest: string)
    requires PlainText(t)
    requires rest != [] && rest[0] == '<'
    ensures TextLength(t + rest) == |t|
  {
    if t != [] {
      assert (t + rest)[0] == t[0];
      assert (t + rest)[1..] == t[1..] + rest;
      TextLengthPlain(t[1..], rest);
    } else {
      assert t + rest == rest;
    }
  }

  lemma CellRoundTrip(t: string, rest: string)
    requires PlainText(t)
    ensures ParseCell(Cell(t) + rest) == Some((t, rest))
  {
    var body := t + (CELL_CLOSE + rest);
    assert Cell(t) + rest == CELL_OPEN + body;
    ExpectPrefix(CELL_OPEN, body);
    TextLengthPlain(t, CELL_CLOSE + rest);
    assert body[..|t|] == t;
    assert body[|t|..] == CELL_CLOSE + rest;
    ExpectPrefix(CELL_CLOSE, rest);
  }

  lemma RowShape(a: Asset, rest: string)
    ensures Row(a) + rest
            == ROW_OPEN + (Cell(a.id) + (Cell(a.color) + (Cell(a.size) + (Cell(a.owner) + (Cell(a.appraisedValue) + (ROW_CLOSE + rest))))))
  {
  }

  lemma RowRoundTrip(a: Asset, rest: string)
    requires PlainAsset(a)
    ensures ParseRow(Row(a) + rest) == Some((a, rest))
  {
    var s5 := ROW_CLOSE + rest;
    var s4 := Cell(a.appraisedValue) + s5;
    var s3 := Cell(a.owner) + s4;
    var s2 := Cell(a.size) + s3;
    var s1 := Cell(a.color) + s2;
    var s0 := Cell(a.id) + s1;
    RowShape(a, rest);
    ExpectPrefix(ROW_OPEN, s0);
    CellRoundTrip(a.id, s1);
    CellRoundTrip(a.color, s2);
    CellRoundTrip(a.size, s3);
    CellRoundTrip(a.owner, s4);
    CellRoundTrip(a.appraisedValue, s5);
    ExpectPrefix(ROW_CLOSE, rest);
  }

  /** One row more: if the rows after the first read back, so do all of them. */
  lemma RowsRoundTripStep(assets: seq<Asset>, rest: string)
    requires assets != [] && PlainAsset(assets[0])
    requires ParseRows(Rows(assets[1..]) + rest) == (assets[1..], rest)
    ensures ParseRows(Rows(assets) + rest) == (assets, rest)
  {
    var first, others := assets[0], assets[1..];
    var tail := Rows(others) + rest;
    ConcatFirst(assets, Row, rest);
    assert Rows(assets) + rest == Row(first) + tail;
    RowRoundTrip(first, tail);
    assert [first] + others == assets;
  }

  lemma {:induction false} RowsRoundTrip(assets: seq<Asset>, rest: string)
    requires forall i :: 0 <= i < |assets| ==> PlainAsset(assets[i])
    requires ParseRow(rest) == None
    ensures ParseRows(Rows(assets) + rest) == (assets, rest)
    decreases |assets|
  {
    if assets == [] {
      assert Rows(assets) + rest == rest;
    } else {
      RowsRoundTrip(assets[1..], rest);
      RowsRoundTripStep(assets, rest);
    }
  }

  /** Reading back a rendered table yields the assets, all of them and in order,
      provided that no cell text contains '<'. */
  lemma TableRoundTrip(assets: seq<Asset>)
    requires forall i :: 0 <= i < |assets| ==> PlainAsset(assets[i])
    ensures ParseTable(Table(assets)) == Some(assets)
  {
    assert Table(assets) == (TABLE_OPEN + HEADER) + (Rows(assets) + TABLE_CLOSE);
    ExpectPrefix(TABLE_OPEN + HEADER, Rows(assets) + TABLE_CLOSE);
    assert TABLE_CLOSE[..|ROW_OPEN|] != ROW_OPEN by {
      assert TABLE_CLOSE[1] != ROW_OPEN[1];
    }
    RowsRoundTrip(assets, TABLE_CLOSE);
  }

  /** An empty list yields the opening tag, the header and the closing tag only. */
  lemma EmptyTable()
    ensures Table([]) == TABLE_OPEN + HEADER + TABLE_CLOSE
    ensures ParseTable(Table([])) == Some([])
  {
  }

  /** Without escaping, two different lists of assets can give the same table: a
      '</td><td>' inside one cell text reads as a cell boundary. */
  lemma UnescapedCellsCollide()
    ensures var first := Asset("x</td><td>y", "c", "s", "o", "v");
            var second := Asset("x", "y", "c", "s", "o</td><td>v");
            first != second && Table([first]) == Table([second])
  {
    var first := Asset("x</td><td>y", "c", "s", "o", "v");
    var second := Asset("x", "y", "c", "s", "o</td><td>v");
    assert first.id != second.id by {
      assert |first.id| != |second.id|;
    }
    assert Cell(first.id) == Cell("x") + Cell("y") by {
      assert first.id == "x" + CELL_CLOSE + CELL_OPEN + "y";
    }
    assert Cell(second.appraisedValue) == Cell("o") + Cell("v") by {
      assert second.appraisedValue == "o" + CELL_CLOSE + CELL_OPEN + "v";
    }
    assert Row(first) == Row(second);
    assert [first] + [] == [first] && [second] + [] == [second];
    ConcatCons(first, [], Row);
    ConcatCons(second, [], Row);
  }
}
