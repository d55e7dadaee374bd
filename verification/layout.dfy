/**
 * The fixed-width text layout of an invoice, written by `guardar_factura`
 * (utils/archivo.py) and by `escribir_factura` (pages/listar_facturas.py).
 * The two differ only in the name column: the first cuts names longer than
 * 19 characters to their first 19, the second writes them whole.
 */
module Layout {
  import opened Text
  import opened Numerals

  /** One product handed to the renderer: name, price, quantity and line total; amounts in cents. */
  datatype Product = Product(name: string, price: int, qty: int, lineTotal: int)

  const Title := "\U{1F9FE} FACTURA ELECTR\U{D3}NICA - PERU DELIVERY"
  const Rule := Repeat('=', 50)
  const Dashes := Repeat('-', 50)
  const Header := PadRight("Producto", 20) + PadLeft("Precio", 10) + PadLeft("Cant.", 8) + PadLeft("Total", 10)

  /** The captions of the three summary lines. */
  const SubtotalLabel := "Subtotal"
  const IgvLabel := "IGV (18%)"
  const TotalLabel := "TOTAL"

  /** The name as written in the first column: `prod[:19] if len(prod) > 19 else prod` when truncating. */
  function NameCell(name: string, truncate: bool): (r: string)
    ensures |r| <= |name| && r == name[..|r|]
    ensures truncate ==> |r| <= 19
    ensures truncate && |name| > 19 ==> |r| == 19
    ensures !truncate || |name| <= 19 ==> r == name
  {
    if truncate && |name| > 19 then name[..19] else name
  }

  /** The price, quantity and line-total columns: `{precio:>10.2f}{cantidad:>8}{total_item:>10.2f}`. */
  function NumberColumns(p: Product): string
  {
    PadLeft(FormatCents(p.price), 10) + (PadLeft(IntToString(p.qty), 8) + PadLeft(FormatCents(p.lineTotal), 10))
  }

  /** `f"{nombre:<20}{precio:>10.2f}{cantidad:>8}{total_item:>10.2f}"` */
  function ItemRow(p: Product, truncate: bool): string
  {
    PadRight(NameCell(p.name, truncate), 20) + NumberColumns(p)
  }

  /** `f"{caption:<30} S/. {amount:.2f}"` */
  function SummaryLine(caption: string, amount: int): string
  {
    PadRight(caption, 30) + " S/. " + FormatCents(amount)
  }

  /** One row per product, in input order. */
  function ItemRows(ps: seq<Product>, truncate: bool): (rows: seq<string>)
    ensures |rows| == |ps|
  {
    if ps == [] then [] else ItemRows(ps[..|ps| - 1], truncate) + [ItemRow(ps[|ps| - 1], truncate)]
  }

  /** Row i is the row of product i. */
  lemma {:induction false} ItemRowsAt(ps: seq<Product>, truncate: bool, i: nat)
    requires i < |ps|
    ensures ItemRows(ps, truncate)[i] == ItemRow(ps[i], truncate)
    decreases |ps|
  {
    if i < |ps| - 1 {
      ItemRowsAt(ps[..|ps| - 1], truncate, i);
    }
  }

  /** The four lines above the items. */
  const Head := [Title, Rule, Header, Dashes]

  /** The five lines below the items. */
  function Tail(subtotal: int, igv: int, total: int): seq<string>
  {
    [Dashes, SummaryLine(SubtotalLabel, subtotal), SummaryLine(IgvLabel, igv), SummaryLine(TotalLabel, total), Rule]
  }

  /** The lines of the document, in the order they are written. */
  function DocumentLines(ps: seq<Product>, subtotal: int, igv: int, total: int, truncate: bool): seq<string>
  {
    Head + (ItemRows(ps, truncate) + Tail(subtotal, igv, total))
  }

  /** The document has the four head lines, one line per product, then the five tail lines. */
  lemma {:induction false} DocumentShape(ps: seq<Product>, subtotal: int, igv: int, total: int, truncate: bool)
    ensures |DocumentLines(ps, subtotal, igv, total, truncate)| == 9 + |ps|
    ensures DocumentLines(ps, subtotal, igv, total, truncate)[..4] == Head
    ensures DocumentLines(ps, subtotal, igv, total, truncate)[4..4 + |ps|] == ItemRows(ps, truncate)
    ensures DocumentLines(ps, subtotal, igv, total, truncate)[4 + |ps|..] == Tail(subtotal, igv, total)
  {
    ThreeParts(Head, ItemRows(ps, truncate), Tail(subtotal, igv, total));
  }

  lemma {:induction false} ThreeParts(h: seq<string>, items: seq<string>, t: seq<string>)
    ensures (h + (items + t))[..|h|] == h
    ensures (h + (items + t))[|h|..|h| + |items|] == items
    ensures (h + (items + t))[|h| + |items|..] == t
  {
    var ls := h + (items + t);
    assert ls[|h|..] == items + t;
    assert ls[|h|..][..|items|] == items;
    assert ls[|h|..][|items|..] == t;
  }

  /** The whole file: every line followed by a newline. */
  function Render(ps: seq<Product>, subtotal: int, igv: int, total: int, truncate: bool): string
  {
    Lines(DocumentLines(ps, subtotal, igv, total, truncate))
  }

  /**
   * The writes of `guardar_factura` (truncate) and of `escribir_factura`
   * (no truncation), one line at a time: the file ends up holding the
   * rendered document.
   */
  method WriteInvoice(ps: seq<Product>, subtotal: int, igv: int, total: int, truncate: bool)
    returns (text: string)
    ensures text == Render(ps, subtotal, igv, total, truncate)
  {
    ghost var written: seq<string> := [];
    text := "";
    text, written := Write(text, written, Title);
    text, written := Write(text, written, Rule);
    text, written := Write(text, written, Header);
    text, written := Write(text, written, Dashes);
    HeadWritten(Title, Rule, Header, Dashes);
    assert ItemRows(ps[..0], truncate) == [];
    for i := 0 to |ps|
      invariant written == Head + ItemRows(ps[..i], truncate)
      invariant text == Lines(written)
    {
      WrittenRow(ps, i, truncate);
      text, written := Write(text, written, ItemRow(ps[i], truncate));
    }
    assert ps[..|ps|] == ps;
    text, written := WriteSummary(text, written, subtotal, igv, total);
    AppendAssoc(Head, ItemRows(ps, truncate), Tail(subtotal, igv, total));
  }

  /** The five writes after the items: the dashes, the three summary lines and the closing rule. */
  method WriteSummary(text: string, ghost written: seq<string>, subtotal: int, igv: int, total: int)
    returns (text': string, ghost written': seq<string>)
    requires text == Lines(written)
    ensures written' == written + Tail(subtotal, igv, total) && text' == Lines(written')
  {
    text', written' := Write(text, written, Dashes);
    text', written' := Write(text', written', SummaryLine(SubtotalLabel, subtotal));
    text', written' := Write(text', written', SummaryLine(IgvLabel, igv));
    text', written' := Write(text', written', SummaryLine(TotalLabel, total));
    text', written' := Write(text', written', Rule);
    FiveMore(written, Tail(subtotal, igv, total));
  }

  /** `f.write(line + "\n")`: the text written so far is the lines written so far. */
  method Write(text: string, ghost written: seq<string>, line: string) returns (text': string, ghost written': seq<string>)
    requires text == Lines(written)
    ensures written' == written + [line]
    ensures text' == text + line + "\n" && text' == Lines(written')
  {
    WriteLine(written, line);
    text' := text + line + "\n";
    written' := written + [line];
  }

  /*
   * The three sequence identities below are stated over plain variables on
   * purpose: asserted inline over the rendered lines they are far costlier
   * for the solver.
   */
  lemma {:induction false} HeadWritten(a: string, b: string, c: string, d: string)
    ensures [] + [a] + [b] + [c] + [d] == [a, b, c, d] + []
  {
  }

  lemma {:induction false} FiveMore(w: seq<string>, t: seq<string>)
    requires |t| == 5
    ensures w + [t[0]] + [t[1]] + [t[2]] + [t[3]] + [t[4]] == w + t
  {
    assert t == [t[0]] + [t[1]] + [t[2]] + [t[3]] + [t[4]];
  }

  lemma {:induction false} AppendAssoc(a: seq<string>, b: seq<string>, c: seq<string>)
    ensures a + (b + c) == (a + b) + c
  {
  }

  lemma {:induction false} WrittenRow(ps: seq<Product>, i: nat, truncate: bool)
    requires i < |ps|
    ensures Head + ItemRows(ps[..i + 1], truncate) == (Head + ItemRows(ps[..i], truncate)) + [ItemRow(ps[i], truncate)]
  {
    ItemRowsSnoc(ps, i, truncate);
    AppendAssoc(Head, ItemRows(ps[..i], truncate), [ItemRow(ps[i], truncate)]);
  }

  lemma {:induction false} ItemRowsSnoc(ps: seq<Product>, i: nat, truncate: bool)
    requires i < |ps|
    ensures ItemRows(ps[..i + 1], truncate) == ItemRows(ps[..i], truncate) + [ItemRow(ps[i], truncate)]
  {
    assert ps[..i + 1][..i] == ps[..i];
  }

  /** Writing one more line appends it and its newline. */
  lemma {:induction false} WriteLine(written: seq<string>, line: string)
    ensures Lines(written + [line]) == Lines(written) + line + "\n"
  {
    LinesAppend(written, [line]);
    assert [line][1..] == [];
  }

  /** The name cell takes the first 20 columns of a row when it fits. */
  lemma {:induction false} ItemRowSplit(p: Product, truncate: bool)
    requires |NameCell(p.name, truncate)| <= 20
    ensures |ItemRow(p, truncate)| >= 20
    ensures ItemRow(p, truncate)[..20] == PadRight(NameCell(p.name, truncate), 20)
    ensures ItemRow(p, truncate)[20..] == NumberColumns(p)
  {
    var cell := PadRight(NameCell(p.name, truncate), 20);
    assert |cell| == 20;
    assert (cell + NumberColumns(p))[..20] == cell;
    assert (cell + NumberColumns(p))[20..] == NumberColumns(p);
  }

  /** When names are cut to 19 characters, column 20 of every item row holds a space. */
  lemma {:induction false} TruncatedRowColumn20(p: Product)
    ensures |ItemRow(p, true)| >= 20 && ItemRow(p, true)[19] == ' '
  {
    ItemRowSplit(p, true);
    var cell := PadRight(NameCell(p.name, true), 20);
    assert ItemRow(p, true)[19] == ItemRow(p, true)[..20][19];
  }

  /** Without truncation a name of 20 characters or more fills column 20 and runs past it. */
  lemma {:induction false} UntruncatedRowKeepsName(p: Product)
    ensures |p.name| <= |ItemRow(p, false)|
    ensures ItemRow(p, false)[..|p.name|] == p.name
  {
    var cell := PadRight(p.name, 20);
    var row := cell + NumberColumns(p);
    assert row[..|p.name|] == cell[..|p.name|];
  }

  /** The two writers produce the same file when no name is longer than 19 characters. */
  lemma {:induction false} SameLayoutForShortNames(ps: seq<Product>, subtotal: int, igv: int, total: int)
    requires forall i :: 0 <= i < |ps| ==> |ps[i].name| <= 19
    ensures Render(ps, subtotal, igv, total, false) == Render(ps, subtotal, igv, total, true)
  {
    SameRows(ps);
  }

  lemma {:induction false} SameRows(ps: seq<Product>)
    requires forall i :: 0 <= i < |ps| ==> |ps[i].name| <= 19
    ensures ItemRows(ps, false) == ItemRows(ps, true)
    decreases |ps|
  {
    if ps != [] {
      SameRows(ps[..|ps| - 1]);
    }
  }
}
