/**
 * What the edit page reads back from a file written by `guardar_factura`
 * (names cut to 19 characters) or by `escribir_factura` (names kept
 * whole): every product comes back, in order, as its stripped name cell,
 * its price and its quantity, as long as the quantity and line-total
 * columns do not overflow their widths; an overflowing line total, or a
 * long name written whole, costs the row.
 */
module RoundTrip {
  import opened Wrappers
  import opened Text
  import opened Numerals
  import opened Layout
  import opened Codec

  /** The item the edit page should read back for a product. */
  function Expected(p: Product, truncate: bool): Item
  {
    Item(Strip(NameCell(p.name, truncate)), p.price, p.qty)
  }

  function ExpectedItems(ps: seq<Product>, truncate: bool): (items: seq<Item>)
    ensures |items| == |ps|
  {
    if ps == [] then [] else ExpectedItems(ps[..|ps| - 1], truncate) + [Expected(ps[|ps| - 1], truncate)]
  }

  /** Item i expected is the one of product i. */
  lemma {:induction false} ExpectedAt(ps: seq<Product>, truncate: bool, i: nat)
    requires i < |ps|
    ensures ExpectedItems(ps, truncate)[i] == Expected(ps[i], truncate)
    decreases |ps|
  {
    if i < |ps| - 1 {
      ExpectedAt(ps[..|ps| - 1], truncate, i);
    }
  }

  /**
   * A product whose row reads back: its name has no newline and does not
   * strip to nothing once cut, its quantity fits in 7 characters and its
   * line total in 9, so that a space separates every two columns.
   */
  predicate ReadsBack(p: Product)
  {
    '\n' !in p.name && Strip(NameCell(p.name, true)) != [] &&
    |IntToString(p.qty)| < 8 && |FormatCents(p.lineTotal)| < 10
  }

  /** Column 20 onwards of a row holds the three numbers as three words. */
  lemma {:induction false} NumberColumnsWords(p: Product)
    requires |IntToString(p.qty)| < 8 && |FormatCents(p.lineTotal)| < 10
    ensures Words(Strip(NumberColumns(p))) == [FormatCents(p.price), IntToString(p.qty), FormatCents(p.lineTotal)]
  {
    var a, b, c := FormatCents(p.price), IntToString(p.qty), FormatCents(p.lineTotal);
    FormatCentsChars(p.price);
    FormatCentsChars(p.lineTotal);
    IntToStringChars(p.qty);
    NumericCharsNoSpace(a);
    NumericCharsNoSpace(b);
    NumericCharsNoSpace(c);
    ThreeColumns(a, b, c);
  }

  /** Three words right-aligned to widths 10, 8 and 10, each narrower than its column but the first. */
  lemma {:induction false} ThreeColumns(a: string, b: string, c: string)
    requires a != [] && NoSpace(a) && b != [] && NoSpace(b) && c != [] && NoSpace(c)
    requires |b| < 8 && |c| < 10
    ensures Words(Strip(PadLeft(a, 10) + (PadLeft(b, 8) + PadLeft(c, 10)))) == [a, b, c]
  {
    var tail := PadLeft(b, 8) + PadLeft(c, 10);
    StripNumberColumns(a, tail, c);
    FirstWord(a, tail);
    WordsPadLeft(b, 8, PadLeft(c, 10));
    LastWord(c);
  }

  lemma {:induction false} FirstWord(a: string, tail: string)
    requires a != [] && NoSpace(a) && tail != [] && IsSpace(tail[0])
    ensures Words(a + tail) == [a] + Words(tail)
  {
    assert Repeat(' ', 0) + a + tail == a + tail;
    WordsAfterSpaces(0, a, tail);
  }

  lemma {:induction false} LastWord(c: string)
    requires c != [] && NoSpace(c)
    ensures Words(PadLeft(c, 10)) == [c]
  {
    assert PadLeft(c, 10) + [] == PadLeft(c, 10);
    WordsPadLeft(c, 10, []);
  }

  /** Stripping the number columns removes only the padding before the price. */
  lemma {:induction false} StripNumberColumns(a: string, tail: string, c: string)
    requires a != [] && NoSpace(a) && c != [] && NoSpace(c)
    requires |tail| >= |c| && tail[|tail| - |c|..] == c
    ensures Strip(PadLeft(a, 10) + tail) == a + tail
  {
    var s := PadLeft(a, 10) + tail;
    assert s[|s| - 1] == c[|c| - 1];
    assert TrimRight(s) == s;
    TrimPadLeft(a, tail);
  }

  lemma {:induction false} TrimPadLeft(a: string, tail: string)
    requires a != [] && !IsSpace(a[0])
    ensures TrimLeft(PadLeft(a, 10) + tail) == a + tail
  {
    PadLeftIsSpacesThen(a, 10);
    var k: nat :| PadLeft(a, 10) == Repeat(' ', k) + a;
    assert PadLeft(a, 10) + tail == Repeat(' ', k) + (a + tail);
    TrimLeftSpaces(k, a + tail);
    assert (a + tail)[0] == a[0];
  }

  /** A row whose pieces read as a name, a price and a quantity gives that item. */
  lemma {:induction false} RowOf(line: string, name: string, words: seq<string>, price: int, qty: int)
    requires Strip(line) != [] && Strip(Take(line, 20)) == name && name != []
    requires Words(Strip(Drop(line, 20))) == words && |words| == 3
    requires ParseDecimal(words[0]) == Some(price) && ParseInt(words[1]) == Some(qty)
    ensures ParseRow(line) == Some(Item(name, price, qty))
  {
  }

  /** Cutting a row with a name of at most 19 characters at column 20. */
  lemma {:induction false} RowCut(p: Product)
    requires Strip(NameCell(p.name, true)) != []
    ensures Take(ItemRow(p, true), 20) == PadRight(NameCell(p.name, true), 20)
    ensures Drop(ItemRow(p, true), 20) == NumberColumns(p)
    ensures Strip(ItemRow(p, true)) != []
  {
    var line := ItemRow(p, true);
    var cell := NameCell(p.name, true);
    ItemRowSplit(p, true);
    StripEmpty(cell);
    var j :| 0 <= j < |cell| && !IsSpace(cell[j]);
    assert line[j] == PadRight(cell, 20)[..|cell|][j];
    StripEmpty(line);
  }

  /** A row written with names cut to 19 characters reads back as the expected item. */
  lemma {:induction false} RowReadsBack(p: Product)
    requires Strip(NameCell(p.name, true)) != []
    requires |IntToString(p.qty)| < 8 && |FormatCents(p.lineTotal)| < 10
    ensures ParseRow(ItemRow(p, true)) == Some(Expected(p, true))
  {
    RowCut(p);
    StripPadRight(NameCell(p.name, true), 20);
    NumberColumnsWords(p);
    FormatCentsRoundTrip(p.price);
    IntRoundTrip(p.qty);
    RowOf(ItemRow(p, true), Strip(NameCell(p.name, true)),
      [FormatCents(p.price), IntToString(p.qty), FormatCents(p.lineTotal)], p.price, p.qty);
  }

  /** The rows of the products read back, in order, as the expected items. */
  lemma {:induction false} RowsReadBack(ps: seq<Product>)
    requires forall i :: 0 <= i < |ps| ==> ReadsBack(ps[i])
    ensures ParseRows(ItemRows(ps, true)) == ExpectedItems(ps, true)
    decreases |ps|
  {
    if ps != [] {
      var last := ps[|ps| - 1];
      var rows := ItemRows(ps, true);
      RowsReadBack(ps[..|ps| - 1]);
      assert rows[..|rows| - 1] == ItemRows(ps[..|ps| - 1], true);
      RowReadsBack(last);
    }
  }

  /** None of the lines holds a newline. */
  predicate NoNewlines(ls: seq<string>)
  {
    forall k :: 0 <= k < |ls| ==> '\n' !in ls[k]
  }

  lemma {:induction false} NoNewlinesAppend(a: seq<string>, b: seq<string>)
    requires NoNewlines(a) && NoNewlines(b)
    ensures NoNewlines(a + b)
  {
    assert forall k :: |a| <= k < |a + b| ==> (a + b)[k] == b[k - |a|];
  }

  /** No line of a rendered document holds a newline when no product name does. */
  lemma {:induction false} NoNewlineInDocument(ps: seq<Product>, subtotal: int, igv: int, total: int, truncate: bool)
    requires forall i :: 0 <= i < |ps| ==> '\n' !in ps[i].name
    ensures NoNewlines(DocumentLines(ps, subtotal, igv, total, truncate))
  {
    NoNewlineInHead();
    NoNewlineInRows(ps, truncate);
    NoNewlineInTail(subtotal, igv, total);
    NoNewlinesAppend(ItemRows(ps, truncate), Tail(subtotal, igv, total));
    NoNewlinesAppend(Head, ItemRows(ps, truncate) + Tail(subtotal, igv, total));
  }

  lemma {:induction false} NoNewlineInRows(ps: seq<Product>, truncate: bool)
    requires forall i :: 0 <= i < |ps| ==> '\n' !in ps[i].name
    ensures NoNewlines(ItemRows(ps, truncate))
    decreases |ps|
  {
    if ps != [] {
      NoNewlineInRows(ps[..|ps| - 1], truncate);
      NoNewlineInRow(ps[|ps| - 1], truncate);
      NoNewlinesAppend(ItemRows(ps[..|ps| - 1], truncate), [ItemRow(ps[|ps| - 1], truncate)]);
    }
  }

  lemma {:induction false} NoNewlineInHead()
    ensures NoNewlines(Head)
  {
    NoNewlineInTitle();
    NoNewlineInHeader();
    NoNewlinesFour(Title, Rule, Header, Dashes);
  }

  lemma {:induction false} NoNewlineInTail(subtotal: int, igv: int, total: int)
    ensures NoNewlines(Tail(subtotal, igv, total))
  {
    NoNewlineInSummary(SubtotalLabel, subtotal);
    NoNewlineInSummary(IgvLabel, igv);
    NoNewlineInSummary(TotalLabel, total);
    NoNewlinesFive(Dashes, SummaryLine(SubtotalLabel, subtotal), SummaryLine(IgvLabel, igv), SummaryLine(TotalLabel, total), Rule);
  }

  lemma {:induction false} NoNewlinesFour(a: string, b: string, c: string, d: string)
    requires '\n' !in a && '\n' !in b && '\n' !in c && '\n' !in d
    ensures NoNewlines([a, b, c, d])
  {
  }

  lemma {:induction false} NoNewlinesFive(a: string, b: string, c: string, d: string, e: string)
    requires '\n' !in a && '\n' !in b && '\n' !in c && '\n' !in d && '\n' !in e
    ensures NoNewlines([a, b, c, d, e])
  {
  }

  lemma {:induction false} NoNewlineInTitle()
    ensures '\n' !in Title
  {
  }

  lemma {:induction false} NoNewlineInHeader()
    ensures '\n' !in Header
  {
    PadRightLacks("Producto", 20, '\n');
    PadLeftLacks("Precio", 10, '\n');
    PadLeftLacks("Cant.", 8, '\n');
    PadLeftLacks("Total", 10, '\n');
  }

  lemma {:induction false} NoNewlineInNumber(s: string)
    requires NumericChars(s)
    ensures '\n' !in s
  {
    assert forall i :: 0 <= i < |s| ==> s[i] != '\n';
  }

  lemma {:induction false} NoNewlineInRow(p: Product, truncate: bool)
    requires '\n' !in p.name
    ensures '\n' !in ItemRow(p, truncate)
  {
    var cell := NameCell(p.name, truncate);
    assert forall i :: 0 <= i < |cell| ==> cell[i] == p.name[i];
    PadRightLacks(cell, 20, '\n');
    FormatCentsChars(p.price);
    FormatCentsChars(p.lineTotal);
    IntToStringChars(p.qty);
    NoNewlineInNumber(FormatCents(p.price));
    NoNewlineInNumber(FormatCents(p.lineTotal));
    NoNewlineInNumber(IntToString(p.qty));
    PadLeftLacks(FormatCents(p.price), 10, '\n');
    PadLeftLacks(IntToString(p.qty), 8, '\n');
    PadLeftLacks(FormatCents(p.lineTotal), 10, '\n');
  }

  lemma {:induction false} NoNewlineInSummary(caption: string, amount: int)
    requires '\n' !in caption
    ensures '\n' !in SummaryLine(caption, amount)
  {
    PadRightLacks(caption, 30, '\n');
    FormatCentsChars(amount);
    NoNewlineInNumber(FormatCents(amount));
  }

  /**
   * Reading back a file written by `guardar_factura` gives, in order, the
   * stripped name cell, the price and the quantity of every product.
   */
  lemma {:induction false} SavedInvoiceReadsBack(ps: seq<Product>, subtotal: int, igv: int, total: int)
    requires forall i :: 0 <= i < |ps| ==> ReadsBack(ps[i])
    ensures ParseDocument(ReadLines(Render(ps, subtotal, igv, total, true))) == ExpectedItems(ps, true)
  {
    var doc := DocumentLines(ps, subtotal, igv, total, true);
    NoNewlineInDocument(ps, subtotal, igv, total, true);
    ReadLinesOfLines(doc);
    BlockStart(ps, subtotal, igv, total);
    BlockEnd(ps, subtotal, igv, total);
    DocumentShape(ps, subtotal, igv, total, true);
    RowsReadBack(ps);
  }

  /** The item block starts after line 3, the dashes under the header. */
  lemma {:induction false} BlockStart(ps: seq<Product>, subtotal: int, igv: int, total: int)
    ensures FirstDash(DocumentLines(ps, subtotal, igv, total, true), 1) == Some(3)
  {
    var doc := DocumentLines(ps, subtotal, igv, total, true);
    DocumentShape(ps, subtotal, igv, total, true);
    FixedDashLines();
    DashesAt3(doc, Head);
  }

  lemma {:induction false} DashesAt3(doc: seq<string>, head: seq<string>)
    requires |doc| >= 4 && doc[..4] == head && |head| == 4
    requires !IsDashLine(head[1]) && !IsDashLine(head[2]) && IsDashLine(head[3])
    ensures FirstDash(doc, 1) == Some(3)
  {
    assert doc[1] == head[1] && doc[2] == head[2] && doc[3] == head[3];
    FirstDashAt(doc, 1, 3);
  }

  /** Of the fixed lines above the items only the last is made of dashes. */
  lemma {:induction false} FixedDashLines()
    ensures !IsDashLine(Head[1]) && !IsDashLine(Head[2]) && IsDashLine(Head[3])
  {
    assert Rule[0] == '=';
    assert Header[0] == PadRight("Producto", 20)[..8][0];
  }

  /** The item block ends at the dashes under the last item. */
  lemma {:induction false} BlockEnd(ps: seq<Product>, subtotal: int, igv: int, total: int)
    ensures FirstDash(DocumentLines(ps, subtotal, igv, total, true), 4) == Some(4 + |ps|)
  {
    var doc := DocumentLines(ps, subtotal, igv, total, true);
    DocumentShape(ps, subtotal, igv, total, true);
    FixedDashLines();
    RowsNotDashes(ps);
    DashesAfterBlock(doc, ItemRows(ps, true), Tail(subtotal, igv, total));
  }

  lemma {:induction false} DashesAfterBlock(doc: seq<string>, items: seq<string>, tail: seq<string>)
    requires |doc| == 4 + |items| + |tail| && tail != []
    requires doc[4..4 + |items|] == items && doc[4 + |items|..] == tail
    requires forall k :: 0 <= k < |items| ==> !IsDashLine(items[k])
    requires IsDashLine(tail[0])
    ensures FirstDash(doc, 4) == Some(4 + |items|)
  {
    assert doc[4 + |items|] == tail[0];
    forall k | 4 <= k < 4 + |items|
      ensures !IsDashLine(doc[k])
    {
      assert doc[k] == items[k - 4];
    }
    FirstDashAt(doc, 4, 4 + |items|);
  }

  /** With names cut to 19 characters no item row is made of dashes. */
  lemma {:induction false} RowsNotDashes(ps: seq<Product>)
    ensures forall k :: 0 <= k < |ps| ==> !IsDashLine(ItemRows(ps, true)[k])
  {
    forall k | 0 <= k < |ps|
      ensures !IsDashLine(ItemRows(ps, true)[k])
    {
      ItemRowsAt(ps, true, k);
      TruncatedRowColumn20(ps[k]);
    }
  }

  /**
   * In the ranges the validators allow for quantities (up to 999) and for
   * line totals under 1,000,000.00, every product with a newline-free name
   * that does not cut to blanks reads back.
   */
  lemma {:induction false} SavedInvoiceReadsBackInRange(ps: seq<Product>, subtotal: int, igv: int, total: int)
    requires forall i :: 0 <= i < |ps| ==> '\n' !in ps[i].name && Strip(NameCell(ps[i].name, true)) != []
    requires forall i :: 0 <= i < |ps| ==> 0 <= ps[i].qty <= 999 && 0 <= ps[i].lineTotal < 100_000_000
    ensures ParseDocument(ReadLines(Render(ps, subtotal, igv, total, true))) == ExpectedItems(ps, true)
  {
    forall i | 0 <= i < |ps|
      ensures ReadsBack(ps[i])
    {
      IntToStringShort(ps[i].qty);
      FormatCentsLength(ps[i].lineTotal);
    }
    SavedInvoiceReadsBack(ps, subtotal, igv, total);
  }

  /**
   * A line total of 1,000,000.00 or more fills its column of 10, so it
   * runs into the quantity and the row has only two words after column
   * 20: the row is lost on reading.
   */
  lemma {:induction false} WideLineTotalRowDropped(p: Product, truncate: bool)
    requires |NameCell(p.name, truncate)| <= 20
    requires |IntToString(p.qty)| < 8 && |FormatCents(p.lineTotal)| >= 10
    ensures ParseRow(ItemRow(p, truncate)) == None
  {
    var a, b, c := FormatCents(p.price), IntToString(p.qty), FormatCents(p.lineTotal);
    FormatCentsChars(p.price);
    FormatCentsChars(p.lineTotal);
    IntToStringChars(p.qty);
    NumericCharsNoSpace(a);
    NumericCharsNoSpace(b);
    NumericCharsNoSpace(c);
    ItemRowSplit(p, truncate);
    FusedColumns(a, b, c);
  }

  /** The quantity and a line total of full width read as one word. */
  lemma {:induction false} FusedColumns(a: string, b: string, c: string)
    requires a != [] && NoSpace(a) && b != [] && NoSpace(b) && c != [] && NoSpace(c)
    requires |b| < 8 && |c| >= 10
    ensures Words(Strip(PadLeft(a, 10) + (PadLeft(b, 8) + PadLeft(c, 10)))) == [a, b + c]
  {
    assert PadLeft(c, 10) == c;
    var tail := PadLeft(b, 8) + c;
    StripNumberColumns(a, tail, c);
    FirstWord(a, tail);
    OneWord(b, c);
  }

  lemma {:induction false} OneWord(b: string, c: string)
    requires b != [] && NoSpace(b) && NoSpace(c) && |b| < 8
    ensures Words(PadLeft(b, 8) + c) == [b + c]
  {
    PadLeftIsSpacesThen(b, 8);
    var k: nat :| PadLeft(b, 8) == Repeat(' ', k) + b;
    assert NoSpace(b + c) by {
      assert forall i :: |b| <= i < |b + c| ==> (b + c)[i] == c[i - |b|];
    }
    assert PadLeft(b, 8) + c == Repeat(' ', k) + (b + c) + [];
    WordsAfterSpaces(k, b + c, []);
  }

  /**
   * A product `dato_valido` accepts (price 10000.00, quantity 100) whose
   * line total, 1,000,000.00, makes its row unreadable.
   */
  lemma {:induction false} LargestPriceRowDropped()
    ensures ParseRow(ItemRow(Product("Combo", 1_000_000, 100, 100_000_000), true)) == None
  {
    var p := Product("Combo", 1_000_000, 100, 100_000_000);
    IntToStringShort(100);
    FormatCentsLength(100_000_000);
    WideLineTotalRowDropped(p, true);
  }

  /** `escribir_factura` writes what `guardar_factura` writes when no name is over 19 characters, so it reads back too. */
  lemma {:induction false} EditedInvoiceReadsBack(ps: seq<Product>, subtotal: int, igv: int, total: int)
    requires forall i :: 0 <= i < |ps| ==> ReadsBack(ps[i]) && |ps[i].name| <= 19
    ensures ParseDocument(ReadLines(Render(ps, subtotal, igv, total, false))) == ExpectedItems(ps, false)
  {
    SameLayoutForShortNames(ps, subtotal, igv, total);
    SavedInvoiceReadsBack(ps, subtotal, igv, total);
    SameExpected(ps);
  }

  lemma {:induction false} SameExpected(ps: seq<Product>)
    requires forall i :: 0 <= i < |ps| ==> |ps[i].name| <= 19
    ensures ExpectedItems(ps, false) == ExpectedItems(ps, true)
    decreases |ps|
  {
    if ps != [] {
      SameExpected(ps[..|ps| - 1]);
    }
  }

  /**
   * `escribir_factura` does not cut names: the part of a long name from
   * column 21 on becomes the first word after the cut, so when it is one
   * word that is not a number, the row is lost on reading.
   */
  lemma {:induction false} LongNameRowDropped(p: Product)
    requires |p.name| > 20 && NoSpace(p.name[20..]) && ParseDecimal(p.name[20..]) == None
    requires |FormatCents(p.price)| < 10
    ensures ParseRow(ItemRow(p, false)) == None
  {
    var a, c := FormatCents(p.price), FormatCents(p.lineTotal);
    FormatCentsChars(p.lineTotal);
    ColumnsEnds(a, IntToString(p.qty), c);
    LongCut(p.name, NumberColumns(p));
    LongNameWords(p.name[20..], NumberColumns(p));
    BadFirstWord(ItemRow(p, false));
  }

  /** A row whose first word after column 20 is not a price gives nothing. */
  lemma {:induction false} BadFirstWord(line: string)
    requires Words(Strip(Drop(line, 20))) != [] && ParseDecimal(Words(Strip(Drop(line, 20)))[0]) == None
    ensures ParseRow(line) == None
  {
  }

  lemma {:induction false} LongCut(name: string, cols: string)
    requires |name| > 20
    ensures Drop(PadRight(name, 20) + cols, 20) == name[20..] + cols
  {
    assert PadRight(name, 20) == name;
  }

  lemma {:induction false} ColumnsEnds(a: string, b: string, c: string)
    requires |a| < 10 && c != [] && !IsSpace(c[|c| - 1])
    ensures var cols := PadLeft(a, 10) + (PadLeft(b, 8) + PadLeft(c, 10));
      cols != [] && IsSpace(cols[0]) && !IsSpace(cols[|cols| - 1])
  {
    var pc := PadLeft(c, 10);
    assert pc[|pc| - 1] == pc[|pc| - |c|..][|c| - 1];
    var cols := PadLeft(a, 10) + (PadLeft(b, 8) + pc);
    assert cols[|cols| - 1] == pc[|pc| - 1];
    assert cols[0] == PadLeft(a, 10)[0];
  }

  /** The overflowing part of the name is the first word after the cut. */
  lemma {:induction false} LongNameWords(w: string, cols: string)
    requires w != [] && NoSpace(w)
    requires cols != [] && IsSpace(cols[0]) && !IsSpace(cols[|cols| - 1])
    ensures Words(Strip(w + cols)) != [] && Words(Strip(w + cols))[0] == w
  {
    var s := w + cols;
    assert s[|s| - 1] == cols[|cols| - 1];
    assert TrimRight(s) == s;
    assert TrimLeft(s) == s;
    FirstWord(w, cols);
  }

  /** "Pizza familiar grande" has 21 characters; rewritten by the edit page, its row is lost. */
  lemma {:induction false} PizzaFamiliarGrandeDropped()
    ensures ParseRow(ItemRow(Product("Pizza familiar grande", 4590, 2, 9180), false)) == None
  {
    var p := Product("Pizza familiar grande", 4590, 2, 9180);
    assert p.name[20..] == "e";
    FormatCentsLength(4590);
    LongNameRowDropped(p);
  }
}
