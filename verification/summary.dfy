/**
 * The cheap reading of an invoice's total used by the listings
 * (`obtener_info_factura` in utils/archivo.py and
 * `obtener_facturas_disponibles` in pages/listar_facturas.py): the first
 * line holding both "TOTAL" and "S/." gives the text between its first and
 * second "S/.", stripped; a file with no such line shows "0.00".
 */
module Summary {
  import opened Text
  import opened Numerals
  import opened Layout
  import RoundTrip

  const Currency := "S/."
  const NoTotal := "0.00"

  /** `'TOTAL' in linea and 'S/.' in linea` */
  predicate Announces(line: string)
  {
    Contains(line, TotalLabel) && Contains(line, Currency)
  }

  /** `linea.split('S/.')[1].strip()` */
  function AmountText(line: string): (r: string)
    requires Contains(line, Currency)
    ensures |r| < |line|
  {
    Strip(SecondPiece(line, Currency))
  }

  /** The total shown for a file whose text splits into the lines `ls`. */
  function TotalOf(ls: seq<string>): string
  {
    if ls == [] then NoTotal
    else if Announces(ls[0]) then AmountText(ls[0])
    else TotalOf(ls[1..])
  }

  /** The total read is that of the first announcing line. */
  lemma {:induction false} TotalOfFirst(ls: seq<string>, j: nat)
    requires j < |ls| && Announces(ls[j])
    requires forall i :: 0 <= i < j ==> !Announces(ls[i])
    ensures TotalOf(ls) == AmountText(ls[j])
    decreases j
  {
    if j > 0 {
      TotalOfFirst(ls[1..], j - 1);
    }
  }

  /** Without an announcing line the total shown is "0.00". */
  lemma {:induction false} TotalOfNone(ls: seq<string>)
    requires forall i :: 0 <= i < |ls| ==> !Announces(ls[i])
    ensures TotalOf(ls) == NoTotal
    decreases |ls|
  {
    if ls != [] {
      TotalOfNone(ls[1..]);
    }
  }

  /** The scan of the file's lines, stopping at the first announcing line. */
  method ExtractTotal(text: string) returns (total: string)
    ensures total == TotalOf(Split(text, '\n'))
  {
    var lines := Split(text, '\n');
    total := NoTotal;
    var i := 0;
    while i < |lines|
      invariant 0 <= i <= |lines|
      invariant TotalOf(lines) == TotalOf(lines[i..])
    {
      if Announces(lines[i]) {
        total := AmountText(lines[i]);
        return;
      }
      assert lines[i..][1..] == lines[i + 1..];
      i := i + 1;
    }
  }

  /** No line announces a total. */
  predicate NoneAnnounce(ls: seq<string>)
  {
    forall k :: 0 <= k < |ls| ==> !Announces(ls[k])
  }

  lemma {:induction false} NoneAnnounceAppend(a: seq<string>, b: seq<string>)
    requires NoneAnnounce(a) && NoneAnnounce(b)
    ensures NoneAnnounce(a + b)
  {
    assert forall k :: |a| <= k < |a + b| ==> (a + b)[k] == b[k - |a|];
  }

  /** Lines that announce nothing are skipped. */
  lemma {:induction false} FirstAfter(pre: seq<string>, rest: seq<string>)
    requires NoneAnnounce(pre) && rest != [] && Announces(rest[0])
    ensures TotalOf(pre + rest) == AmountText(rest[0])
  {
    var ls := pre + rest;
    assert ls[|pre|] == rest[0];
    assert forall i :: 0 <= i < |pre| ==> ls[i] == pre[i];
    TotalOfFirst(ls, |pre|);
  }

  /** A line without an 'S' holds no "S/."; one without a 'T' holds no "TOTAL". */
  lemma {:induction false} LacksS(line: string)
    requires 'S' !in line
    ensures !Announces(line)
  {
    NotContains(line, Currency);
  }

  lemma {:induction false} LacksT(line: string)
    requires 'T' !in line
    ensures !Announces(line)
  {
    NotContains(line, TotalLabel);
  }

  /**
   * The total a listing shows for a file written by `guardar_factura` or
   * `escribir_factura` is the rendered total, provided no item row
   * announces a total of its own.
   */
  lemma {:induction false} ListedTotalOfRender(ps: seq<Product>, subtotal: int, igv: int, total: int, truncate: bool)
    requires forall i :: 0 <= i < |ps| ==> '\n' !in ps[i].name && !Announces(ItemRow(ps[i], truncate))
    ensures TotalOf(Split(Render(ps, subtotal, igv, total, truncate), '\n')) == FormatCents(total)
  {
    NoNewlinesIn(ps, subtotal, igv, total, truncate);
    SplitLines(DocumentLines(ps, subtotal, igv, total, truncate));
    HeadAnnouncesNothing();
    RowsAnnounceNothing(ps, truncate);
    TailAnnounces(subtotal, igv, total);
    TotalLineAnnounces(total);
    TotalAfterBlocks(Head, ItemRows(ps, truncate), Tail(subtotal, igv, total));
  }

  lemma {:induction false} TotalAfterBlocks(h: seq<string>, items: seq<string>, t: seq<string>)
    requires |t| == 5 && NoneAnnounce(h) && NoneAnnounce(items) && NoneAnnounce(t[..3]) && Announces(t[3])
    ensures TotalOf((h + (items + t)) + [[]]) == AmountText(t[3])
  {
    assert t == t[..3] + [t[3], t[4]];
    assert (h + (items + t)) + [[]] == (h + (items + t[..3])) + ([t[3], t[4]] + [[]]);
    NoneAnnounceAppend(items, t[..3]);
    NoneAnnounceAppend(h, items + t[..3]);
    FirstAfter(h + (items + t[..3]), [t[3], t[4]] + [[]]);
  }

  lemma {:induction false} NoNewlinesIn(ps: seq<Product>, subtotal: int, igv: int, total: int, truncate: bool)
    requires forall i :: 0 <= i < |ps| ==> '\n' !in ps[i].name
    ensures forall i :: 0 <= i < |DocumentLines(ps, subtotal, igv, total, truncate)| ==> '\n' !in DocumentLines(ps, subtotal, igv, total, truncate)[i]
  {
    RoundTrip.NoNewlineInDocument(ps, subtotal, igv, total, truncate);
  }

  /** None of the four head lines holds an 'S'. */
  lemma {:induction false} HeadAnnouncesNothing()
    ensures NoneAnnounce(Head)
  {
    TitleAnnouncesNothing();
    HeaderAnnouncesNothing();
    RepeatAnnouncesNothing('=', 50);
    RepeatAnnouncesNothing('-', 50);
    NoneAnnounceFour(Title, Rule, Header, Dashes);
  }

  lemma {:induction false} TitleAnnouncesNothing()
    ensures !Announces(Title)
  {
    assert 'S' !in Title;
    LacksS(Title);
  }

  lemma {:induction false} HeaderAnnouncesNothing()
    ensures !Announces(Header)
  {
    PadRightLacks("Producto", 20, 'S');
    PadLeftLacks("Precio", 10, 'S');
    PadLeftLacks("Cant.", 8, 'S');
    PadLeftLacks("Total", 10, 'S');
    LacksS(Header);
  }

  lemma {:induction false} RepeatAnnouncesNothing(c: char, n: nat)
    requires c != 'S'
    ensures !Announces(Repeat(c, n))
  {
    LacksS(Repeat(c, n));
  }

  lemma {:induction false} NoneAnnounceFour(a: string, b: string, c: string, d: string)
    requires !Announces(a) && !Announces(b) && !Announces(c) && !Announces(d)
    ensures NoneAnnounce([a, b, c, d])
  {
  }

  lemma {:induction false} RowsAnnounceNothing(ps: seq<Product>, truncate: bool)
    requires forall i :: 0 <= i < |ps| ==> !Announces(ItemRow(ps[i], truncate))
    ensures NoneAnnounce(ItemRows(ps, truncate))
  {
    forall k | 0 <= k < |ps|
      ensures !Announces(ItemRows(ps, truncate)[k])
    {
      ItemRowsAt(ps, truncate, k);
    }
  }

  /** Of the five tail lines, the first three announce nothing and the fourth is the TOTAL line. */
  lemma {:induction false} TailAnnounces(subtotal: int, igv: int, total: int)
    ensures |Tail(subtotal, igv, total)| == 5
    ensures NoneAnnounce(Tail(subtotal, igv, total)[..3])
    ensures Tail(subtotal, igv, total)[3] == SummaryLine(TotalLabel, total)
  {
    RepeatAnnouncesNothing('-', 50);
    LabelsLackT();
    SummaryAnnouncesNothing(SubtotalLabel, subtotal);
    SummaryAnnouncesNothing(IgvLabel, igv);
    FirstThree(Dashes, SummaryLine(SubtotalLabel, subtotal), SummaryLine(IgvLabel, igv), SummaryLine(TotalLabel, total), Rule);
  }

  lemma {:induction false} LabelsLackT()
    ensures 'T' !in SubtotalLabel && 'T' !in IgvLabel
  {
  }

  lemma {:induction false} FirstThree(a: string, b: string, c: string, d: string, e: string)
    requires !Announces(a) && !Announces(b) && !Announces(c)
    ensures NoneAnnounce([a, b, c, d, e][..3]) && [a, b, c, d, e][3] == d
  {
    assert [a, b, c, d, e][..3] == [a, b, c];
  }

  /** A summary line whose caption has no 'T' holds no "TOTAL". */
  lemma {:induction false} SummaryAnnouncesNothing(caption: string, amount: int)
    requires 'T' !in caption
    ensures !Announces(SummaryLine(caption, amount))
  {
    PadRightLacks(caption, 30, 'T');
    FormatCentsChars(amount);
    var a := FormatCents(amount);
    assert forall i :: 0 <= i < |a| ==> a[i] != 'T';
    assert 'T' !in " S/. ";
    LacksT(SummaryLine(caption, amount));
  }

  /** The TOTAL line announces, and its amount text is the total as written. */
  lemma {:induction false} TotalLineAnnounces(total: int)
    ensures Announces(SummaryLine(TotalLabel, total))
    ensures AmountText(SummaryLine(TotalLabel, total)) == FormatCents(total)
  {
    var line := SummaryLine(TotalLabel, total);
    assert line[..5] == TotalLabel;
    IndexOfFinds(line, TotalLabel);
    assert At(line, TotalLabel, 0);
    AmountAfterCaption(TotalLabel, total);
  }

  /** After a caption of at most 30 characters with no 'S', the text after "S/." is the amount. */
  lemma {:induction false} AmountAfterCaption(caption: string, amount: int)
    requires 'S' !in caption && |caption| <= 30
    ensures Contains(SummaryLine(caption, amount), Currency)
    ensures AmountText(SummaryLine(caption, amount)) == FormatCents(amount)
  {
    PadRightLacks(caption, 30, 'S');
    FormatCentsChars(amount);
    var a := FormatCents(amount);
    assert forall i :: 0 <= i < |a| ==> a[i] != 'S';
    SeparatorShape();
    CurrencyAfterCell(PadRight(caption, 30), " S/. ", a);
    AmountStripped(a);
  }

  lemma {:induction false} SeparatorShape()
    ensures |" S/. "| == 5 && " S/. "[0] == ' ' && " S/. "[1..4] == Currency && " S/. "[4] == ' '
  {
  }

  lemma {:induction false} CurrencyAfterCell(cell: string, sep: string, a: string)
    requires |cell| == 30 && 'S' !in cell && 'S' !in a
    requires |sep| == 5 && sep[0] == ' ' && sep[1..4] == Currency && sep[4] == ' '
    ensures Contains(cell + sep + a, Currency)
    ensures SecondPiece(cell + sep + a, Currency) == [' '] + a
  {
    var line := cell + sep + a;
    assert line[31..34] == sep[1..4];
    assert forall i :: 0 <= i < 30 ==> line[i] == cell[i];
    assert line[30] == ' ';
    IndexOfAt(line, Currency, 31);
    assert line[34..] == [' '] + a;
    assert forall i :: 0 <= i < |[' '] + a| ==> ([' '] + a)[i] != 'S';
    NotContains([' '] + a, Currency);
  }

  lemma {:induction false} AmountStripped(a: string)
    requires a != [] && !IsSpace(a[0]) && !IsSpace(a[|a| - 1])
    ensures Strip([' '] + a) == a
  {
    var s := [' '] + a;
    assert s[|s| - 1] == a[|a| - 1];
    assert TrimRight(s) == s;
    assert Repeat(' ', 1) == [' '];
    TrimLeftSpaces(1, a);
  }

  /** A product whose name has no capital 'S' never makes its row announce a total. */
  lemma {:induction false} RowWithoutS(p: Product, truncate: bool)
    requires 'S' !in p.name
    ensures !Announces(ItemRow(p, truncate))
  {
    var cell := NameCell(p.name, truncate);
    assert forall i :: 0 <= i < |cell| ==> cell[i] == p.name[i];
    PadRightLacks(cell, 20, 'S');
    FormatCentsChars(p.price);
    FormatCentsChars(p.lineTotal);
    IntToStringChars(p.qty);
    NumberLacksS(FormatCents(p.price), 10);
    NumberLacksS(IntToString(p.qty), 8);
    NumberLacksS(FormatCents(p.lineTotal), 10);
    LacksS(ItemRow(p, truncate));
  }

  lemma {:induction false} NumberLacksS(s: string, w: nat)
    requires NumericChars(s)
    ensures 'S' !in PadLeft(s, w)
  {
    assert forall i :: 0 <= i < |s| ==> s[i] != 'S';
    PadLeftLacks(s, w, 'S');
  }
}
