/**
 * Reading an invoice file back, as the edit page does (`parsear_factura`
 * in pages/listar_facturas.py): the text is split into lines, the item
 * block is the run of lines after the first all-dash line (not counting
 * line 0) up to the next all-dash line, and each item line is cut at
 * column 20 into a name and the whitespace-separated price, quantity and
 * line-total columns.
 */
module Codec {
  import opened Wrappers
  import opened Text
  import opened Numerals
  import opened Layout

  /** An item read back, `(nombre, precio, cantidad)`; the price in cents. */
  datatype Item = Item(name: string, price: int, qty: int)

  /** `[l.rstrip("\n") for l in f.readlines()]`: the lines of the text, without their newlines. */
  function ReadLines(text: string): seq<string>
  {
    var pieces := Split(text, '\n');
    if pieces[|pieces| - 1] == [] then pieces[..|pieces| - 1] else pieces
  }

  /** Reading back text written one line per `write` returns exactly those lines. */
  lemma {:induction false} ReadLinesOfLines(ls: seq<string>)
    requires forall i :: 0 <= i < |ls| ==> '\n' !in ls[i]
    ensures ReadLines(Lines(ls)) == ls
  {
    SplitLines(ls);
    assert (ls + [[]])[..|ls|] == ls;
  }

  /** `set(line) == {"-"}`: a non-empty line made only of dashes. */
  predicate IsDashLine(line: string)
  {
    line != [] && forall i :: 0 <= i < |line| ==> line[i] == '-'
  }

  /** The index of the first all-dash line at or after `from`. */
  function FirstDash(ls: seq<string>, from: nat): (r: Option<nat>)
    ensures r.Some? ==> from <= r.value < |ls|
    decreases |ls| - from
  {
    if from >= |ls| then None
    else if IsDashLine(ls[from]) then Some(from)
    else FirstDash(ls, from + 1)
  }

  /** `FirstDash` finds an all-dash line with none before it; when it finds none, there is none. */
  lemma {:induction false} FirstDashFinds(ls: seq<string>, from: nat)
    ensures FirstDash(ls, from).Some? ==> IsDashLine(ls[FirstDash(ls, from).value])
    ensures FirstDash(ls, from).Some? ==> forall k :: from <= k < FirstDash(ls, from).value ==> !IsDashLine(ls[k])
    ensures FirstDash(ls, from).None? ==> forall k :: from <= k < |ls| ==> !IsDashLine(ls[k])
    decreases |ls| - from
  {
    if from < |ls| && !IsDashLine(ls[from]) {
      FirstDashFinds(ls, from + 1);
    }
  }

  /** Conversely, the first all-dash line at or after `from` is the one `FirstDash` finds. */
  lemma {:induction false} FirstDashAt(ls: seq<string>, from: nat, j: nat)
    requires from <= j < |ls| && IsDashLine(ls[j])
    requires forall k :: from <= k < j ==> !IsDashLine(ls[k])
    ensures FirstDash(ls, from) == Some(j)
    decreases j - from
  {
    if from < j {
      FirstDashAt(ls, from + 1, j);
    }
  }

  /** `s[:n]` */
  function Take(s: string, n: nat): (r: string)
    ensures |r| <= n
  {
    if |s| <= n then s else s[..n]
  }

  /** `s[n:]` */
  function Drop(s: string, n: nat): string
  {
    if |s| <= n then [] else s[n..]
  }

  /**
   * One line of the item block: blank lines, lines with fewer than three
   * words after column 20, lines whose first word is not a price or whose
   * second is not an integer, and lines with a blank name give nothing.
   */
  function ParseRow(line: string): (r: Option<Item>)
    ensures r.Some? ==> r.value.name != [] && |r.value.name| <= 20
    ensures r.Some? ==> !IsSpace(r.value.name[0]) && !IsSpace(r.value.name[|r.value.name| - 1])
  {
    if Strip(line) == [] then None
    else
      var name := Strip(Take(line, 20));
      var rest := Words(Strip(Drop(line, 20)));
      if |rest| < 3 then None
      else
        match ParseDecimal(rest[0])
        case None => None
        case Some(price) =>
          match ParseInt(rest[1])
          case None => None
          case Some(qty) =>
            StripEnds(Take(line, 20));
            if name != [] then Some(Item(name, price, qty)) else None
  }

  /** The items of the lines of a block, in order. */
  function ParseRows(rows: seq<string>): seq<Item>
  {
    if rows == [] then [] else ParseRows(rows[..|rows| - 1]) + Found(ParseRow(rows[|rows| - 1]))
  }

  /** The item of a row, if any, as a sequence of zero or one items. */
  function Found(r: Option<Item>): seq<Item>
  {
    match r
    case None => []
    case Some(it) => [it]
  }

  lemma {:induction false} ParseRowsSnoc(rows: seq<string>, k: nat)
    requires k < |rows|
    ensures ParseRows(rows[..k + 1]) == ParseRows(rows[..k]) + Found(ParseRow(rows[k]))
  {
    assert rows[..k + 1][..k] == rows[..k];
  }

  /** The items between the first all-dash line after line 0 and the next one; none when either is missing. */
  function ParseDocument(ls: seq<string>): seq<Item>
  {
    match FirstDash(ls, 1)
    case None => []
    case Some(d) =>
      match FirstDash(ls, d + 1)
      case None => []
      case Some(e) => ParseRows(ls[d + 1..e])
  }

  /** `parsear_factura` on the text of the file. */
  method ParseInvoice(text: string) returns (items: seq<Item>)
    ensures items == ParseDocument(ReadLines(text))
  {
    var lines := ReadLines(text);
    var start: Option<nat> := None;
    var i := 0;
    while i < |lines|
      invariant 0 <= i <= |lines| && start.None?
      invariant FirstDash(lines, 1) == FirstDash(lines, if i == 0 then 1 else i)
    {
      if i > 0 && IsDashLine(lines[i]) {
        start := Some(i + 1);
        break;
      }
      i := i + 1;
    }
    items := [];
    if start.None? {
      return;
    }
    var s := start.value;
    var end: Option<nat> := None;
    var j := s;
    while j < |lines|
      invariant s <= j <= |lines| && end.None?
      invariant FirstDash(lines, s) == FirstDash(lines, j)
    {
      if IsDashLine(lines[j]) {
        end := Some(j);
        break;
      }
      j := j + 1;
    }
    if end.None? {
      return;
    }
    var block := lines[s..end.value];
    for k := 0 to |block|
      invariant items == ParseRows(block[..k])
    {
      ParseRowsSnoc(block, k);
      var row := ParseRow(block[k]);
      if row.Some? {
        items := items + [row.value];
      }
    }
    assert block[..|block|] == block;
  }
}
