/**
 * The edit page, pages/listar_facturas.py: its list of invoices, the ten
 * form rows held between reruns, the running totals, the filter that picks
 * the products to save, and the save that rewrites the loaded file.
 * Amounts are in cents; the IGV is an exact real until it is printed.
 */
module Editor {
  import opened Wrappers
  import opened Text
  import opened Numerals
  import opened Layout
  import opened Codec
  import opened Summary
  import opened Store
  import opened Validation

  /** The form always shows ten rows. */
  const FormRows := 10

  /** One form row: name, price in cents, quantity. */
  datatype Row = Row(name: string, price: int, qty: int)

  /** `{'nombre': '', 'precio': 0.0, 'cantidad': 0}` */
  const BlankRow := Row("", 0, 0)

  /** Form row i after loading `items`: item i, or a blank row past the last item. */
  function LoadedRow(items: seq<Item>, i: nat): (r: Row)
    ensures i < |items| ==> r == Row(items[i].name, items[i].price, items[i].qty)
    ensures i >= |items| ==> r == BlankRow
  {
    if i < |items| then Row(items[i].name, items[i].price, items[i].qty) else BlankRow
  }

  /** What `parsear_factura` returns for a file of the directory; a missing file raises and gives none. */
  function ParsedFile(files: map<string, string>, file: string): seq<Item>
  {
    if file in files then ParseDocument(ReadLines(files[file])) else []
  }

  /** `producto['nombre'].strip() and producto['precio'] > 0 and producto['cantidad'] > 0` */
  predicate Counts(r: Row)
  {
    Strip(r.name) != [] && r.price > 0 && r.qty > 0
  }

  /** The subtotal of `calcular_totales_edicion`: price times quantity summed over the counted rows. */
  function Subtotal(rows: seq<Row>): int
  {
    if rows == [] then 0
    else
      var r := rows[|rows| - 1];
      Subtotal(rows[..|rows| - 1]) + (if Counts(r) then r.price * r.qty else 0)
  }

  /** A row is saved when it is counted and `dato_valido` accepts its price and quantity. */
  predicate Saved(r: Row)
  {
    Counts(r) && DatoValido(PyFloat(r.price), PyInt(r.qty))
  }

  /** The product a saved row becomes: stripped name, price, quantity and their product. */
  function ToProduct(r: Row): Product
  {
    Product(Strip(r.name), r.price, r.qty, r.price * r.qty)
  }

  /** `productos_validos`: the saved rows, in order. */
  function Kept(rows: seq<Row>): (ps: seq<Product>)
    ensures |ps| <= |rows|
  {
    if rows == [] then []
    else
      var r := rows[|rows| - 1];
      Kept(rows[..|rows| - 1]) + (if Saved(r) then [ToProduct(r)] else [])
  }

  lemma {:induction false} SubtotalSnoc(rows: seq<Row>, i: nat)
    requires i < |rows|
    ensures Subtotal(rows[..i + 1]) == Subtotal(rows[..i]) + (if Counts(rows[i]) then rows[i].price * rows[i].qty else 0)
  {
    assert rows[..i + 1][..i] == rows[..i];
  }

  lemma {:induction false} KeptSnoc(rows: seq<Row>, i: nat)
    requires i < |rows|
    ensures Kept(rows[..i + 1]) == Kept(rows[..i]) + (if Saved(rows[i]) then [ToProduct(rows[i])] else [])
  {
    assert rows[..i + 1][..i] == rows[..i];
  }

  /** The subtotal is never negative. */
  lemma {:induction false} SubtotalNonNegative(rows: seq<Row>)
    ensures Subtotal(rows) >= 0
    decreases |rows|
  {
    if rows != [] {
      SubtotalNonNegative(rows[..|rows| - 1]);
      var r := rows[|rows| - 1];
      if Counts(r) {
        assert r.price * r.qty > 0;
      }
    }
  }

  /**
   * Every product kept for saving has a non-empty stripped name, passes
   * `dato_valido`, and carries price times quantity as its line total.
   */
  lemma {:induction false} KeptProductsValid(rows: seq<Row>)
    ensures forall i :: 0 <= i < |Kept(rows)| ==> Savable(Kept(rows)[i])
    decreases |rows|
  {
    if rows != [] {
      var init := rows[..|rows| - 1];
      var r := rows[|rows| - 1];
      KeptProductsValid(init);
      if Saved(r) {
        StripEnds(r.name);
        StripOfStripped(Strip(r.name));
      }
      var ps := Kept(rows);
      assert forall i :: 0 <= i < |Kept(init)| ==> ps[i] == Kept(init)[i];
    }
  }

  /** The second loop of the save, which checks `dato_valido` again, finds nothing to reject. */
  lemma {:induction false} KeptPassValidation(rows: seq<Row>)
    ensures forall i :: 0 <= i < |Kept(rows)| ==> DatoValido(PyFloat(Kept(rows)[i].price), PyInt(Kept(rows)[i].qty))
  {
    KeptProductsValid(rows);
  }

  /** A product as the save writes it: a stripped non-empty name, values `dato_valido` accepts, and price times quantity as its line total. */
  predicate Savable(p: Product)
  {
    p.name != [] && Strip(p.name) == p.name && DatoValido(PyFloat(p.price), PyInt(p.qty)) && p.lineTotal == p.price * p.qty
  }

  /** The sum of the line totals of the products saved. */
  function LineTotals(ps: seq<Product>): int
  {
    if ps == [] then 0 else LineTotals(ps[..|ps| - 1]) + ps[|ps| - 1].lineTotal
  }

  /**
   * The subtotal shown and saved counts rows that `dato_valido` rejects,
   * so it matches the saved line totals exactly when every counted row is
   * also saved.
   */
  lemma {:induction false} SubtotalMatchesSavedRows(rows: seq<Row>)
    ensures (forall i :: 0 <= i < |rows| ==> (Counts(rows[i]) ==> Saved(rows[i]))) ==> LineTotals(Kept(rows)) == Subtotal(rows)
    ensures LineTotals(Kept(rows)) <= Subtotal(rows)
    decreases |rows|
  {
    if rows != [] {
      var init := rows[..|rows| - 1];
      var r := rows[|rows| - 1];
      SubtotalMatchesSavedRows(init);
      var k := Kept(init);
      if Saved(r) {
        assert (k + [ToProduct(r)])[..|k|] == k;
      } else {
        assert k + [] == k;
        if Counts(r) {
          assert r.price * r.qty > 0;
        }
      }
    }
  }

  /** A row priced at S/. 20,000.00 counts in the subtotal but is not saved. */
  lemma {:induction false} OverpricedRowCountedNotSaved()
    ensures Subtotal([Row("Lomo saltado", 2_000_000, 1)]) == 2_000_000
    ensures Kept([Row("Lomo saltado", 2_000_000, 1)]) == []
  {
    var r := Row("Lomo saltado", 2_000_000, 1);
    assert Strip(r.name) != [] by {
      assert !IsSpace(r.name[0]);
      NonBlank(r.name, 0);
    }
    assert [r][..0] == [];
  }

  /** A string with a non-space character does not strip to nothing. */
  lemma {:induction false} NonBlank(s: string, i: nat)
    requires i < |s| && !IsSpace(s[i])
    ensures Strip(s) != []
  {
    TrimLeftEmpty(TrimRight(s));
    TrimRightEmpty(s);
  }

  /** The amounts `escribir_factura` prints: the subtotal, and IGV and total rounded to cents. */
  function Igv(subtotal: int): real
  {
    subtotal as real * IgvRate
  }

  /** `total = subtotal + igv`, before rounding. */
  function Gross(subtotal: int): real
  {
    subtotal as real + Igv(subtotal)
  }

  /** The file `escribir_factura` writes for these products and this subtotal. */
  function EditedRender(ps: seq<Product>, subtotal: int): string
  {
    Render(ps, subtotal, RoundHalfUp(Igv(subtotal)), RoundHalfUp(Gross(subtotal)), false)
  }

  /** The printed total is the printed subtotal plus the printed IGV. */
  lemma {:induction false} PrintedTotalAdds(subtotal: int)
    ensures RoundHalfUp(Gross(subtotal)) == subtotal + RoundHalfUp(Igv(subtotal))
  {
    RoundHalfUpShift(subtotal, Igv(subtotal));
  }

  /**
   * The loop of `obtener_facturas_disponibles`: every invoice name whose
   * number parses, with its path and the total read from its text, sorted
   * by number. Unlike `listar_todas_las_facturas` the file itself is read,
   * so a non-canonical name such as `factura_0001.txt` is listed too.
   */
  method AvailableInvoices(store: InvoiceStore) returns (list: seq<InvoiceInfo>)
    ensures SortedByNumber(list)
    ensures forall e :: e in list ==> Listed(store.files, e)
    ensures forall k :: k in store.files && IsInvoiceName(k) && NumberOf(k).Some? ==> exists e :: e in list && e.file == k
    ensures DistinctFiles(list)
  {
    var found := CollectInvoices(store.files);
    list := SortByNumber(found);
    forall e | e in list
      ensures e in found
    {
      assert e in multiset(list);
    }
    forall k | k in store.files && IsInvoiceName(k) && NumberOf(k).Some?
      ensures exists e :: e in list && e.file == k
    {
      var e :| e in found && e.file == k;
      assert e in multiset(found);
    }
    PermutationKeepsDistinctFiles(found, list);
  }

  /** One entry per invoice file of the cache directory, in no particular order. */
  method CollectInvoices(files: map<string, string>) returns (found: seq<InvoiceInfo>)
    ensures forall e :: e in found ==> Listed(files, e)
    ensures forall k :: k in files && IsInvoiceName(k) && NumberOf(k).Some? ==> exists e :: e in found && e.file == k
    ensures DistinctFiles(found)
  {
    var pending := files.Keys;
    found := [];
    while pending != {}
      invariant pending <= files.Keys
      invariant forall e :: e in found ==> Listed(files, e) && e.file !in pending
      invariant forall k :: k in files && k !in pending && IsInvoiceName(k) && NumberOf(k).Some? ==> exists e :: e in found && e.file == k
      invariant DistinctFiles(found)
      decreases pending
    {
      var k :| k in pending;
      if IsInvoiceName(k) && NumberOf(k).Some? {
        var total := ExtractTotal(files[k]);
        var entry := InvoiceInfo(NumberOf(k).value, k, CacheDir + k, total);
        AppendKeepsDistinctFiles(found, entry);
        found := found + [entry];
      }
      pending := pending - {k};
    }
  }

  /** No file name is listed twice. */
  predicate DistinctFiles(s: seq<InvoiceInfo>)
  {
    forall i, j :: 0 <= i < j < |s| ==> s[i].file != s[j].file
  }

  /** Appending an entry whose file is not yet listed keeps the file names distinct. */
  lemma {:induction false} AppendKeepsDistinctFiles(s: seq<InvoiceInfo>, e: InvoiceInfo)
    requires DistinctFiles(s) && forall x :: x in s ==> x.file != e.file
    ensures DistinctFiles(s + [e])
  {
    var t := s + [e];
    forall i, j | 0 <= i < j < |t|
      ensures t[i].file != t[j].file
    {
      assert t[i] == s[i] && s[i] in s;
      if j < |s| {
        assert t[j] == s[j];
      }
    }
  }

  /** Reordering a list keeps its file names distinct. */
  lemma {:induction false} PermutationKeepsDistinctFiles(a: seq<InvoiceInfo>, b: seq<InvoiceInfo>)
    requires multiset(a) == multiset(b) && DistinctFiles(a)
    ensures DistinctFiles(b)
  {
    forall i, j | 0 <= i < j < |b|
      ensures b[i].file != b[j].file
    {
      if b[i].file == b[j].file {
        assert b[i] in multiset(a) && b[j] in multiset(a);
        var x :| 0 <= x < |a| && a[x] == b[i];
        var y :| 0 <= y < |a| && a[y] == b[j];
        if x != y {
          assert false;
        }
        TwiceCounted(b, i, j);
        SingleCount(a, x);
        assert false;
      }
    }
  }

  /** An entry at two positions occurs at least twice. */
  lemma {:induction false} TwiceCounted(s: seq<InvoiceInfo>, i: nat, j: nat)
    requires i < j < |s| && s[i] == s[j]
    ensures multiset(s)[s[i]] >= 2
  {
    assert s == s[..j] + [s[j]] + s[j + 1..];
    assert s[..j][i] == s[i];
    assert s[i] in multiset(s[..j]);
  }

  /** In a list with distinct file names every entry occurs once. */
  lemma {:induction false} SingleCount(s: seq<InvoiceInfo>, x: nat)
    requires DistinctFiles(s) && x < |s|
    ensures multiset(s)[s[x]] == 1
    decreases |s|
  {
    var init := s[..|s| - 1];
    assert s == init + [s[|s| - 1]];
    assert DistinctFiles(init) by {
      forall i, j | 0 <= i < j < |init|
        ensures init[i].file != init[j].file
      {
        assert init[i] == s[i] && init[j] == s[j];
      }
    }
    if x == |s| - 1 {
      if s[x] in multiset(init) {
        assert false;
      }
    } else {
      SingleCount(init, x);
      assert init[x] == s[x];
      assert s[x] != s[|s| - 1];
    }
  }

  /** An entry of the edit page's list: an invoice file of the directory, its number, path and total text. */
  predicate Listed(files: map<string, string>, e: InvoiceInfo)
  {
    e.file in files && IsInvoiceName(e.file) && NumberOf(e.file) == Some(e.number)
    && e.path == CacheDir + e.file && e.total == TotalOf(Split(files[e.file], '\n'))
  }

  /** `for ... if not dato_valido(...): break / else`: true when every product passes `dato_valido`. */
  method AllValid(ps: seq<Product>) returns (ok: bool)
    ensures ok <==> forall i :: 0 <= i < |ps| ==> DatoValido(PyFloat(ps[i].price), PyInt(ps[i].qty))
  {
    for i := 0 to |ps|
      invariant forall j :: 0 <= j < i ==> DatoValido(PyFloat(ps[j].price), PyInt(ps[j].qty))
    {
      if !DatoValido(PyFloat(ps[i].price), PyInt(ps[i].qty)) {
        return false;
      }
    }
    return true;
  }

  /** `parsear_factura` on a file of the directory. */
  method ReadInvoice(store: InvoiceStore, file: string) returns (items: seq<Item>)
    ensures items == ParsedFile(store.files, file)
  {
    items := [];
    if file in store.files {
      items := ParseInvoice(store.files[file]);
    }
  }

  /** The list built by "Cargar datos": item i for each of the ten rows, a blank row past the last item. */
  method PadRows(items: seq<Item>) returns (rs: seq<Row>)
    ensures |rs| == FormRows
    ensures forall i :: 0 <= i < FormRows ==> rs[i] == LoadedRow(items, i)
  {
    rs := [];
    for i := 0 to FormRows
      invariant |rs| == i
      invariant forall j :: 0 <= j < i ==> rs[j] == LoadedRow(items, j)
    {
      rs := rs + [LoadedRow(items, i)];
    }
  }

  /** The state the edit page keeps between reruns. */
  class EditSession {
    /** `factura_cargada`: the file name of the loaded invoice, if any. */
    var invoice: Option<string>
    /** `productos_editando`: the form rows. */
    var rows: seq<Row>

    constructor()
      ensures invoice == None && rows == []
    {
      invoice := None;
      rows := [];
    }

    /** "Cargar datos": parse the file and pad or cut its items to the ten form rows. */
    method Load(store: InvoiceStore, file: string)
      modifies this
      ensures invoice == Some(file)
      ensures |rows| == FormRows
      ensures forall i :: 0 <= i < FormRows ==> rows[i] == LoadedRow(ParsedFile(store.files, file), i)
    {
      var items := ReadInvoice(store, file);
      rows := PadRows(items);
      invoice := Some(file);
    }

    /** "Recargar Original": the loaded file is parsed again into the ten rows. */
    method Reload(store: InvoiceStore)
      requires invoice.Some? && |rows| == FormRows
      modifies this
      ensures invoice == old(invoice)
      ensures |rows| == FormRows
      ensures forall i :: 0 <= i < FormRows ==> rows[i] == LoadedRow(ParsedFile(store.files, invoice.value), i)
    {
      var items := ReadInvoice(store, invoice.value);
      for i := 0 to FormRows
        invariant invoice == old(invoice) && |rows| == FormRows
        invariant forall j :: 0 <= j < i ==> rows[j] == LoadedRow(items, j)
      {
        rows := rows[i := LoadedRow(items, i)];
      }
    }

    /** "Limpiar": every row blank. */
    method Clear()
      requires |rows| == FormRows
      modifies this
      ensures invoice == old(invoice)
      ensures |rows| == FormRows && forall i :: 0 <= i < FormRows ==> rows[i] == BlankRow
    {
      for i := 0 to FormRows
        invariant invoice == old(invoice) && |rows| == FormRows
        invariant forall j :: 0 <= j < i ==> rows[j] == BlankRow
      {
        rows := rows[i := BlankRow];
      }
    }

    /** The form writes row i back into the session. */
    method SetRow(i: nat, r: Row)
      requires i < |rows|
      modifies this
      ensures invoice == old(invoice) && rows == old(rows)[i := r]
    {
      rows := rows[i := r];
    }

    /** "Cancelar": the loaded invoice and its rows are dropped. */
    method Cancel()
      modifies this
      ensures invoice == None && rows == []
    {
      invoice := None;
      rows := [];
    }

    /** `calcular_totales_edicion` */
    method Totals() returns (subtotal: int, igv: real, total: real)
      ensures subtotal == Subtotal(rows) && subtotal >= 0
      ensures igv == Igv(subtotal) && total == Gross(subtotal)
    {
      subtotal := 0;
      for i := 0 to |rows|
        invariant subtotal == Subtotal(rows[..i])
      {
        SubtotalSnoc(rows, i);
        if Counts(rows[i]) {
          subtotal := subtotal + rows[i].price * rows[i].qty;
        }
      }
      assert rows[..|rows|] == rows;
      SubtotalNonNegative(rows);
      igv := Igv(subtotal);
      total := subtotal as real + igv;
    }

    /** The loop that fills `productos_validos`. */
    method ValidProducts() returns (ps: seq<Product>)
      ensures ps == Kept(rows)
    {
      ps := [];
      for i := 0 to |rows|
        invariant ps == Kept(rows[..i])
      {
        KeptSnoc(rows, i);
        var r := rows[i];
        if Strip(r.name) != [] && r.price > 0 && r.qty > 0 {
          if DatoValido(PyFloat(r.price), PyInt(r.qty)) {
            ps := ps + [Product(Strip(r.name), r.price, r.qty, r.price * r.qty)];
          }
        }
      }
      assert rows[..|rows|] == rows;
    }

    /**
     * The checks and writes of "Guardar Cambios" up to the file: no text
     * when no row is saved; otherwise every kept product passes
     * `dato_valido` again and the text is what `escribir_factura` writes.
     */
    method SaveText() returns (ok: bool, text: string)
      ensures ok <==> Kept(rows) != []
      ensures ok ==> text == SavedText(rows)
    {
      var ps := ValidProducts();
      if ps == [] {
        return false, "";
      }
      ok := AllValid(ps);
      assert ok by {
        KeptPassValidation(rows);
      }
      var subtotal, igv, total := Totals();
      text := WriteInvoice(ps, subtotal, RoundHalfUp(igv), RoundHalfUp(total), false);
    }

    /**
     * "Guardar Cambios", confirmed: refused when no row is saved; otherwise
     * the loaded file is rewritten in place with the saved rows and the
     * totals of all counted rows, and the session is cleared.
     */
    method SaveEdit(store: InvoiceStore) returns (saved: bool)
      requires invoice.Some?
      modifies this, store
      ensures saved <==> Kept(old(rows)) != []
      ensures !saved ==> store.files == old(store.files) && invoice == old(invoice) && rows == old(rows)
      ensures saved ==> store.files == old(store.files)[old(invoice).value := SavedText(old(rows))]
      ensures saved ==> invoice == None && rows == []
      ensures store.backups == old(store.backups)
    {
      var text;
      saved, text := SaveText();
      if !saved {
        return;
      }
      store.Overwrite(invoice.value, text);
      invoice := None;
      rows := [];
    }
  }

  /** The text `escribir_factura` writes for the rows of the form. */
  function SavedText(rows: seq<Row>): string
  {
    EditedRender(Kept(rows), Subtotal(rows))
  }

  /**
   * Saving then loading again gives back every saved product, in order,
   * when none has a name over 19 characters or a newline, and each
   * quantity and line total fits its column.
   */
  lemma {:induction false} SaveThenLoad(rows: seq<Row>, files: map<string, string>, file: string)
    requires forall i :: 0 <= i < |Kept(rows)| ==> RoundTrip.ReadsBack(Kept(rows)[i]) && |Kept(rows)[i].name| <= 19
    ensures ParsedFile(files[file := SavedText(rows)], file) == RoundTrip.ExpectedItems(Kept(rows), false)
  {
    var subtotal := Subtotal(rows);
    RoundTrip.EditedInvoiceReadsBack(Kept(rows), subtotal, RoundHalfUp(Igv(subtotal)), RoundHalfUp(Gross(subtotal)));
  }

  /** The items read back from a save are the saved products themselves: their names are already stripped. */
  lemma {:induction false} SavedItemsAreKept(rows: seq<Row>, i: nat)
    requires i < |Kept(rows)|
    ensures RoundTrip.ExpectedItems(Kept(rows), false)[i] == Item(Kept(rows)[i].name, Kept(rows)[i].price, Kept(rows)[i].qty)
  {
    KeptProductsValid(rows);
    RoundTrip.ExpectedAt(Kept(rows), false, i);
  }
}
