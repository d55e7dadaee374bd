/**
 * The invoice store of utils/archivo.py. The `cache/` directory is a map
 * from file name to file text; the backup folder is a second map, keyed by
 * the backup's path.
 */
module Store {
  import opened Wrappers
  import opened Text
  import opened Numerals
  import opened Layout
  import opened Summary

  const Prefix := "factura_"
  const Suffix := ".txt"
  /** The path of the invoice directory, as it prefixes the file names. */
  const CacheDir := "cache/"

  /** `f"factura_{str(n).zfill(3)}.txt"` */
  function FileName(n: int): string
  {
    Prefix + ZFill(IntToString(n), 3) + Suffix
  }

  /** `archivo.startswith("factura_") and archivo.endswith(".txt")` */
  predicate IsInvoiceName(name: string)
  {
    StartsWith(name, Prefix) && EndsWith(name, Suffix)
  }

  /** `int(archivo.split("_")[1].split(".")[0])`; None where that raises. */
  function NumberOf(name: string): Option<int>
  {
    var pieces := Split(name, '_');
    if |pieces| < 2 then None else ParseInt(Split(pieces[1], '.')[0])
  }

  /** The canonical name of invoice n is an invoice name, and it reads back as n. */
  lemma {:induction false} FileNameRoundTrip(n: int)
    ensures IsInvoiceName(FileName(n))
    ensures NumberOf(FileName(n)) == Some(n)
  {
    var z := ZFill(IntToString(n), 3);
    ZFillRoundTrip(n, 3);
    NumberTextChars(n);
    PrefixSuffix();
    Framed(Prefix, z, Suffix);
    NameFields("factura", z, "txt");
  }

  lemma {:induction false} PrefixSuffix()
    ensures Prefix == "factura" + ['_'] && Suffix == ['.'] + "txt"
    ensures '_' !in "factura" && '_' !in "txt" && '.' !in "txt"
  {
  }

  lemma {:induction false} Framed(p: string, z: string, s: string)
    ensures StartsWith(p + z + s, p) && EndsWith(p + z + s, s)
  {
    assert (p + z + s)[..|p|] == p;
    assert (p + z + s)[|p + z + s| - |s|..] == s;
  }

  /** The fields `split("_")[1].split(".")[0]` picks out of `head_z.tail`. */
  lemma {:induction false} NameFields(head: string, z: string, tail: string)
    requires '_' !in head && '_' !in z && '_' !in tail && '.' !in z
    ensures NumberOf(head + ['_'] + z + (['.'] + tail)) == ParseInt(z)
  {
    var rest := z + ['.'] + tail;
    assert head + ['_'] + z + (['.'] + tail) == head + ['_'] + rest;
    SplitAfterPiece(head, '_', rest);
    assert '_' !in rest by {
      assert forall i :: 0 <= i < |rest| ==> rest[i] == '.' || rest[i] in z || rest[i] in tail;
    }
    SplitNone(rest, '_');
    SplitAfterPiece(z, '.', tail);
  }

  /** The number in a canonical name holds digits, a sign and zeros only. */
  lemma {:induction false} NumberTextChars(n: int)
    ensures '_' !in ZFill(IntToString(n), 3) && '.' !in ZFill(IntToString(n), 3)
  {
    IntTextLacks(n, '_');
    IntTextLacks(n, '.');
    ZFillLacks(IntToString(n), 3, '_');
    ZFillLacks(IntToString(n), 3, '.');
  }

  lemma {:induction false} IntTextLacks(n: int, c: char)
    requires !IsDigit(c) && c != '-'
    ensures c !in IntToString(n)
  {
    if n < 0 {
      IntToStringChars(-n);
      assert IntToString(n) == Minus + IntToString(-n);
    } else {
      IntToStringChars(n);
    }
  }

  lemma {:induction false} ZFillLacks(s: string, w: nat, c: char)
    requires c != '0' && c !in s
    ensures c !in ZFill(s, w)
  {
    if |s| < w {
      var zeros := Repeat('0', w - |s|);
      assert c !in zeros;
      if s != [] && (s[0] == '-' || s[0] == '+') {
        assert c !in s[1..];
      }
    }
  }

  /** A name with four digits reads as invoice 1, yet it is not the canonical name of invoice 1. */
  lemma {:induction false} FourDigitAlias()
    ensures IsInvoiceName("factura_0001.txt") && NumberOf("factura_0001.txt") == Some(1)
    ensures FileName(1) == "factura_001.txt" != "factura_0001.txt"
  {
    AliasParts();
    Framed(Prefix, "0001", Suffix);
    NameFields("factura", "0001", "txt");
    LeadingZerosOne();
    CanonicalOne();
  }

  lemma {:induction false} AliasParts()
    ensures "factura_0001.txt" == Prefix + "0001" + Suffix
    ensures "factura_0001.txt" == "factura" + ['_'] + "0001" + (['.'] + "txt")
    ensures '_' !in "factura" && '_' !in "0001" && '_' !in "txt" && '.' !in "0001"
  {
  }

  lemma {:induction false} LeadingZerosOne()
    ensures ParseInt("0001") == Some(1)
  {
    ParseZeros(3, "1");
    assert Repeat('0', 3) + "1" == "0001";
  }

  lemma {:induction false} CanonicalOne()
    ensures FileName(1) == "factura_001.txt"
  {
    assert IntToString(1) == "1";
    assert Repeat('0', 2) == "00";
    assert ZFill("1", 3) == "001";
  }

  /** The numbers of the well-formed invoice names among `names`. */
  function NumbersIn(names: set<string>): set<int>
  {
    set k | k in names && IsInvoiceName(k) && NumberOf(k).Some? :: NumberOf(k).value
  }

  lemma {:induction false} NumbersInAdd(names: set<string>, k: string)
    ensures NumbersIn(names + {k}) == NumbersIn(names) + (if IsInvoiceName(k) && NumberOf(k).Some? then {NumberOf(k).value} else {})
  {
  }

  /** The largest number among the well-formed invoice names, None when there is none. */
  ghost function MaxNumber(names: set<string>): (r: Option<int>)
    ensures r.None? <==> NumbersIn(names) == {}
    ensures r.Some? ==> r.value in NumbersIn(names) && forall y :: y in NumbersIn(names) ==> y <= r.value
    decreases |names|
  {
    if names == {} then None
    else
      var k :| k in names;
      var rest := MaxNumber(names - {k});
      NumbersInAdd(names - {k}, k);
      assert (names - {k}) + {k} == names;
      if IsInvoiceName(k) && NumberOf(k).Some? && (rest.None? || rest.value < NumberOf(k).value)
      then Some(NumberOf(k).value)
      else rest
  }

  /** `max(numeros) + 1`, or 1 when there are no numbers. */
  ghost function NextNumberOf(names: set<string>): int
  {
    match MaxNumber(names)
    case None => 1
    case Some(m) => m + 1
  }

  /** The largest number is the one in use that no number in use exceeds. */
  lemma {:induction false} MaxNumberIs(names: set<string>, m: int)
    requires m in NumbersIn(names) && forall y :: y in NumbersIn(names) ==> y <= m
    ensures MaxNumber(names) == Some(m)
  {
    var r := MaxNumber(names);
    assert r.Some?;
    assert r.value <= m && m <= r.value;
  }

  /** The next number is above every number in use, so its canonical name is not in use. */
  lemma {:induction false} NextNumberFresh(names: set<string>)
    ensures forall m :: m in NumbersIn(names) ==> m < NextNumberOf(names)
    ensures FileName(NextNumberOf(names)) !in names
  {
    var n := NextNumberOf(names);
    FileNameRoundTrip(n);
    if FileName(n) in names {
      assert n in NumbersIn(names);
    }
  }

  /** Saving invoice n makes n + 1 the next number. */
  lemma {:induction false} NextNumberAfterSave(names: set<string>)
    ensures NextNumberOf(names + {FileName(NextNumberOf(names))}) == NextNumberOf(names) + 1
  {
    var n := NextNumberOf(names);
    var saved := names + {FileName(n)};
    NextNumberFresh(names);
    FileNameRoundTrip(n);
    NumbersInAdd(names, FileName(n));
    TopOfAdded(NumbersIn(names), NumbersIn(saved), n);
    MaxNumberIs(saved, n);
  }

  lemma {:induction false} TopOfAdded(before: set<int>, after: set<int>, n: int)
    requires after == before + {n}
    requires forall m :: m in before ==> m < n
    ensures n in after && forall y :: y in after ==> y <= n
  {
  }

  /**
   * Numbers are reused: when the newest invoice is deleted, the next save
   * takes its number again.
   */
  lemma {:induction false} NewestNumberReused(names: set<string>)
    ensures NextNumberOf((names + {FileName(NextNumberOf(names))}) - {FileName(NextNumberOf(names))}) == NextNumberOf(names)
  {
    NextNumberFresh(names);
    assert (names + {FileName(NextNumberOf(names))}) - {FileName(NextNumberOf(names))} == names;
  }

  /** What the listings show of one invoice: number, file name, path and total as text. */
  datatype InvoiceInfo = InvoiceInfo(number: int, file: string, path: string, total: string)

  /** Ascending by invoice number. */
  predicate SortedByNumber(s: seq<InvoiceInfo>)
  {
    forall i, j :: 0 <= i < j < |s| ==> s[i].number <= s[j].number
  }

  /** One entry put into place in a list sorted by number, after the entries with the same number. */
  function Insert(e: InvoiceInfo, s: seq<InvoiceInfo>): seq<InvoiceInfo>
  {
    if s == [] || e.number < s[0].number then [e] + s else [s[0]] + Insert(e, s[1..])
  }

  lemma {:induction false} InsertKeeps(e: InvoiceInfo, s: seq<InvoiceInfo>)
    ensures multiset(Insert(e, s)) == multiset(s) + multiset{e}
    decreases |s|
  {
    if s != [] && e.number >= s[0].number {
      InsertKeeps(e, s[1..]);
      assert s == [s[0]] + s[1..];
    }
  }

  lemma {:induction false} InsertSorted(e: InvoiceInfo, s: seq<InvoiceInfo>)
    requires SortedByNumber(s)
    ensures SortedByNumber(Insert(e, s))
    decreases |s|
  {
    if s != [] && e.number >= s[0].number {
      InsertSorted(e, s[1..]);
      var r := Insert(e, s[1..]);
      InsertHead(e, s[1..]);
      assert s[0].number <= r[0].number;
      forall i, j | 0 <= i < j < |[s[0]] + r|
        ensures ([s[0]] + r)[i].number <= ([s[0]] + r)[j].number
      {
        if i == 0 {
          assert ([s[0]] + r)[j] == r[j - 1];
        }
      }
    }
  }

  /** An insertion starts with the inserted entry or with the list's first entry. */
  lemma {:induction false} InsertHead(e: InvoiceInfo, s: seq<InvoiceInfo>)
    ensures Insert(e, s) != []
    ensures Insert(e, s)[0] == e || (s != [] && Insert(e, s)[0] == s[0])
  {
  }

  /** `sorted(entries, key=lambda x: x['numero'])`: the same entries, ascending by number. */
  method SortByNumber(entries: seq<InvoiceInfo>) returns (sorted: seq<InvoiceInfo>)
    ensures SortedByNumber(sorted)
    ensures multiset(sorted) == multiset(entries)
  {
    sorted := [];
    for i := 0 to |entries|
      invariant SortedByNumber(sorted)
      invariant multiset(sorted) == multiset(entries[..i])
    {
      InsertSorted(entries[i], sorted);
      InsertKeeps(entries[i], sorted);
      assert entries[..i + 1] == entries[..i] + [entries[i]];
      sorted := Insert(entries[i], sorted);
    }
    assert entries[..|entries|] == entries;
  }

  /** `f"factura_{numero:03d}_backup_{timestamp}.txt"`; for an int, `:03d` pads as `zfill(3)` does. */
  function BackupName(n: int, timestamp: string): string
  {
    Prefix + ZFill(IntToString(n), 3) + "_backup_" + timestamp + Suffix
  }

  /** `f"{carpeta_backup}/factura_{numero:03d}_backup_{timestamp}.txt"` */
  function BackupPath(folder: string, n: int, timestamp: string): string
  {
    folder + "/" + BackupName(n, timestamp)
  }

  /**
   * A backup made into the invoice directory is itself read as invoice n by
   * the listings, under a name other than the canonical one.
   */
  lemma {:induction false} BackupNameCounts(n: int, timestamp: string)
    ensures IsInvoiceName(BackupName(n, timestamp))
    ensures NumberOf(BackupName(n, timestamp)) == Some(n)
    ensures BackupName(n, timestamp) != FileName(n)
  {
    var z := ZFill(IntToString(n), 3);
    var rest := "backup_" + timestamp + Suffix;
    var middle := z + "_backup_" + timestamp;
    assert BackupName(n, timestamp) == Prefix + middle + Suffix;
    assert |BackupName(n, timestamp)| == |FileName(n)| + 8 + |timestamp|;
    Framed(Prefix, middle, Suffix);
    assert BackupName(n, timestamp) == "factura" + ['_'] + (z + ['_'] + rest) by {
      assert Prefix == "factura" + ['_'];
      assert middle + Suffix == z + ['_'] + rest;
    }
    NumberTextChars(n);
    ZFillRoundTrip(n, 3);
    SecondField("factura", z, rest);
  }

  /** The number is read from the second '_'-separated field, up to its first '.'. */
  lemma {:induction false} SecondField(head: string, z: string, rest: string)
    requires '_' !in head && '_' !in z && '.' !in z
    ensures NumberOf(head + ['_'] + (z + ['_'] + rest)) == ParseInt(z)
  {
    SplitAfterPiece(head, '_', z + ['_'] + rest);
    SplitAfterPiece(z, '_', rest);
    SplitNone(z, '.');
  }

  class InvoiceStore {
    /** The `cache/` directory: file name to text. */
    var files: map<string, string>
    /** Backup copies: path to text. */
    var backups: map<string, string>

    constructor(initial: map<string, string>)
      ensures files == initial && backups == map[]
    {
      files := initial;
      backups := map[];
    }

    /** `verificar_factura_existe(n)`: the canonical file of n is in the invoice directory. */
    predicate Exists(n: int): (b: bool)
      reads this
      ensures b <==> InfoOf(n).Some?
      ensures b ==> n in NumbersIn(files.Keys)
    {
      FileNameRoundTrip(n);
      FileName(n) in files
    }

    /** `obtener_info_factura(n)`: None for a missing invoice; its size and time are not modelled. */
    function InfoOf(n: int): Option<InvoiceInfo>
      reads this
    {
      if FileName(n) in files
      then Some(InvoiceInfo(n, FileName(n), CacheDir + FileName(n), TotalOf(Split(files[FileName(n)], '\n'))))
      else None
    }

    /** `obtener_siguiente_numero_factura`: one pass over the directory keeping the largest number. */
    method NextNumber() returns (n: int)
      ensures n == NextNumberOf(files.Keys)
    {
      var pending := files.Keys;
      ghost var seen: set<string> := {};
      var found := false;
      var best := 0;
      while pending != {}
        invariant seen + pending == files.Keys && seen !! pending
        invariant found <==> NumbersIn(seen) != {}
        invariant found ==> best in NumbersIn(seen) && forall y :: y in NumbersIn(seen) ==> y <= best
        decreases pending
      {
        var k :| k in pending;
        NumbersInAdd(seen, k);
        if IsInvoiceName(k) && NumberOf(k).Some? {
          var m := NumberOf(k).value;
          if !found || m > best {
            best := m;
          }
          found := true;
        }
        pending := pending - {k};
        seen := seen + {k};
      }
      assert seen == files.Keys;
      n := if found then best + 1 else 1;
      if found {
        MaxNumberIs(files.Keys, best);
      }
    }

    /** `guardar_factura`: the next number's file, never one already there, receives the rendered invoice. */
    method GuardarFactura(ps: seq<Product>, subtotal: int, igv: int, total: int) returns (path: string)
      modifies this
      ensures FileName(NextNumberOf(old(files).Keys)) !in old(files)
      ensures path == CacheDir + FileName(NextNumberOf(old(files).Keys))
      ensures files == old(files)[FileName(NextNumberOf(old(files).Keys)) := Render(ps, subtotal, igv, total, true)]
      ensures backups == old(backups)
    {
      var n := NextNumber();
      NextNumberFresh(files.Keys);
      var text := WriteInvoice(ps, subtotal, igv, total, true);
      files := files[FileName(n) := text];
      path := CacheDir + FileName(n);
    }

    /** `obtener_info_factura`, reading the total with the line scan. */
    method Info(n: int) returns (info: Option<InvoiceInfo>)
      ensures info == InfoOf(n)
    {
      if FileName(n) !in files {
        return None;
      }
      var total := ExtractTotal(files[FileName(n)]);
      info := Some(InvoiceInfo(n, FileName(n), CacheDir + FileName(n), total));
    }

    /**
     * `listar_todas_las_facturas`: the info of every invoice name whose
     * number has a canonical file, ascending by number.
     */
    method ListAll() returns (list: seq<InvoiceInfo>)
      ensures SortedByNumber(list)
      ensures forall e :: e in list ==> e.number in NumbersIn(files.Keys) && InfoOf(e.number) == Some(e)
      ensures forall m :: m in NumbersIn(files.Keys) && Exists(m) ==> exists e :: e in list && e.number == m
    {
      var pending := files.Keys;
      ghost var seen: set<string> := {};
      var found: seq<InvoiceInfo> := [];
      while pending != {}
        invariant seen + pending == files.Keys && seen !! pending
        invariant forall e :: e in found ==> e.number in NumbersIn(seen) && InfoOf(e.number) == Some(e)
        invariant forall m :: m in NumbersIn(seen) && Exists(m) ==> exists e :: e in found && e.number == m
        decreases pending
      {
        var k :| k in pending;
        NumbersInAdd(seen, k);
        if IsInvoiceName(k) && NumberOf(k).Some? {
          var info := Info(NumberOf(k).value);
          if info.Some? {
            found := found + [info.value];
          }
        }
        pending := pending - {k};
        seen := seen + {k};
      }
      assert seen == files.Keys;
      list := SortByNumber(found);
      forall e | e in list
        ensures e in found
      {
        assert e in multiset(list);
      }
      forall m | m in NumbersIn(files.Keys) && Exists(m)
        ensures exists e :: e in list && e.number == m
      {
        var e :| e in found && e.number == m;
        assert e in multiset(found);
      }
    }

    /** `open(ruta, 'w')` and the writes that follow: the named file now holds `text`, created or replaced. */
    method Overwrite(name: string, text: string)
      modifies this
      ensures files == old(files)[name := text]
      ensures backups == old(backups)
    {
      files := files[name := text];
    }

    /** `eliminar_factura(n)`: true exactly when the file was there; only that file goes. */
    method Delete(n: int) returns (ok: bool)
      modifies this
      ensures ok <==> FileName(n) in old(files)
      ensures files == old(files) - {FileName(n)}
      ensures backups == old(backups)
    {
      ok := FileName(n) in files;
      if ok {
        files := files - {FileName(n)};
      }
    }

    /**
     * `crear_backup_factura(n, folder)`: a copy under a time-stamped path.
     * The folder "cache" is the invoice directory itself, so there the copy
     * lands among the invoices; any other folder is a backup folder.
     */
    method Backup(n: int, folder: string, timestamp: string) returns (path: Option<string>)
      modifies this
      ensures FileName(n) !in old(files) ==> path == None && files == old(files) && backups == old(backups)
      ensures FileName(n) in old(files) ==> path == Some(BackupPath(folder, n, timestamp))
      ensures FileName(n) in old(files) && folder + "/" == CacheDir ==>
        files == old(files)[BackupName(n, timestamp) := old(files)[FileName(n)]] && backups == old(backups)
      ensures FileName(n) in old(files) && folder + "/" != CacheDir ==>
        files == old(files) && backups == old(backups)[BackupPath(folder, n, timestamp) := old(files)[FileName(n)]]
    {
      if FileName(n) !in files {
        return None;
      }
      var p := BackupPath(folder, n, timestamp);
      if folder + "/" == CacheDir {
        files := files[BackupName(n, timestamp) := files[FileName(n)]];
      } else {
        backups := backups[p := files[FileName(n)]];
      }
      path := Some(p);
    }
  }

  /**
   * The total listed for a freshly saved invoice is its rendered total,
   * provided no product name holds a capital 'S' or a newline.
   */
  lemma {:induction false} SavedInvoiceTotal(files: map<string, string>, ps: seq<Product>, subtotal: int, igv: int, total: int)
    requires forall i :: 0 <= i < |ps| ==> '\n' !in ps[i].name && 'S' !in ps[i].name
    ensures var n := NextNumberOf(files.Keys);
      TotalOf(Split(files[FileName(n) := Render(ps, subtotal, igv, total, true)][FileName(n)], '\n')) == FormatCents(total)
  {
    forall i | 0 <= i < |ps|
      ensures !Announces(ItemRow(ps[i], true))
    {
      RowWithoutS(ps[i], true);
    }
    ListedTotalOfRender(ps, subtotal, igv, total, true);
  }
}
