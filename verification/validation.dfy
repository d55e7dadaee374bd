/**
 * The input checks and money helpers of utils/validaciones.py.
 *
 * A validator receives whatever the page hands it, so its inputs are Python
 * values (`PyValue`); a float carries at most two decimals and is held as
 * cents.
 */
module Validation {
  import opened Wrappers
  import opened Text
  import opened Numerals

  /** A Python value: an int, a two-decimal float (in cents), a str, or None. */
  datatype PyValue = PyInt(i: int) | PyFloat(cents: int) | PyStr(s: string) | PyNone

  /** `isinstance(v, (int, float))` */
  predicate IsNumber(v: PyValue) {
    v.PyInt? || v.PyFloat?
  }

  /** The value of a number, in cents. */
  function Cents(v: PyValue): int
    requires IsNumber(v)
  {
    if v.PyInt? then v.i * 100 else v.cents
  }

  /** `not v` */
  predicate Falsy(v: PyValue) {
    match v
    case PyInt(i) => i == 0
    case PyFloat(c) => c == 0
    case PyStr(s) => s == []
    case PyNone => true
  }

  /** The dearest price accepted, S/. 10,000, in cents. */
  const MaxPriceCents := 1_000_000
  /** The largest quantity accepted. */
  const MaxQuantity := 999
  /** The largest amount `validar_monto` accepts, S/. 100,000, in cents. */
  const MaxAmountCents := 10_000_000

  /** `dato_valido(precio, cantidad)`: a guard chain that never raises. */
  function DatoValido(precio: PyValue, cantidad: PyValue): (ok: bool)
    ensures ok <==> IsNumber(precio) && cantidad.PyInt?
                    && 0 < Cents(precio) <= MaxPriceCents
                    && 0 < cantidad.i <= MaxQuantity
  {
    if !IsNumber(precio) then false
    else if !cantidad.PyInt? then false
    else if Cents(precio) <= 0 then false
    else if cantidad.i <= 0 then false
    else if Cents(precio) > MaxPriceCents then false
    else if cantidad.i > MaxQuantity then false
    else true
  }

  /** The boundary cases: a zero price, a cent over the limit, a quantity over 999, and the smallest valid entry. */
  lemma {:induction false} DatoValidoBoundaries()
    ensures !DatoValido(PyInt(0), PyInt(5))
    ensures !DatoValido(PyFloat(1_000_001), PyInt(1))
    ensures !DatoValido(PyInt(1), PyInt(1000))
    ensures DatoValido(PyInt(1), PyInt(1))
    ensures DatoValido(PyFloat(MaxPriceCents), PyInt(MaxQuantity))
    ensures !DatoValido(PyInt(1), PyFloat(100))
  {
  }

  /** `c.isalpha()` on a fixed alphabet: ASCII letters and the Spanish accented letters. */
  predicate IsLetter(c: char) {
    ('a' <= c <= 'z') || ('A' <= c <= 'Z') || c in "áéíóúÁÉÍÓÚñÑüÜ"
  }

  /** `any(c.isalpha() for c in s)` */
  predicate HasLetter(s: string) {
    exists i :: 0 <= i < |s| && IsLetter(s[i])
  }

  /** `validar_nombre_producto(nombre)` */
  function ValidarNombreProducto(nombre: PyValue): (ok: bool)
    ensures ok <==> nombre.PyStr? && 2 <= |Strip(nombre.s)| <= 50 && HasLetter(Strip(nombre.s))
  {
    if !nombre.PyStr? then false
    else
      var n := Strip(nombre.s);
      if n == [] then false
      else if |n| < 2 then false
      else if |n| > 50 then false
      else if !HasLetter(n) then false
      else true
  }

  /** `validar_numero_factura(numero)`: a str is first converted with `int`. */
  function ValidarNumeroFactura(numero: PyValue): (ok: bool)
    ensures numero.PyInt? ==> (ok <==> 1 <= numero.i <= 999)
    ensures numero.PyStr? ==> (ok <==> ParseInt(numero.s).Some? && 1 <= ParseInt(numero.s).value <= 999)
    ensures numero.PyFloat? || numero.PyNone? ==> !ok
  {
    match numero
    case PyStr(s) =>
      (match ParseInt(s)
       case None => false
       case Some(n) => !(n < 1 || n > 999))
    case PyInt(n) => !(n < 1 || n > 999)
    case _ => false
  }

  /** A valid invoice number is written with exactly three digits in a file name, and reads back unchanged. */
  lemma {:induction false} ValidNumberThreeDigits(n: int)
    requires ValidarNumeroFactura(PyInt(n))
    ensures |ZFill(IntToString(n), 3)| == 3
    ensures AllDigits(ZFill(IntToString(n), 3))
    ensures ParseInt(ZFill(IntToString(n), 3)) == Some(n)
  {
    var s := IntToString(n);
    IntToStringShort(n);
    IntToStringChars(n);
    if |s| < 3 {
      assert ZFill(s, 3) == Repeat('0', 3 - |s|) + s;
    }
    ZFillRoundTrip(n, 3);
  }

  /** `validar_monto(monto)`: a str is first converted with `float`. */
  function ValidarMonto(monto: PyValue): (ok: bool)
    ensures IsNumber(monto) ==> (ok <==> 0 <= Cents(monto) <= MaxAmountCents)
    ensures monto.PyStr? ==> (ok <==> ParseDecimal(monto.s).Some? && 0 <= ParseDecimal(monto.s).value <= MaxAmountCents)
    ensures monto.PyNone? ==> !ok
  {
    match monto
    case PyStr(s) =>
      (match ParseDecimal(s)
       case None => false
       case Some(c) => !(c < 0 || c > MaxAmountCents))
    case PyNone => false
    case _ => !(Cents(monto) < 0 || Cents(monto) > MaxAmountCents)
  }

  /** What evaluating a check raised. */
  datatype PyError = TypeError | AttributeError

  /** `{'valido': ..., 'errores': [...]}` */
  datatype Validation = Validation(valido: bool, errores: seq<string>)

  const NameEmpty := "El nombre del producto no puede estar vacío"
  const NameShort := "El nombre del producto debe tener al menos 2 caracteres"
  const NameLong := "El nombre del producto no puede tener más de 50 caracteres"
  const NameInvalid := "El nombre del producto no es válido"
  const PriceNotPositive := "El precio debe ser mayor que 0"
  const PriceTooHigh := "El precio no puede ser mayor que S/. 10,000"
  const PriceInvalid := "El precio no es válido"
  const QuantityNotPositive := "La cantidad debe ser mayor que 0"
  const QuantityTooHigh := "La cantidad no puede ser mayor que 999"
  const QuantityInvalid := "La cantidad no es válida"

  /**
   * The message recorded for the name: none when the name is valid, otherwise
   * the one for its first failing condition. Calling `strip` on a truthy
   * non-string raises AttributeError.
   */
  function NameMessages(nombre: PyValue): (r: Result<seq<string>, PyError>)
    ensures r.Success? ==> |r.value| <= 1 && (r.value == [] <==> ValidarNombreProducto(nombre))
    ensures r.Failure? <==> !ValidarNombreProducto(nombre) && !Falsy(nombre) && !nombre.PyStr?
  {
    if ValidarNombreProducto(nombre) then Success([])
    else if Falsy(nombre) then Success([NameEmpty])
    else if !nombre.PyStr? then Failure(AttributeError)
    else
      var n := Strip(nombre.s);
      if n == [] then Success([NameEmpty])
      else if |n| < 2 then Success([NameShort])
      else if |n| > 50 then Success([NameLong])
      else Success([NameInvalid])
  }

  /**
   * The message recorded for the price, checked as `dato_valido(precio, 1)`.
   * Comparing a non-number with 0 raises TypeError.
   */
  function PriceMessages(precio: PyValue): (r: Result<seq<string>, PyError>)
    ensures r.Success? ==> |r.value| <= 1 && (r.value == [] <==> DatoValido(precio, PyInt(1)))
    ensures r.Failure? <==> !IsNumber(precio)
  {
    if DatoValido(precio, PyInt(1)) then Success([])
    else if !IsNumber(precio) then Failure(TypeError)
    else if Cents(precio) <= 0 then Success([PriceNotPositive])
    else if Cents(precio) > MaxPriceCents then Success([PriceTooHigh])
    else Success([PriceInvalid])
  }

  /** The generic price message is never chosen: a number fails `dato_valido(precio, 1)` only by its range. */
  lemma {:induction false} PriceInvalidUnreachable(precio: PyValue)
    ensures PriceMessages(precio) != Success([PriceInvalid])
  {
  }

  /**
   * The message recorded for the quantity, checked as `dato_valido(1, cantidad)`.
   * A float quantity within range gets the generic message.
   */
  function QuantityMessages(cantidad: PyValue): (r: Result<seq<string>, PyError>)
    ensures r.Success? ==> |r.value| <= 1 && (r.value == [] <==> DatoValido(PyInt(1), cantidad))
    ensures r.Failure? <==> !IsNumber(cantidad)
  {
    if DatoValido(PyInt(1), cantidad) then Success([])
    else if !IsNumber(cantidad) then Failure(TypeError)
    else if Cents(cantidad) <= 0 then Success([QuantityNotPositive])
    else if Cents(cantidad) > MaxQuantity * 100 then Success([QuantityTooHigh])
    else Success([QuantityInvalid])
  }

  /**
   * `validar_producto_completo(nombre, precio, cantidad)`: clears `valido` and
   * appends one message for each failing field, name first, then price, then
   * quantity. The first check that raises ends the call.
   */
  method ValidarProductoCompleto(nombre: PyValue, precio: PyValue, cantidad: PyValue)
    returns (r: Result<Validation, PyError>)
    ensures r.Success? <==> NameMessages(nombre).Success? && PriceMessages(precio).Success?
                            && QuantityMessages(cantidad).Success?
    ensures r.Failure? ==> r.error == (if NameMessages(nombre).Failure? then AttributeError else TypeError)
    ensures r.Success? ==> r.value.errores == NameMessages(nombre).value + PriceMessages(precio).value
                                             + QuantityMessages(cantidad).value
    ensures r.Success? ==> (r.value.valido <==> r.value.errores == [])
    ensures r.Success? ==> (r.value.valido <==> ValidarNombreProducto(nombre) && DatoValido(precio, PyInt(1))
                                                && DatoValido(PyInt(1), cantidad))
    ensures r.Success? ==> |r.value.errores| <= 3
  {
    var valido := true;
    var errores: seq<string> := [];

    var nameMsg := NameMessages(nombre);
    if nameMsg.Failure? {
      return Failure(nameMsg.error);
    }
    if !ValidarNombreProducto(nombre) {
      valido := false;
      errores := errores + nameMsg.value;
    }

    var priceMsg := PriceMessages(precio);
    if priceMsg.Failure? {
      return Failure(priceMsg.error);
    }
    if !DatoValido(precio, PyInt(1)) {
      valido := false;
      errores := errores + priceMsg.value;
    }

    var quantityMsg := QuantityMessages(cantidad);
    if quantityMsg.Failure? {
      return Failure(quantityMsg.error);
    }
    if !DatoValido(PyInt(1), cantidad) {
      valido := false;
      errores := errores + quantityMsg.value;
    }

    return Success(Validation(valido, errores));
  }

  /** The characters `limpiar_y_validar_entrada` turns into spaces. */
  const Forbidden: seq<char> := ['\n', '\r', '\t', '|', '"', '\'']

  /** No forbidden character is left. */
  predicate Clean(s: string) {
    forall i :: 0 <= i < |s| ==> s[i] !in Forbidden
  }

  /** `s.replace(c, d)` for single characters. */
  function ReplaceChar(s: string, c: char, d: char): (r: string)
    ensures |r| == |s|
    ensures forall i :: 0 <= i < |s| ==> r[i] == if s[i] == c then d else s[i]
  {
    seq(|s|, i requires 0 <= i < |s| => if s[i] == c then d else s[i])
  }

  /** Every forbidden character replaced by a space. */
  function Blank(s: string): (r: string)
    ensures |r| == |s|
    ensures forall i :: 0 <= i < |s| ==> r[i] == if s[i] in Forbidden then ' ' else s[i]
  {
    seq(|s|, i requires 0 <= i < |s| => if s[i] in Forbidden then ' ' else s[i])
  }

  /** `'  ' in s` */
  predicate HasDoubleSpace(s: string) {
    exists i :: 0 <= i < |s| - 1 && s[i] == ' ' && s[i + 1] == ' '
  }

  /** `s.replace('  ', ' ')`: each non-overlapping pair of spaces, from the left, becomes one. */
  function CollapseOnce(s: string): (r: string)
    ensures |r| <= |s|
  {
    if |s| < 2 then s
    else if s[0] == ' ' && s[1] == ' ' then [' '] + CollapseOnce(s[2..])
    else [s[0]] + CollapseOnce(s[1..])
  }

  /** A pass over text with a double space makes it shorter, so the `while` loop ends. */
  lemma {:induction false} CollapseShortens(s: string)
    requires HasDoubleSpace(s)
    ensures |CollapseOnce(s)| < |s|
    decreases |s|
  {
    if !(s[0] == ' ' && s[1] == ' ') {
      var i :| 0 <= i < |s| - 1 && s[i] == ' ' && s[i + 1] == ' ';
      assert s[1..][i - 1] == ' ' && s[1..][i] == ' ';
      CollapseShortens(s[1..]);
    }
  }

  /** A pass only removes characters. */
  lemma {:induction false} CollapseChars(s: string)
    ensures forall c :: c in CollapseOnce(s) ==> c in s
    decreases |s|
  {
    if |s| >= 2 {
      if s[0] == ' ' && s[1] == ' ' {
        CollapseChars(s[2..]);
        assert forall c :: c in s[2..] ==> c in s;
      } else {
        CollapseChars(s[1..]);
        assert forall c :: c in s[1..] ==> c in s;
      }
    }
  }

  /** Every run of spaces shortened to a single space: what repeating `CollapseOnce` converges to. */
  function Squeeze(s: string): string
  {
    if |s| < 2 then s
    else if s[0] == ' ' && s[1] == ' ' then Squeeze(s[1..])
    else [s[0]] + Squeeze(s[1..])
  }

  /** One step of `Squeeze` on text that starts with the two characters a, b. */
  lemma {:induction false} SqueezeStep(a: char, b: char, rest: string)
    ensures Squeeze([a, b] + rest) ==
            if a == ' ' && b == ' ' then Squeeze([b] + rest) else [a] + Squeeze([b] + rest)
  {
    var s := [a, b] + rest;
    assert s[0] == a && s[1] == b;
    assert s[1..] == [b] + rest;
  }

  /** One step of `CollapseOnce` on text that starts with the two characters a, b. */
  lemma {:induction false} CollapseStep(a: char, b: char, rest: string)
    ensures CollapseOnce([a, b] + rest) ==
            if a == ' ' && b == ' ' then [' '] + CollapseOnce(rest) else [a] + CollapseOnce([b] + rest)
  {
    var s := [a, b] + rest;
    assert s[0] == a && s[1] == b;
    assert s[1..] == [b] + rest;
    assert s[2..] == rest;
  }

  /** Squeezing after a collapse pass gives what squeezing alone gives, whatever character comes first. */
  lemma {:induction false} SqueezeAfterCollapse(c: char, t: string)
    ensures Squeeze([c] + CollapseOnce(t)) == Squeeze([c] + t)
    decreases |t|, 1
  {
    if |t| >= 2 {
      assert t == [t[0], t[1]] + t[2..];
      if t[0] == ' ' && t[1] == ' ' {
        SqueezeAfterCollapsePair(c, t[2..]);
      } else {
        SqueezeAfterCollapseOther(c, t[0], t[1], t[2..]);
      }
    }
  }

  lemma {:induction false} SqueezeAfterCollapsePair(c: char, u: string)
    ensures Squeeze([c] + CollapseOnce([' ', ' '] + u)) == Squeeze([c] + ([' ', ' '] + u))
    decreases |u| + 2, 0
  {
    CollapseStep(' ', ' ', u);
    calc {
      Squeeze([c] + CollapseOnce([' ', ' '] + u));
      { assert [c] + CollapseOnce([' ', ' '] + u) == [c, ' '] + CollapseOnce(u); }
      Squeeze([c, ' '] + CollapseOnce(u));
      { SqueezeStep(c, ' ', CollapseOnce(u)); }
      if c == ' ' then Squeeze([' '] + CollapseOnce(u)) else [c] + Squeeze([' '] + CollapseOnce(u));
      { SqueezeAfterCollapse(' ', u); }
      if c == ' ' then Squeeze([' '] + u) else [c] + Squeeze([' '] + u);
      { SqueezeStep(' ', ' ', u); assert [' '] + ([' '] + u) == [' ', ' '] + u; }
      if c == ' ' then Squeeze([' '] + ([' '] + u)) else [c] + Squeeze([' '] + ([' '] + u));
      { SqueezeStep(c, ' ', [' '] + u); }
      Squeeze([c, ' '] + ([' '] + u));
      { assert [c] + ([' ', ' '] + u) == [c, ' '] + ([' '] + u); }
      Squeeze([c] + ([' ', ' '] + u));
    }
  }

  lemma {:induction false} SqueezeAfterCollapseOther(c: char, a: char, b: char, u: string)
    requires !(a == ' ' && b == ' ')
    ensures Squeeze([c] + CollapseOnce([a, b] + u)) == Squeeze([c] + ([a, b] + u))
    decreases |u| + 2, 0
  {
    var v := [b] + u;
    CollapseStep(a, b, u);
    calc {
      Squeeze([c] + CollapseOnce([a, b] + u));
      { assert [c] + CollapseOnce([a, b] + u) == [c, a] + CollapseOnce(v); }
      Squeeze([c, a] + CollapseOnce(v));
      { SqueezeStep(c, a, CollapseOnce(v)); }
      if c == ' ' && a == ' ' then Squeeze([a] + CollapseOnce(v)) else [c] + Squeeze([a] + CollapseOnce(v));
      { SqueezeAfterCollapse(a, v); }
      if c == ' ' && a == ' ' then Squeeze([a] + v) else [c] + Squeeze([a] + v);
      { SqueezeStep(c, a, v); }
      Squeeze([c, a] + v);
      { assert [c] + ([a, b] + u) == [c, a] + v; }
      Squeeze([c] + ([a, b] + u));
    }
  }

  /** One pass of `replace('  ', ' ')` does not change the squeezed text. */
  lemma {:induction false} SqueezeCollapse(s: string)
    ensures Squeeze(CollapseOnce(s)) == Squeeze(s)
  {
    if |s| >= 2 {
      if s[0] == ' ' && s[1] == ' ' {
        SqueezeAfterCollapse(' ', s[2..]);
        assert s[1..] == [' '] + s[2..];
      } else {
        SqueezeAfterCollapse(s[0], s[1..]);
        assert s == [s[0]] + s[1..];
      }
    }
  }

  /** Text without a double space is already squeezed. */
  lemma {:induction false} SqueezeFixed(s: string)
    requires !HasDoubleSpace(s)
    ensures Squeeze(s) == s
    decreases |s|
  {
    if |s| >= 2 {
      assert !(s[0] == ' ' && s[1] == ' ');
      assert !HasDoubleSpace(s[1..]) by {
        forall i | 0 <= i < |s| - 2
          ensures !(s[1..][i] == ' ' && s[1..][i + 1] == ' ')
        {
          assert s[1..][i] == s[i + 1] && s[1..][i + 1] == s[i + 2];
        }
      }
      SqueezeFixed(s[1..]);
    }
  }

  lemma {:induction false} BlankClean(s: string)
    ensures Clean(Blank(s))
  {
    assert ' ' !in Forbidden;
  }

  lemma {:induction false} CollapseClean(s: string)
    requires Clean(s)
    ensures Clean(CollapseOnce(s))
  {
    var r := CollapseOnce(s);
    CollapseChars(s);
    forall i | 0 <= i < |r|
      ensures r[i] !in Forbidden
    {
      assert r[i] in r;
      var j :| 0 <= j < |s| && s[j] == r[i];
    }
  }

  /**
   * `limpiar_y_validar_entrada(entrada)`: strip, replace each forbidden
   * character by a space, then replace double spaces until none is left.
   * A non-string yields "".
   */
  method LimpiarYValidarEntrada(entrada: PyValue) returns (out: string)
    ensures !entrada.PyStr? ==> out == []
    ensures entrada.PyStr? ==> out == Squeeze(Blank(Strip(entrada.s)))
    ensures Clean(out)
    ensures !HasDoubleSpace(out)
  {
    if !entrada.PyStr? {
      return [];
    }
    var e := Strip(entrada.s);
    ghost var stripped := e;
    for k := 0 to |Forbidden|
      invariant |e| == |stripped|
      invariant forall i :: 0 <= i < |e| ==> e[i] == if stripped[i] in Forbidden[..k] then ' ' else stripped[i]
    {
      e := ReplaceChar(e, Forbidden[k], ' ');
      assert Forbidden[..k + 1] == Forbidden[..k] + [Forbidden[k]];
    }
    assert Forbidden[..|Forbidden|] == Forbidden;
    assert e == Blank(stripped);
    BlankClean(stripped);
    ghost var blanked := e;
    while HasDoubleSpace(e)
      invariant Squeeze(e) == Squeeze(blanked)
      invariant Clean(e)
      decreases |e|
    {
      SqueezeCollapse(e);
      CollapseClean(e);
      CollapseShortens(e);
      e := CollapseOnce(e);
    }
    SqueezeFixed(e);
    out := e;
  }

  /** Stripping comes before the replacement, so a leading delimiter leaves a leading space. */
  lemma {:induction false} SanitisedLeadingPipe()
    ensures Squeeze(Blank(Strip("|abc"))) == " abc"
  {
    StripOfStripped("|abc");
    assert Blank("|abc") == " abc";
    assert !HasDoubleSpace(" abc");
    SqueezeFixed(" abc");
  }

  /** `f"S/. {float(precio):.2f}"`, or "S/. 0.00" when `float` raises. */
  function FormatearPrecio(precio: PyValue): (r: string)
    ensures StartsWith(r, "S/. ")
    ensures IsNumber(precio) ==> ParseDecimal(r[4..]) == Some(Cents(precio))
    ensures IsNumber(precio) ==> r[4..] == FormatCents(Cents(precio))
    ensures precio.PyStr? && ParseDecimal(precio.s).Some? ==> r[4..] == FormatCents(ParseDecimal(precio.s).value)
    ensures precio.PyStr? && ParseDecimal(precio.s).Some? ==> ParseDecimal(r[4..]) == ParseDecimal(precio.s)
    ensures precio.PyNone? ==> r == "S/. 0.00"
    ensures precio.PyStr? && ParseDecimal(precio.s).None? ==> r == "S/. 0.00"
    ensures |r| >= 8 && TwoDecimals(r)
  {
    var c := match precio
      case PyStr(s) => ParseDecimal(s)
      case PyNone => None
      case _ => Some(Cents(precio));
    var a := if c.Some? then c.value else 0;
    FormatCentsRoundTrip(a);
    FormatCentsTwoDecimals(a);
    TwoDecimalsAfter("S/. ", FormatCents(a));
    FormatCentsZero();
    var r := "S/. " + FormatCents(a);
    assert r[4..] == FormatCents(a);
    r
  }

  /** The IGV rate, 18%. */
  const IgvRate: real := 0.18

  /** `float(v)` as an exact real, None where it raises. */
  function ToReal(v: PyValue): Option<real>
  {
    match v
    case PyInt(i) => Some(i as real)
    case PyFloat(c) => Some(c as real / 100.0)
    case PyStr(s) => if ParseDecimal(s).Some? then Some(ParseDecimal(s).value as real / 100.0) else None
    case PyNone => None
  }

  /** `calcular_igv(subtotal, porcentaje_igv)`: the subtotal times the rate, 0.0 when conversion fails. */
  function CalcularIgv(subtotal: PyValue, porcentaje: real): (igv: real)
    ensures ToReal(subtotal).None? ==> igv == 0.0
  {
    match ToReal(subtotal)
    case Some(s) => s * porcentaje
    case None => 0.0
  }

  /** `calcular_total_con_igv(subtotal, porcentaje_igv)`: the pair (igv, total). */
  function CalcularTotalConIgv(subtotal: PyValue, porcentaje: real): (r: (real, real))
    ensures r.0 == CalcularIgv(subtotal, porcentaje)
    ensures ToReal(subtotal).Some? ==> r.1 - r.0 == ToReal(subtotal).value
    ensures ToReal(subtotal).None? ==> r == (0.0, 0.0)
  {
    match ToReal(subtotal)
    case Some(s) =>
      var igv := CalcularIgv(subtotal, porcentaje);
      (igv, s + igv)
    case None => (0.0, 0.0)
  }

  /** At the default rate the total is 118% of the subtotal and the IGV 18% of it. */
  lemma {:induction false} TotalConIgvDefaultRate(subtotal: PyValue)
    requires ToReal(subtotal).Some?
    ensures CalcularTotalConIgv(subtotal, IgvRate).1 == ToReal(subtotal).value * 1.18
    ensures CalcularTotalConIgv(subtotal, IgvRate).0 * 100.0 == ToReal(subtotal).value * 18.0
  {
  }
}
