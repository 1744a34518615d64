/** The client-side shopping-list page (web/src/pages/Mochila.tsx): a form
    whose numeric fields accept only what `soloNumeros` lets through, and a
    button that appends the entered product to the list. */
module MochilaPage {
  import opened Wrappers
  import opened Strings

  predicate IsDigit(c: char) {
    '0' <= c <= '9'
  }

  predicate AllDigits(s: string) {
    forall k :: 0 <= k < |s| ==> IsDigit(s[k])
  }

  /** Length of the longest run of digits at the start of `s`. */
  function DigitRun(s: string): (k: nat)
    ensures k <= |s| && AllDigits(s[..k]) && (k == |s| || !IsDigit(s[k]))
  {
    if s == [] || !IsDigit(s[0]) then 0
    else
      var k := DigitRun(s[1..]);
      assert s[..k + 1] == [s[0]] + s[1..][..k];
      k + 1
  }

  /** The alternative `\d+(\.\d*)?` of the pattern. The digit run can be
      taken greedily: what follows it must be the end or a '.', neither of
      which is a digit. */
  predicate EnteroConFraccion(s: string) {
    var k := DigitRun(s);
    0 < k && (k == |s| || (s[k] == '.' && AllDigits(s[k + 1..])))
  }

  /** The alternative `\.\d*` of the pattern. */
  predicate SoloFraccion(s: string) {
    0 < |s| && s[0] == '.' && AllDigits(s[1..])
  }

  /** `soloNumeros`: the whole value matches `^(\d+(\.\d*)?|\.\d*)?$`. */
  predicate SoloNumeros(valor: string) {
    valor == [] || EnteroConFraccion(valor) || SoloFraccion(valor)
  }

  function DotCount(s: string): nat {
    if s == [] then 0 else (if s[0] == '.' then 1 else 0) + DotCount(s[1..])
  }

  predicate DigitsAndDots(s: string) {
    forall k :: 0 <= k < |s| ==> IsDigit(s[k]) || s[k] == '.'
  }

  lemma {:induction false} DotCountConcat(a: string, b: string)
    ensures DotCount(a + b) == DotCount(a) + DotCount(b)
    decreases |a|
  {
    if a == [] {
      assert a + b == b;
    } else {
      assert (a + b)[1..] == a[1..] + b;
      DotCountConcat(a[1..], b);
    }
  }

  lemma {:induction false} DotCountOfDigits(s: string)
    requires DigitsAndDots(s)
    ensures DotCount(s) == 0 <==> AllDigits(s)
    decreases |s|
  {
    if s != [] {
      DotCountOfDigits(s[1..]);
      if AllDigits(s[1..]) && IsDigit(s[0]) {
        assert AllDigits(s) by {
          forall k | 0 <= k < |s| ensures IsDigit(s[k]) {
            if k > 0 { assert s[k] == s[1..][k - 1]; }
          }
        }
      }
    }
  }

  /** Text that `soloNumeros` accepts is made of digits and at most one '.'. */
  lemma SoloNumerosSoloDigitos(s: string)
    requires SoloNumeros(s)
    ensures DigitsAndDots(s) && DotCount(s) <= 1
  {
    if s == [] {
      return;
    }
    var k := DigitRun(s);
    if k == |s| {
      assert s[..k] == s;
      DotCountOfDigits(s);
      return;
    }
    var a, b := s[..k], s[k + 1..];
    assert s[k] == '.' && AllDigits(b) by {
      if !EnteroConFraccion(s) {
        assert SoloFraccion(s) && k == 0;
      }
    }
    assert s == a + [s[k]] + b;
    DotCountConcat(a + [s[k]], b);
    DotCountConcat(a, [s[k]]);
    DotCountOfDigits(a);
    DotCountOfDigits(b);
    assert DigitsAndDots(s) by {
      forall j | 0 <= j < |s| ensures IsDigit(s[j]) || s[j] == '.' {
        if j < k { assert s[j] == a[j]; }
        else if j > k { assert s[j] == b[j - k - 1]; }
      }
    }
  }

  /** Text made of digits and at most one '.' is accepted by `soloNumeros`. */
  lemma DigitosSonSoloNumeros(s: string)
    requires DigitsAndDots(s) && DotCount(s) <= 1
    ensures SoloNumeros(s)
  {
    if s == [] {
      return;
    }
    var k := DigitRun(s);
    if k == |s| {
      return;
    }
    var a, b := s[..k], s[k + 1..];
    assert s == a + [s[k]] + b;
    DotCountConcat(a + [s[k]], b);
    DotCountConcat(a, [s[k]]);
    assert DotCount(b) == 0;
    assert DigitsAndDots(b) by {
      forall j | 0 <= j < |b| ensures IsDigit(b[j]) || b[j] == '.' {
        assert b[j] == s[k + 1 + j];
      }
    }
    DotCountOfDigits(b);
    if k == 0 {
      assert SoloFraccion(s);
    } else {
      assert EnteroConFraccion(s);
    }
  }

  /** `soloNumeros` accepts exactly the strings made of digits and at most
      one '.': the empty string, digit strings, digits followed by '.' and
      optional digits, and '.' followed by digits; it rejects a second '.'
      and anything that is neither a digit nor '.'. */
  lemma SoloNumerosIff(s: string)
    ensures SoloNumeros(s) <==> DigitsAndDots(s) && DotCount(s) <= 1
  {
    if SoloNumeros(s) {
      SoloNumerosSoloDigitos(s);
    }
    if DigitsAndDots(s) && DotCount(s) <= 1 {
      DigitosSonSoloNumeros(s);
    }
  }

  // ---------------------------------------------------------------------
  // parseFloat on the strings the form holds

  /** A finite number `digitos / 10^escala`. */
  datatype Decimal = Decimal(digitos: nat, escala: nat)

  const Cero: Decimal := Decimal(0, 0)

  /** The digits of `s` read as one integer, ignoring the '.'. */
  function DigitsValue(s: string): nat
    decreases |s|
  {
    if s == [] then 0
    else
      var init, last := s[..|s| - 1], s[|s| - 1];
      if IsDigit(last) then 10 * DigitsValue(init) + (last as int - '0' as int) else DigitsValue(init)
  }

  function DigitCount(s: string): nat {
    if s == [] then 0 else (if IsDigit(s[0]) then 1 else 0) + DigitCount(s[1..])
  }

  /** How many digits follow the first '.'. */
  function FractionDigits(s: string): nat {
    if s == [] then 0 else if s[0] == '.' then DigitCount(s[1..]) else FractionDigits(s[1..])
  }

  lemma {:induction false} NoDigitsAreDots(s: string)
    requires DigitsAndDots(s) && DigitCount(s) == 0
    ensures DotCount(s) == |s|
    decreases |s|
  {
    if s != [] {
      NoDigitsAreDots(s[1..]);
    }
  }

  /** `parseFloat` on a value `soloNumeros` accepted; `None` is NaN, what
      JavaScript gives for "" and "." (the strings without a digit). */
  function ParseFloat(s: string): (n: Option<Decimal>)
    requires SoloNumeros(s)
    ensures n.None? <==> s == [] || s == "."
  {
    SoloNumerosIff(s);
    assert DigitCount(".") == 0 by { assert "."[1..] == []; }
    if DigitCount(s) == 0 then
      NoDigitsAreDots(s);
      assert |s| == 1 ==> s == [s[0]] && s[0] == '.';
      None
    else
      Some(Decimal(DigitsValue(s), FractionDigits(s)))
  }

  /** `parseFloat(x) || 0`: NaN and 0 both become 0. */
  function OrZero(n: Option<Decimal>): Decimal {
    match n
    case None => Cero
    case Some(d) => if d.digitos == 0 then Cero else d
  }

  /** `parseFloat(x) <= 0`; NaN compares false. */
  predicate NoPositivo(n: Option<Decimal>) {
    n.Some? && n.value.digitos == 0
  }

  lemma {:induction false} DigitsValueZero(s: string)
    ensures DigitsValue(s) == 0 <==> forall k :: 0 <= k < |s| && IsDigit(s[k]) ==> s[k] == '0'
    decreases |s|
  {
    if s != [] {
      var init := s[..|s| - 1];
      DigitsValueZero(init);
      assert forall k :: 0 <= k < |init| ==> init[k] == s[k];
    }
  }

  // ---------------------------------------------------------------------
  // The page

  /** The entry form; every field holds text as typed
      (`sostenibilidad.puntaje_global` is `sostenibilidad`). */
  datatype Formulario = Formulario(nombre: string, precio: string, proteinas: string, sostenibilidad: string)

  /** The form the page starts from and resets to. */
  const FormularioInicial: Formulario := Formulario("", "", "", "50")

  datatype ProductoLista = ProductoLista(nombre: string, precio: Decimal, proteinas: Decimal, sostenibilidad: Decimal)

  predicate FormularioNumerico(f: Formulario) {
    SoloNumeros(f.precio) && SoloNumeros(f.proteinas) && SoloNumeros(f.sostenibilidad)
  }

  /** The guard of `agregarProducto` passes: the name is not empty and the price
      does not parse to a number at most 0. */
  predicate Acepta(f: Formulario)
    requires SoloNumeros(f.precio)
  {
    f.nombre != [] && !NoPositivo(ParseFloat(f.precio))
  }

  /** The entry appended for an accepted form. The guard tests the name
      before trimming, so a name made only of blanks is let through and
      stored empty. */
  function NuevoProducto(f: Formulario): (p: ProductoLista)
    requires FormularioNumerico(f)
    ensures p.nombre == [] <==> AllWhitespace(f.nombre)
    ensures p.precio.digitos != 0 ==> Some(p.precio) == ParseFloat(f.precio)
  {
    ProductoLista(Trim(f.nombre), OrZero(ParseFloat(f.precio)), OrZero(ParseFloat(f.proteinas)),
                  OrZero(ParseFloat(f.sostenibilidad)))
  }

  /** The guard keeps out a price of zero written with digits ("0",
      "0.00"), but lets through a price field with no digit ("" or "."),
      which parses to NaN and is then stored as 0. So an accepted entry has
      price 0 exactly when its price field holds no digit. */
  lemma PrecioAceptado(f: Formulario)
    requires FormularioNumerico(f) && Acepta(f)
    ensures NuevoProducto(f).precio.digitos == 0 <==> f.precio == [] || f.precio == "."
  {
    var n := ParseFloat(f.precio);
    if n.Some? {
      assert n.value.digitos != 0;
    }
  }

  /** The guard as a statement about the typed text: it rejects an empty
      name, and a price whose digits are all '0'. */
  lemma AceptaIff(f: Formulario)
    requires SoloNumeros(f.precio)
    ensures Acepta(f) <==>
      f.nombre != [] &&
      (f.precio == [] || f.precio == "." || exists k :: 0 <= k < |f.precio| && '1' <= f.precio[k] <= '9')
  {
    DigitsValueZero(f.precio);
    var n := ParseFloat(f.precio);
    if n.Some? && n.value.digitos != 0 {
      var k :| 0 <= k < |f.precio| && IsDigit(f.precio[k]) && f.precio[k] != '0';
      assert '1' <= f.precio[k] <= '9';
    }
  }

  /** The numeric inputs of the form. */
  datatype Campo = Precio | Proteinas | Sostenibilidad

  class Pagina {
    var productos: seq<ProductoLista>
    var nuevo: Formulario
    var presupuesto: string

    /** Every numeric input holds a value `soloNumeros` accepts. */
    ghost predicate Valid()
      reads this
    {
      FormularioNumerico(nuevo) && SoloNumeros(presupuesto)
    }

    constructor ()
      ensures Valid()
      ensures productos == [] && nuevo == FormularioInicial && presupuesto == []
    {
      productos := [];
      nuevo := FormularioInicial;
      presupuesto := [];
      assert EnteroConFraccion("50") by {
        assert DigitRun("50") == 2 by {
          assert "50"[1..] == "0" && "0"[1..] == [];
        }
      }
    }

    /** Typing in a numeric input: the new text is kept only when
        `soloNumeros` accepts it. */
    method EditarCampo(campo: Campo, val: string)
      requires Valid()
      modifies this`nuevo
      ensures Valid()
      ensures !SoloNumeros(val) ==> nuevo == old(nuevo)
      ensures SoloNumeros(val) ==> nuevo == match campo
        case Precio => old(nuevo).(precio := val)
        case Proteinas => old(nuevo).(proteinas := val)
        case Sostenibilidad => old(nuevo).(sostenibilidad := val)
    {
      if SoloNumeros(val) {
        match campo
        case Precio => nuevo := nuevo.(precio := val);
        case Proteinas => nuevo := nuevo.(proteinas := val);
        case Sostenibilidad => nuevo := nuevo.(sostenibilidad := val);
      }
    }

    /** Typing in the budget input, under the same rule. */
    method EditarPresupuesto(val: string)
      requires Valid()
      modifies this`presupuesto
      ensures Valid()
      ensures presupuesto == if SoloNumeros(val) then val else old(presupuesto)
    {
      if SoloNumeros(val) {
        presupuesto := val;
      }
    }

    /** `agregarProducto`: a rejected form changes nothing; an accepted one
        appends one entry, with the name trimmed and each number parsed
        (NaN stored as 0), after the earlier entries, and resets the form. */
    method AgregarProducto()
      requires Valid()
      modifies this`productos, this`nuevo
      ensures Valid()
      ensures !Acepta(old(nuevo)) ==> productos == old(productos) && nuevo == old(nuevo)
      ensures Acepta(old(nuevo)) ==>
        productos == old(productos) + [NuevoProducto(old(nuevo))] && nuevo == FormularioInicial
    {
      if nuevo.nombre == [] || NoPositivo(ParseFloat(nuevo.precio)) {
        return;
      }
      productos := productos + [NuevoProducto(nuevo)];
      nuevo := FormularioInicial;
      assert EnteroConFraccion("50") by {
        assert DigitRun("50") == 2 by {
          assert "50"[1..] == "0" && "0"[1..] == [];
        }
      }
    }
  }
}
