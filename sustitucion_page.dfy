/** The client-side substitution page (web/src/pages/Sustitucion.tsx): the
    user enters a base product and a list of alternatives, and the page
    picks the alternative whose score most exceeds the base's. */
module SustitucionPage {
  import opened Wrappers
  import opened Strings

  /** A product of the page; the numbers are what the inputs parsed to
      (`sostenibilidad.puntaje_global` is `puntajeGlobal`). */
  datatype Producto = Producto(nombre: string, energia: int, grasas: int, azucares: int,
                               proteinas: int, puntajeGlobal: int)

  /** The empty form the page starts from and resets to. */
  const Vacio: Producto := Producto("", 0, 0, 0, 0, 0)

  /** `proteinas * 0.4 - azucares * 0.3 + puntaje_global * 0.3`, in tenths. */
  function Score(p: Producto): int {
    4 * p.proteinas - 3 * p.azucares + 3 * p.puntajeGlobal
  }

  /** What the loop of `compararAlternativas` settles on: no index when no
      alternative scores strictly more than the base; otherwise the first
      index of the highest score, which beats the base. */
  predicate EsEleccion(base: Producto, alts: seq<Producto>, mejor: Option<nat>) {
    match mejor
    case None => forall j :: 0 <= j < |alts| ==> Score(alts[j]) <= Score(base)
    case Some(k) =>
      k < |alts| && Score(alts[k]) > Score(base)
      && (forall j :: 0 <= j < |alts| ==> Score(alts[j]) <= Score(alts[k]))
      && (forall j :: 0 <= j < k ==> Score(alts[j]) < Score(alts[k]))
  }

  /** The `for` loop of `compararAlternativas`, on indices: the best score so far starts
      at the base's, and an alternative replaces it only when it scores
      strictly more. */
  method ElegirMejor(base: Producto, alternativas: seq<Producto>) returns (mejor: Option<nat>)
    ensures EsEleccion(base, alternativas, mejor)
  {
    var mejorScore := Score(base);
    mejor := None;
    for i := 0 to |alternativas|
      invariant mejor.None? ==>
        mejorScore == Score(base) && forall j :: 0 <= j < i ==> Score(alternativas[j]) <= Score(base)
      invariant mejor.Some? ==>
        mejor.value < i && mejorScore == Score(alternativas[mejor.value]) && mejorScore > Score(base)
        && (forall j :: 0 <= j < i ==> Score(alternativas[j]) <= mejorScore)
        && (forall j :: 0 <= j < mejor.value ==> Score(alternativas[j]) < mejorScore)
    {
      var score := Score(alternativas[i]);
      if score > mejorScore {
        mejorScore := score;
        mejor := Some(i);
      }
    }
  }

  /** The choice is determined by the base and the list. */
  lemma EleccionUnica(base: Producto, alts: seq<Producto>, m1: Option<nat>, m2: Option<nat>)
    requires EsEleccion(base, alts, m1) && EsEleccion(base, alts, m2)
    ensures m1 == m2
  {
  }

  /** Why the alternative is better; only the three differences the message
      is built from, or the fixed text when there is none. */
  datatype Motivo = Diferencias(proteinas: int, azucares: int, sostenibilidad: int) | Mensaje(texto: string)

  const SinMejora: string := "No se encontró una alternativa claramente mejor."

  datatype Resultado = Resultado(productoBase: string, mejorAlternativa: string, motivo: Motivo)

  /** The result `compararAlternativas` records for a settled choice. */
  function Describir(base: Producto, alts: seq<Producto>, mejor: Option<nat>): Resultado
    requires mejor.Some? ==> mejor.value < |alts|
  {
    var nombreBase := if base.nombre == [] then "Desconocido" else base.nombre;
    match mejor
    case None => Resultado(nombreBase, "Ninguna", Mensaje(SinMejora))
    case Some(k) =>
      var alt := alts[k];
      Resultado(nombreBase, alt.nombre,
                Diferencias(alt.proteinas - base.proteinas, base.azucares - alt.azucares,
                            alt.puntajeGlobal - base.puntajeGlobal))
  }

  /** The page's state. */
  class Pagina {
    var productoBase: Producto
    var alternativas: seq<Producto>
    var nuevaAlt: Producto
    var resultado: Option<Resultado>

    /** Every listed alternative has a name that is not blank (one that
        does not trim to nothing). */
    ghost predicate Valid()
      reads this
    {
      forall k :: 0 <= k < |alternativas| ==> !AllWhitespace(alternativas[k].nombre)
    }

    constructor ()
      ensures Valid()
      ensures productoBase == Vacio && alternativas == [] && nuevaAlt == Vacio && resultado == None
    {
      productoBase := Vacio;
      alternativas := [];
      nuevaAlt := Vacio;
      resultado := None;
    }

    /** A blank name leaves everything as it was; otherwise the entered
        alternative is appended, as entered, and the form is cleared. */
    method AgregarAlternativa()
      requires Valid()
      modifies this`alternativas, this`nuevaAlt
      ensures Valid()
      ensures Trim(old(nuevaAlt).nombre) == [] ==>
        alternativas == old(alternativas) && nuevaAlt == old(nuevaAlt)
      ensures Trim(old(nuevaAlt).nombre) != [] ==>
        alternativas == old(alternativas) + [old(nuevaAlt)] && nuevaAlt == Vacio
    {
      var nombre := Trim(nuevaAlt.nombre);
      if nombre == [] {
        return;
      }
      alternativas := alternativas + [nuevaAlt];
      nuevaAlt := Vacio;
    }

    /** Compares the alternatives with the base and records the result. */
    method CompararAlternativas()
      requires Valid()
      modifies this`resultado
      ensures Valid()
      ensures exists m :: EsEleccion(productoBase, alternativas, m) &&
                          resultado == Some(Describir(productoBase, alternativas, m))
      ensures resultado.Some?
      ensures resultado.value.productoBase == if productoBase.nombre == [] then "Desconocido" else productoBase.nombre
      ensures (forall j :: 0 <= j < |alternativas| ==> Score(alternativas[j]) <= Score(productoBase)) ==>
        resultado.value.mejorAlternativa == "Ninguna" && resultado.value.motivo == Mensaje(SinMejora)
      ensures (exists j :: 0 <= j < |alternativas| && Score(alternativas[j]) > Score(productoBase)) ==>
        exists k :: 0 <= k < |alternativas| && EsEleccion(productoBase, alternativas, Some(k)) &&
                    resultado.value.mejorAlternativa == alternativas[k].nombre &&
                    resultado.value.motivo.Diferencias?
    {
      var mejor := ElegirMejor(productoBase, alternativas);
      var r := Describir(productoBase, alternativas, mejor);
      resultado := Some(r);
      assert EsEleccion(productoBase, alternativas, mejor) && resultado == Some(Describir(productoBase, alternativas, mejor));
      if mejor.Some? {
        var k := mejor.value;
        assert Score(alternativas[k]) > Score(productoBase);
        assert r.mejorAlternativa == alternativas[k].nombre && r.motivo.Diferencias?;
        assert EsEleccion(productoBase, alternativas, Some(k));
      } else {
        assert r.mejorAlternativa == "Ninguna" && r.motivo == Mensaje(SinMejora);
        assert forall j :: 0 <= j < |alternativas| ==> Score(alternativas[j]) <= Score(productoBase);
      }
    }
  }
}
