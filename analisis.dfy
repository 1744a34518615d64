/** The list-level handlers of api/src/routes/analisis.js:
    POST /mochila (validate, convert the products, run the knapsack table,
    walk back through it, reverse and total the choice) and
    POST /sustitucion (filter similar alternatives, score them, sort them
    by score and keep the best three). */
module Analisis {
  import opened Wrappers
  import opened Strings
  import opened Knapsack
  import opened Sequences

  /** The client-error (400) outcomes of the handlers. */
  datatype ErrorPeticion = ListaInvalida | PresupuestoInvalido | FaltaProductoOAlternativas

  function Mensaje(e: ErrorPeticion): string {
    match e
    case ListaInvalida => "Debe incluir una lista de productos válida"
    case PresupuestoInvalido => "Debe incluir un presupuesto mayor a 0"
    case FaltaProductoOAlternativas => "Debe incluir el producto base y una lista de alternativas"
  }

  // =====================================================================
  // POST /mochila

  /** A product as it arrives in the request body; `None` is a missing
      field (`sostenibilidad.puntaje_global` is `puntajeGlobal`). */
  datatype Producto = Producto(nombre: string, precio: Option<nat>, proteinas: Option<int>, puntajeGlobal: Option<int>)

  /** A product after the defaults are applied. */
  datatype ItemLista = ItemLista(nombre: string, precio: nat, proteinas: int, sostenibilidad: int)

  /** `p.precio || 1000`. This is `Wrappers.NumberOr` at type `nat`: the
      price stays a natural number because it indexes the knapsack
      table, and `NumberOr` yields an `int`. */
  function PrecioOr1000(o: Option<nat>): nat {
    match o
    case None => 1000
    case Some(v) => if v == 0 then 1000 else v
  }

  /** The conversion of one request product: a missing or zero price
      becomes 1000, missing proteins 0, a missing or zero sustainability
      score 50. Every converted price is positive. */
  function Convertir(p: Producto): (it: ItemLista)
    ensures it.nombre == p.nombre && it.precio > 0
    ensures p.precio.Some? && p.precio.value > 0 ==> it.precio == p.precio.value
    ensures p.precio.None? || p.precio.value == 0 ==> it.precio == 1000
  {
    ItemLista(p.nombre, PrecioOr1000(p.precio), NumberOr(p.proteinas, 0), NumberOr(p.puntajeGlobal, 50))
  }

  /** `productos.map(...)`: one item per product, in order, each under
      its product's name and with a positive price, a positive request
      price being kept. */
  function ConvertirTodos(ps: seq<Producto>): (items: seq<ItemLista>)
    ensures |items| == |ps|
    ensures forall k :: 0 <= k < |ps| ==> items[k].nombre == ps[k].nombre && items[k].precio > 0
    ensures forall k :: 0 <= k < |ps| && ps[k].precio.Some? && ps[k].precio.value > 0 ==>
      items[k].precio == ps[k].precio.value
  {
    seq(|ps|, k requires 0 <= k < |ps| => Convertir(ps[k]))
  }

  /** The combined weight `proteinas * 2 + sostenibilidad`. */
  function Valor(it: ItemLista): int {
    it.proteinas * 2 + it.sostenibilidad
  }

  /** The items as the knapsack sees them: price and combined weight.
      Positive prices stay positive, so the table's walk applies. */
  function ToKnapsack(items: seq<ItemLista>): (ks: seq<Item>)
    ensures |ks| == |items|
    ensures (forall k :: 0 <= k < |items| ==> items[k].precio > 0) ==> PositivePrices(ks)
  {
    seq(|items|, k requires 0 <= k < |items| => Item(items[k].precio, Valor(items[k])))
  }

  /** Row `i` of the table sees exactly the first `i` items. */
  lemma ToKnapsackPrefijo(items: seq<ItemLista>, i: nat)
    requires i <= |items|
    ensures ToKnapsack(items)[..i] == ToKnapsack(items[..i])
  {
  }

  datatype Totales = Totales(precio: int, proteinas: int, sostenibilidad: int)

  /** Field-wise sum of two totals. */
  function Suma(a: Totales, b: Totales): Totales {
    Totales(a.precio + b.precio, a.proteinas + b.proteinas, a.sostenibilidad + b.sostenibilidad)
  }

  /** The `reduce` over the chosen items, folding from the left. */
  function Sumar(s: seq<ItemLista>): Totales
    decreases |s|
  {
    if s == [] then Totales(0, 0, 0)
    else Suma(Sumar(s[..|s| - 1]), Totales(s[|s| - 1].precio, s[|s| - 1].proteinas, s[|s| - 1].sostenibilidad))
  }

  datatype RespuestaMochila = RespuestaMochila(presupuestoUsado: int, productosSeleccionados: seq<ItemLista>, totales: Totales)

  /** What the handler answers for validated input: the items the backward
      walk chooses, in input order, with their totals. */
  function Optimizar(items: seq<ItemLista>, presupuesto: nat): RespuestaMochila {
    var sel := Selected(items, Reconstruct(ToKnapsack(items), presupuesto));
    RespuestaMochila(Sumar(sel).precio, sel, Sumar(sel))
  }

  lemma {:induction false} SumarConcat(a: seq<ItemLista>, b: seq<ItemLista>)
    ensures Sumar(a + b) == Suma(Sumar(a), Sumar(b))
    decreases |b|
  {
    if b == [] {
      assert a + b == a;
    } else {
      var n := |b|;
      assert (a + b)[..|a + b| - 1] == a + b[..n - 1];
      SumarConcat(a, b[..n - 1]);
    }
  }

  /** Totals do not depend on the order of the items. */
  lemma {:induction false} SumarReversed(s: seq<ItemLista>)
    ensures Sumar(Reversed(s)) == Sumar(s)
    decreases |s|
  {
    if s != [] {
      var x, t := [s[0]], s[1..];
      assert Reversed(s) == Reversed(t) + x;
      assert x + t == s;
      SumarReversed(t);
      SumarConcat(Reversed(t), x);
      SumarConcat(x, t);
    }
  }

  /** The totals of a choice are its knapsack cost and, weighted, its value. */
  lemma {:induction false} SumarSelected(items: seq<ItemLista>, pick: seq<bool>)
    requires |pick| == |items|
    ensures Sumar(Selected(items, pick)).precio == Cost(ToKnapsack(items), pick)
    ensures 2 * Sumar(Selected(items, pick)).proteinas + Sumar(Selected(items, pick)).sostenibilidad
            == Value(ToKnapsack(items), pick)
    decreases |items|
  {
    if |items| > 0 {
      var n := |items|;
      var init, ip := items[..n - 1], pick[..n - 1];
      assert ToKnapsack(items)[..n - 1] == ToKnapsack(init);
      SumarSelected(init, ip);
      var last: seq<ItemLista> := if pick[n - 1] then [items[n - 1]] else [];
      SumarConcat(Selected(init, ip), last);
      if pick[n - 1] {
        assert last[..0] == [];
      }
    }
  }

  /** The /mochila answer stays within the budget, reports as budget used
      the summed price, and its weighted totals reach the optimum: no subset
      within the budget is worth more. */
  lemma OptimizarIsOptimal(items: seq<ItemLista>, presupuesto: nat)
    requires forall k :: 0 <= k < |items| ==> items[k].precio > 0
    ensures Optimizar(items, presupuesto).presupuestoUsado <= presupuesto
    ensures Optimizar(items, presupuesto).presupuestoUsado == Optimizar(items, presupuesto).totales.precio
    ensures 2 * Optimizar(items, presupuesto).totales.proteinas + Optimizar(items, presupuesto).totales.sostenibilidad
            == Best(ToKnapsack(items), presupuesto)
    ensures forall pick :: |pick| == |items| && Cost(ToKnapsack(items), pick) <= presupuesto ==>
      Value(ToKnapsack(items), pick) <= 2 * Optimizar(items, presupuesto).totales.proteinas
                                        + Optimizar(items, presupuesto).totales.sostenibilidad
  {
    var ks := ToKnapsack(items);
    assert PositivePrices(ks);
    ReconstructIsOptimal(ks, presupuesto);
    SumarSelected(items, Reconstruct(ks, presupuesto));
    BestIsOptimal(ks, presupuesto);
  }

  lemma {:induction false} SelectedNone<T>(xs: seq<T>)
    ensures Selected(xs, NoneTaken(|xs|)) == []
    decreases |xs|
  {
    if xs != [] {
      assert NoneTaken(|xs|)[..|xs| - 1] == NoneTaken(|xs| - 1);
      SelectedNone(xs[..|xs| - 1]);
    }
  }

  /** The backward walk of `Knapsack.Reconstruct`, restated step for step
      in the shape of the /mochila handler's backward `for` loop; it
      exists only to state `Recuperar`'s loop invariant. What the loop
      pushes when it stands at row `i` with `res` left: nothing once the
      rows or the budget run out; otherwise the item of row `i` when its
      row differs from the row above (it then fits, and `res` drops by its
      price), followed by what the walk pushes from the row above. */
  function Empujados(items: seq<ItemLista>, i: nat, res: nat): seq<ItemLista>
    requires i <= |items|
    decreases i
  {
    if i == 0 || res == 0 then []
    else (if Toma(items, i, res) then [items[i - 1]] else []) + Empujados(items, i - 1, Resto(items, i, res))
  }

  /** Whether the walk at row `i` takes that row's item: its row of the
      table differs from the row above. */
  predicate Toma(items: seq<ItemLista>, i: nat, res: nat)
    requires 1 <= i <= |items|
  {
    var ks := ToKnapsack(items);
    Best(ks[..i], res) != Best(ks[..i - 1], res)
  }

  /** The budget left after row `i`: less the item's price when the item
      is taken, which it then fits. */
  function Resto(items: seq<ItemLista>, i: nat, res: nat): (r: nat)
    requires 1 <= i <= |items|
    ensures r <= res
    ensures Toma(items, i, res) ==> r + items[i - 1].precio == res
    ensures !Toma(items, i, res) ==> r == res
  {
    if Toma(items, i, res) then
      TomadoCabe(ToKnapsack(items), i, res);
      res - items[i - 1].precio
    else res
  }


  /** An item whose row differs from the row above fits the capacity. */
  lemma TomadoCabe(ks: seq<Item>, i: nat, res: nat)
    requires 1 <= i <= |ks| && Best(ks[..i], res) != Best(ks[..i - 1], res)
    ensures ks[i - 1].price <= res
  {
    assert ks[..i][..i - 1] == ks[..i - 1];
  }

  lemma ReconstructSinCapacidad(ks: seq<Item>, i: nat, res: nat)
    requires i <= |ks| && (i == 0 || res == 0)
    ensures Reconstruct(ks[..i], res) == NoneTaken(i)
  {
  }

  /** One step of the backward walk at row `i`, in the list's own prices:
      the walk records whether it takes the item and goes on from the row
      above with the budget that is left. */
  lemma PasoReconstruct(items: seq<ItemLista>, i: nat, res: nat)
    requires 1 <= i <= |items| && res > 0
    ensures Reconstruct(ToKnapsack(items)[..i], res)
         == Reconstruct(ToKnapsack(items)[..i - 1], Resto(items, i, res)) + [Toma(items, i, res)]
  {
    var ks := ToKnapsack(items);
    var ki := ks[..i];
    assert ki[..i - 1] == ks[..i - 1];
    assert ki[i - 1].price == items[i - 1].precio;
  }

  /** Selecting with one more flag at the end adds the last element
      exactly when that flag is set. */
  lemma SelectedUltimo<T>(xs: seq<T>, pick: seq<bool>, b: bool)
    requires |xs| == |pick| + 1
    ensures b ==> Selected(xs, pick + [b]) == Selected(xs[..|pick|], pick) + [xs[|pick|]]
    ensures !b ==> Selected(xs, pick + [b]) == Selected(xs[..|pick|], pick)
  {
    assert (pick + [b])[..|pick|] == pick;
  }

  /** The pushed list is the backward walk's choice, last item first. */
  lemma {:induction false} EmpujadosEsInverso(items: seq<ItemLista>, i: nat, res: nat)
    requires i <= |items|
    ensures Empujados(items, i, res) == Reversed(Selected(items[..i], Reconstruct(ToKnapsack(items)[..i], res)))
    decreases i
  {
    var ks := ToKnapsack(items);
    if i == 0 || res == 0 {
      ReconstructSinCapacidad(ks, i, res);
      SelectedNone(items[..i]);
    } else {
      var toma, res' := Toma(items, i, res), Resto(items, i, res);
      var pick := Reconstruct(ks[..i - 1], res');
      var sel := Selected(items[..i - 1], pick);
      EmpujadosEsInverso(items, i - 1, res');
      PasoReconstruct(items, i, res);
      var xs := items[..i];
      assert |pick| == i - 1 && xs[..i - 1] == items[..i - 1] && xs[i - 1] == items[i - 1];
      SelectedUltimo(xs, pick, toma);
      if toma {
        ReversedSnoc(sel, items[i - 1]);
      }
    }
  }

  /** The table's rows `i` and `i - 1` differ at `res` exactly when the
      walk takes the item of row `i`. */
  lemma TomaEnTabla(dp: array2<int>, items: seq<ItemLista>, presupuesto: nat, i: nat, res: nat)
    requires dp.Length0 == |items| + 1 && dp.Length1 == presupuesto + 1
    requires forall i, w :: 0 <= i <= |items| && 0 <= w <= presupuesto ==> dp[i, w] == Best(ToKnapsack(items)[..i], w)
    requires 1 <= i <= |items| && res <= presupuesto
    ensures Toma(items, i, res) <==> dp[i, res] != dp[i - 1, res]
  {
    assert dp[i, res] == Best(ToKnapsack(items)[..i], res);
    assert dp[i - 1, res] == Best(ToKnapsack(items)[..i - 1], res);
  }

  /** One step of the loop keeps its invariant: the item of row `i` is
      pushed and its price paid exactly when rows `i` and `i - 1` of the
      table differ, which is when the walk takes it. */
  lemma PasoInvariante(dp: array2<int>, items: seq<ItemLista>, presupuesto: nat,
                       sel: seq<ItemLista>, i: nat, res: nat, total: seq<ItemLista>)
    requires dp.Length0 == |items| + 1 && dp.Length1 == presupuesto + 1
    requires forall i, w :: 0 <= i <= |items| && 0 <= w <= presupuesto ==> dp[i, w] == Best(ToKnapsack(items)[..i], w)
    requires 1 <= i <= |items| && 0 < res <= presupuesto
    requires sel + Empujados(items, i, res) == total
    ensures dp[i, res] != dp[i - 1, res] ==>
      items[i - 1].precio <= res &&
      (sel + [items[i - 1]]) + Empujados(items, i - 1, res - items[i - 1].precio) == total
    ensures dp[i, res] == dp[i - 1, res] ==> sel + Empujados(items, i - 1, res) == total
  {
    TomaEnTabla(dp, items, presupuesto, i, res);
    var rest := Empujados(items, i - 1, Resto(items, i, res));
    if Toma(items, i, res) {
      assert Empujados(items, i, res) == [items[i - 1]] + rest;
      assert sel + ([items[i - 1]] + rest) == (sel + [items[i - 1]]) + rest;
    } else {
      assert Empujados(items, i, res) == [] + rest;
    }
  }

  /** The backward `for` loop of the /mochila handler: walks back from
      `dp[n][W]` while items and budget remain, pushing each item whose row
      differs from the row above. The pushed list is the walk's choice,
      last item first. */
  method Recuperar(dp: array2<int>, items: seq<ItemLista>, presupuesto: nat) returns (seleccionados: seq<ItemLista>)
    requires dp.Length0 == |items| + 1 && dp.Length1 == presupuesto + 1
    requires forall i, w :: 0 <= i <= |items| && 0 <= w <= presupuesto ==> dp[i, w] == Best(ToKnapsack(items)[..i], w)
    ensures seleccionados == Reversed(Selected(items, Reconstruct(ToKnapsack(items), presupuesto)))
  {
    var n := |items|;
    var resPresupuesto: nat := presupuesto;
    seleccionados := [];
    var i: nat := n;
    while i > 0 && resPresupuesto > 0
      invariant i <= n && resPresupuesto <= presupuesto
      invariant seleccionados + Empujados(items, i, resPresupuesto) == Empujados(items, n, presupuesto)
    {
      PasoInvariante(dp, items, presupuesto, seleccionados, i, resPresupuesto, Empujados(items, n, presupuesto));
      if dp[i, resPresupuesto] != dp[i - 1, resPresupuesto] {
        seleccionados := seleccionados + [items[i - 1]];
        resPresupuesto := resPresupuesto - items[i - 1].precio;
      }
      i := i - 1;
    }
    assert seleccionados + [] == seleccionados;
    EmpujadosEsInverso(items, n, presupuesto);
    assert items[..n] == items && ToKnapsack(items)[..n] == ToKnapsack(items);
  }

  /** POST /mochila. A missing or empty product list, then a missing or
      non-positive budget, are rejected; otherwise the answer is
      `Optimizar` of the converted products. */
  method Mochila(productos: Option<seq<Producto>>, presupuesto: Option<int>)
    returns (r: Result<RespuestaMochila, ErrorPeticion>)
    ensures (productos.None? || productos.value == []) ==> r == Failure(ListaInvalida)
    ensures productos.Some? && productos.value != [] && (presupuesto.None? || presupuesto.value <= 0) ==>
      r == Failure(PresupuestoInvalido)
    ensures productos.Some? && productos.value != [] && presupuesto.Some? && presupuesto.value > 0 ==>
      r == Success(Optimizar(ConvertirTodos(productos.value), presupuesto.value))
  {
    if productos.None? || |productos.value| == 0 {
      return Failure(ListaInvalida);
    }
    if presupuesto.None? || presupuesto.value <= 0 {
      return Failure(PresupuestoInvalido);
    }
    var items := ConvertirTodos(productos.value);
    var W: nat := presupuesto.value;
    var dp := BuildTable(ToKnapsack(items), W);
    var seleccionados := Recuperar(dp, items, W);
    var total := Sumar(seleccionados);
    ghost var sel := Selected(items, Reconstruct(ToKnapsack(items), W));
    SumarReversed(sel);
    ReversedTwice(sel);
    r := Success(RespuestaMochila(total.precio, Reversed(seleccionados), total));
  }

  // =====================================================================
  // POST /sustitucion

  /** The base product of the request. */
  datatype ProductoBase = ProductoBase(nombre: string, categoria: Option<string>, puntajeGlobal: Option<int>,
                                       azucares: Option<int>, grasas: Option<int>)

  /** One alternative of the request. */
  datatype Alternativa = Alternativa(nombre: string, categoria: Option<string>, marca: Option<string>,
                                     puntajeGlobal: Option<int>, azucares: Option<int>, grasas: Option<int>,
                                     imagen: Option<string>)

  /** A recommended substitute; `scoreCompuesto` is in tenths. */
  datatype Recomendada = Recomendada(nombre: string, marca: string, categoria: string,
                                     puntajeSostenibilidad: int, scoreCompuesto: int, imagen: Option<string>)

  datatype ProductoOriginal = ProductoOriginal(nombre: string, categoria: string, azucares: int, grasas: int, puntajeGlobal: int)

  datatype RespuestaSustitucion =
    | SinSimilares(mensaje: string)
    | Sustitutos(productoOriginal: ProductoOriginal, recomendados: seq<Recomendada>)

  /** A destructuring default: applies only when the field is missing. */
  function Defaulted<T>(o: Option<T>, d: T): T {
    match o
    case None => d
    case Some(v) => v
  }

  /** The `filter` of the /sustitucion handler: the lower-cased name of the alternative
      contains the first word of the lower-cased base name, or the
      categories are equal. */
  predicate EsSimilar(p: Alternativa, nombre: string, categoria: string) {
    Contains(ToLower(p.nombre), FirstWord(ToLower(nombre))) || p.categoria == Some(categoria)
  }

  /** The similarity flag of each alternative, in input order. */
  function Marcas(alts: seq<Alternativa>, nombre: string, categoria: string): seq<bool> {
    seq(|alts|, i requires 0 <= i < |alts| => EsSimilar(alts[i], nombre, categoria))
  }

  /** `filter` keeps the similar alternatives, each at most as often as
      it occurs. */
  function Filtrar(alts: seq<Alternativa>, nombre: string, categoria: string): (r: seq<Alternativa>)
    ensures |r| <= |alts|
    ensures multiset(r) <= multiset(alts)
    ensures forall p :: p in r <==> p in alts && EsSimilar(p, nombre, categoria)
    decreases |alts|
  {
    if alts == [] then []
    else
      var init := alts[..|alts| - 1];
      var last := alts[|alts| - 1];
      var rest := Filtrar(init, nombre, categoria);
      assert alts == init + [last];
      assert forall p :: p in alts <==> p == last || p in init;
      if EsSimilar(last, nombre, categoria) then rest + [last] else rest
  }

  /** `filter` keeps the input's order and its repetitions: the result is
      the selection of `alts` by their similarity flags. */
  lemma {:induction false} FiltrarEsSeleccion(alts: seq<Alternativa>, nombre: string, categoria: string)
    ensures Filtrar(alts, nombre, categoria) == Selected(alts, Marcas(alts, nombre, categoria))
    decreases |alts|
  {
    if alts != [] {
      var init := alts[..|alts| - 1];
      FiltrarEsSeleccion(init, nombre, categoria);
      assert Marcas(alts, nombre, categoria)[..|alts| - 1] == Marcas(init, nombre, categoria);
    }
  }

  /** `sos - azucares * 1.2 - grasas * 0.8`, in tenths. */
  function ScoreCompuesto(p: Alternativa): int {
    10 * NumberOr(p.puntajeGlobal, 50) - 12 * NumberOr(p.azucares, 0) - 8 * NumberOr(p.grasas, 0)
  }

  function Recomendar(p: Alternativa): Recomendada {
    Recomendada(p.nombre, StringOr(p.marca, "Desconocido"), StringOr(p.categoria, "Sin categoría"),
                NumberOr(p.puntajeGlobal, 50), ScoreCompuesto(p),
                if p.imagen == Some([]) then None else p.imagen)
  }

  /** `similares.map(...)`: one recommendation per alternative, in order,
      under the alternative's name and with a non-zero sustainability
      score (the `|| 50` default). */
  function RecomendarTodas(ps: seq<Alternativa>): (rs: seq<Recomendada>)
    ensures |rs| == |ps|
    ensures forall k :: 0 <= k < |ps| ==> rs[k].nombre == ps[k].nombre && rs[k].puntajeSostenibilidad != 0
  {
    seq(|ps|, k requires 0 <= k < |ps| => Recomendar(ps[k]))
  }

  /** Scoring commutes with selecting: scoring a selection is selecting
      from the scored list. */
  lemma {:induction false} RecomendarSeleccion(ps: seq<Alternativa>, pick: seq<bool>)
    requires |pick| == |ps|
    ensures RecomendarTodas(Selected(ps, pick)) == Selected(RecomendarTodas(ps), pick)
    decreases |ps|
  {
    if ps != [] {
      var n := |ps|;
      RecomendarSeleccion(ps[..n - 1], pick[..n - 1]);
      assert RecomendarTodas(ps)[..n - 1] == RecomendarTodas(ps[..n - 1]);
      var sel := Selected(ps[..n - 1], pick[..n - 1]);
      var ult := if pick[n - 1] then [ps[n - 1]] else [];
      assert RecomendarTodas(sel + ult) == RecomendarTodas(sel) + RecomendarTodas(ult);
    }
  }

  /** Scoring the similar alternatives is the same as keeping the similar
      ones among all the scored alternatives, in the same order. */
  lemma RecomendarFiltradas(alts: seq<Alternativa>, nombre: string, categoria: string)
    ensures RecomendarTodas(Filtrar(alts, nombre, categoria))
         == Selected(RecomendarTodas(alts), Marcas(alts, nombre, categoria))
  {
    FiltrarEsSeleccion(alts, nombre, categoria);
    RecomendarSeleccion(alts, Marcas(alts, nombre, categoria));
  }

  /** The composite score penalises sugar: with the same sustainability
      and fat, more sugar scores strictly less. */
  lemma PenalizaAzucar(p: Alternativa, q: Alternativa)
    requires NumberOr(p.puntajeGlobal, 50) == NumberOr(q.puntajeGlobal, 50)
    requires NumberOr(p.grasas, 0) == NumberOr(q.grasas, 0)
    requires NumberOr(p.azucares, 0) < NumberOr(q.azucares, 0)
    ensures Recomendar(q).scoreCompuesto < Recomendar(p).scoreCompuesto
  {
  }

  predicate Descendente(s: seq<Recomendada>) {
    forall i, j :: 0 <= i < j < |s| ==> s[i].scoreCompuesto >= s[j].scoreCompuesto
  }

  /** Inserts `x` before the first element that does not score more. */
  function Insertar(x: Recomendada, s: seq<Recomendada>): (r: seq<Recomendada>)
    ensures multiset(r) == multiset(s) + multiset{x}
  {
    if s == [] || x.scoreCompuesto >= s[0].scoreCompuesto then [x] + s
    else
      assert s == [s[0]] + s[1..];
      [s[0]] + Insertar(x, s[1..])
  }

  predicate AcotadaPor(s: seq<Recomendada>, v: int) {
    forall k :: 0 <= k < |s| ==> s[k].scoreCompuesto <= v
  }

  lemma {:induction false} InsertarAcotada(x: Recomendada, s: seq<Recomendada>, v: int)
    requires AcotadaPor(s, v) && x.scoreCompuesto <= v
    ensures AcotadaPor(Insertar(x, s), v)
    decreases |s|
  {
    if s != [] && x.scoreCompuesto < s[0].scoreCompuesto {
      InsertarAcotada(x, s[1..], v);
    }
  }

  lemma {:induction false} InsertarDescendente(x: Recomendada, s: seq<Recomendada>)
    requires Descendente(s)
    ensures Descendente(Insertar(x, s))
    decreases |s|
  {
    if s != [] && x.scoreCompuesto < s[0].scoreCompuesto {
      var rest := Insertar(x, s[1..]);
      InsertarDescendente(x, s[1..]);
      assert AcotadaPor(s[1..], s[0].scoreCompuesto);
      InsertarAcotada(x, s[1..], s[0].scoreCompuesto);
      var r := [s[0]] + rest;
      forall i, j | 0 <= i < j < |r|
        ensures r[i].scoreCompuesto >= r[j].scoreCompuesto
      {
        assert r[j] == rest[j - 1];
        if i > 0 {
          assert r[i] == rest[i - 1];
        }
      }
    }
  }

  /** The stable descending sort of `sort((a, b) => b.score - a.score)`. */
  function Ordenar(s: seq<Recomendada>): (r: seq<Recomendada>)
    ensures multiset(r) == multiset(s)
    ensures Descendente(r)
  {
    if s == [] then []
    else
      assert s == [s[0]] + s[1..];
      var rest := Ordenar(s[1..]);
      InsertarDescendente(s[0], rest);
      Insertar(s[0], rest)
  }

  /** The elements scoring exactly `v`, in order. */
  function ConScore(s: seq<Recomendada>, v: int): seq<Recomendada> {
    if s == [] then []
    else (if s[0].scoreCompuesto == v then [s[0]] else []) + ConScore(s[1..], v)
  }

  lemma {:induction false} InsertarConScore(x: Recomendada, s: seq<Recomendada>, v: int)
    ensures ConScore(Insertar(x, s), v) == (if x.scoreCompuesto == v then [x] else []) + ConScore(s, v)
    decreases |s|
  {
    if s == [] || x.scoreCompuesto >= s[0].scoreCompuesto {
      assert ([x] + s)[1..] == s;
    } else {
      InsertarConScore(x, s[1..], v);
      assert ([s[0]] + Insertar(x, s[1..]))[1..] == Insertar(x, s[1..]);
    }
  }

  /** The sort is stable: elements with equal scores keep their order. */
  lemma {:induction false} OrdenarEsEstable(s: seq<Recomendada>, v: int)
    ensures ConScore(Ordenar(s), v) == ConScore(s, v)
    decreases |s|
  {
    if s != [] {
      OrdenarEsEstable(s[1..], v);
      InsertarConScore(s[0], Ordenar(s[1..]), v);
    }
  }

  function Min(a: int, b: int): int {
    if a <= b then a else b
  }

  /** A prefix of a descending permutation of `todas` keeps its best
      elements: it is drawn from `todas`, stays descending, and nothing left
      out scores more than anything kept. */
  lemma PrefijoDomina(todas: seq<Recomendada>, o: seq<Recomendada>, m: nat)
    requires multiset(o) == multiset(todas) && Descendente(o) && m <= |o|
    ensures multiset(o[..m]) <= multiset(todas)
    ensures Descendente(o[..m])
    ensures forall x, k :: x in multiset(todas) - multiset(o[..m]) && 0 <= k < m ==>
      x.scoreCompuesto <= o[..m][k].scoreCompuesto
  {
    var p, q := o[..m], o[m..];
    assert o == p + q;
    assert multiset(o) == multiset(p) + multiset(q);
    forall x, k | x in multiset(todas) - multiset(p) && 0 <= k < m
      ensures x.scoreCompuesto <= p[k].scoreCompuesto
    {
      assert x in q;
      var j :| 0 <= j < |q| && q[j] == x;
      assert o[m + j] == x && o[k] == p[k];
    }
  }

  /** `.sort(...).slice(0, 3)`: the best three, in descending score. As many
      as the list allows up to three, all drawn from it, and none left out
      scores more than any kept. */
  function Mejores(todas: seq<Recomendada>): (r: seq<Recomendada>)
    ensures |r| == Min(3, |todas|)
    ensures multiset(r) <= multiset(todas)
    ensures Descendente(r)
    ensures forall x, k :: x in multiset(todas) - multiset(r) && 0 <= k < |r| ==>
      x.scoreCompuesto <= r[k].scoreCompuesto
  {
    var o := Ordenar(todas);
    assert |o| == |todas| by {
      assert |multiset(o)| == |multiset(todas)|;
    }
    var m := Min(3, |o|);
    PrefijoDomina(todas, o, m);
    o[..m]
  }

  /** POST /sustitucion. */
  function Sustitucion(producto: Option<ProductoBase>, alternativas: Option<seq<Alternativa>>)
    : (r: Result<RespuestaSustitucion, ErrorPeticion>)
    ensures r.Failure? <==> producto.None? || alternativas.None?
    ensures r.Failure? ==> r.error == FaltaProductoOAlternativas
    ensures r.Success? ==>
      (r.value.SinSimilares? <==>
         forall p :: p in alternativas.value ==> !EsSimilar(p, producto.value.nombre, Defaulted(producto.value.categoria, [])))
    ensures r.Success? && r.value.Sustitutos? ==>
      r.value.recomendados ==
        Mejores(RecomendarTodas(Filtrar(alternativas.value, producto.value.nombre, Defaulted(producto.value.categoria, []))))
    ensures r.Success? && r.value.Sustitutos? ==>
      0 < |r.value.recomendados| <= 3 && Descendente(r.value.recomendados)
  {
    if producto.None? || alternativas.None? then Failure(FaltaProductoOAlternativas)
    else
      var base := producto.value;
      var categoria := Defaulted(base.categoria, []);
      var similares := Filtrar(alternativas.value, base.nombre, categoria);
      if similares == [] then
        Success(SinSimilares("No se encontraron alternativas similares a " + base.nombre + "."))
      else
        assert similares[0] in similares;
        var original := ProductoOriginal(base.nombre, categoria, Defaulted(base.azucares, 0),
                                         Defaulted(base.grasas, 0), NumberOr(base.puntajeGlobal, 50));
        Success(Sustitutos(original, Mejores(RecomendarTodas(similares))))
  }

  /** When some alternative is similar, the answer lists the best of the
      similar alternatives: as many as there are up to three, all drawn
      from them, and none left out scores more than any kept. */
  lemma SustitucionTopTres(base: ProductoBase, alternativas: seq<Alternativa>)
    requires exists p :: p in alternativas && EsSimilar(p, base.nombre, Defaulted(base.categoria, []))
    ensures Sustitucion(Some(base), Some(alternativas)).Success?
    ensures
      var todas := RecomendarTodas(Filtrar(alternativas, base.nombre, Defaulted(base.categoria, [])));
      var rec := Sustitucion(Some(base), Some(alternativas)).value;
      rec.Sustitutos? &&
      |rec.recomendados| == Min(3, |todas|) &&
      multiset(rec.recomendados) <= multiset(todas) &&
      forall x, k :: x in multiset(todas) - multiset(rec.recomendados) && 0 <= k < |rec.recomendados| ==>
        x.scoreCompuesto <= rec.recomendados[k].scoreCompuesto
  {
    var res := Sustitucion(Some(base), Some(alternativas));
    var p :| p in alternativas && EsSimilar(p, base.nombre, Defaulted(base.categoria, []));
    assert res.Success? && !res.value.SinSimilares?;
    var todas := RecomendarTodas(Filtrar(alternativas, base.nombre, Defaulted(base.categoria, [])));
    assert res.value.recomendados == Mejores(todas);
  }
}
