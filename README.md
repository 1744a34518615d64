# liquiverde shopping-list optimisation, modelled in Dafny

liquiverde helps a shopper build a sustainable shopping list. This project
models the part of it that decides things, and proves what it decides:

- **`optimizarLista`** (`knapsack.js`): a 0/1 knapsack table. Each product has
  a price and a score. Row `i`, column `w` of the table holds the best score
  any subset of the first `i` products reaches with a total price of at most `w`.
- **`POST /api/analisis/mochila`**: checks the request, fills in defaults
  for missing fields, and runs the same table with the weight
  `proteinas * 2 + sostenibilidad`. It then walks back through the table to
  recover the chosen products and answers with them in input order, together
  with their totals.
- **`POST /api/analisis/sustitucion`**: keeps the alternatives that look like
  the base product: those whose lower-cased name contains the first word of
  the lower-cased base name, or whose category equals the base's. It scores them
  `sostenibilidad - 1.2 * azucares - 0.8 * grasas`. It sorts them by
  descending score and keeps the best three.
- **The substitution page** (`Sustitucion.tsx`): the user adds alternatives
  (blank names refused). The page picks the one whose score
  `0.4 * proteinas - 0.3 * azucares + 0.3 * sostenibilidad` most exceeds the
  base product's, or reports "Ninguna".
- **The shopping-list page** (`Mochila.tsx`): numeric inputs accept only text
  matching `^(\d+(\.\d*)?|\.\d*)?$`. The "add product" button appends the
  product unless its name is empty or its price parses to a number `<= 0`.

Modules:

- `Wrappers`: `Option`, `Result`, and JavaScript's `x || d`.
- `Sequences`: reversal, for `reverse()` and for lists built with `push`.
- `Strings`: `trim`, `toLowerCase`, `includes`, `split(" ")[0]`.
- `Knapsack`: the table and its optimality, and the backward walk.
- `Analisis`: the two handlers.
- `SustitucionPage` and `MochilaPage`: the two pages. Each holds its React
  state as a class whose methods update the fields.

Decimal weights are kept exact by scaling them to integers:

- the page score is counted in tenths (`4p - 3a + 3s`);
- the `/sustitucion` score is counted in tenths (`10 sos - 12 az - 8 gr`).

In exact arithmetic both orders are the same as those of the source's
weights; where the source's floating point departs from them is listed under
"## Left out".

The backend fills the table with one method, `Knapsack.BuildTable`. The source
repeats the same double loop in `knapsack.js` and in the `/mochila` handler,
and both uses here call that one method.

## Model

| member | source | states |
|---|---|---|
| Knapsack.Max | api/src/algorithms/knapsack.js:8 | `Math.max`: the result is at least both arguments and is one of them |
| Knapsack.BestIsUpperBound | api/src/algorithms/knapsack.js:4-11 | no subset whose total price fits the capacity scores more than the table entry for that capacity |
| Knapsack.BestIsAttained | api/src/algorithms/knapsack.js:4-11 | some subset within the capacity scores exactly the table entry |
| Knapsack.BestIsOptimal | api/src/algorithms/knapsack.js:1-13 | the table entry is the maximum total score over all subsets within the budget |
| Knapsack.BestMonotoneInBudget | api/src/algorithms/knapsack.js:6-10 | a larger capacity never lowers the optimum |
| Knapsack.BestMonotoneInItems | api/src/algorithms/knapsack.js:4-11 | a later row is never below an earlier one at the same capacity |
| Knapsack.BestAtZero | api/src/algorithms/knapsack.js:7-9 | with positive prices, column 0 holds 0 in every row |
| Knapsack.BuildTable | api/src/algorithms/knapsack.js:2-11 | allocates an (n+1) x (budget+1) table; row 0 is 0; each cell follows the skip/take recurrence and equals the optimum for its prefix and capacity; the /mochila handler (api/src/routes/analisis.js:83-100) fills the same table with the combined weight |
| Knapsack.OptimizarLista | api/src/algorithms/knapsack.js:1-13 | the result is the optimum: no subset within the budget scores more, and one scores exactly it; 0 for an empty list |
| Knapsack.NoneTakenIsEmpty | api/src/routes/analisis.js:106 | stopping the walk when the budget runs out takes nothing more: zero cost and zero value |
| Knapsack.ReconstructIsOptimal | api/src/routes/analisis.js:103-111 | with positive prices, the products the backward walk picks fit the budget and score exactly the table's optimum |
| Knapsack.SingleItemChosen | api/src/routes/analisis.js:89-111 | one product that fits and has a positive weight is the optimum and is picked |
| Sequences.ReversedConcat | api/src/routes/analisis.js:124 | reversing a concatenation reverses and swaps the halves |
| Analisis.Convertir | api/src/routes/analisis.js:76-81 | the name is kept; a positive price is kept; a missing or zero price becomes 1000, so every converted price is positive |
| Analisis.ConvertirTodos | api/src/routes/analisis.js:76-81 | one item per request product, in order, each under its product's name with a positive price; a positive request price is kept |
| Analisis.ToKnapsack | api/src/routes/analisis.js:89-91 | one table item per list item; when the list's prices are positive, the table's prices are too, so the walk's optimality applies |
| Analisis.ToKnapsackPrefijo | api/src/routes/analisis.js:89-91 | row `i` of the table sees exactly the first `i` list items |
| Analisis.SumarConcat | api/src/routes/analisis.js:113-120 | the totals of two lists joined are the sums of their totals |
| Analisis.SumarReversed | api/src/routes/analisis.js:113-124 | totals taken before the reversal are the totals of the reversed answer |
| Analisis.SumarSelected | api/src/routes/analisis.js:113-120 | the summed price of a choice is its knapsack cost, and `2 * proteinas + sostenibilidad` of its totals is its knapsack value |
| Analisis.OptimizarIsOptimal | api/src/routes/analisis.js:83-126 | `presupuesto_usado` is at most the budget and equals `totales.precio`; the weighted totals equal the table optimum; no subset within the budget weighs more |
| Sequences.ReversedTwice | api/src/routes/analisis.js:124 | reversing the pushed list twice gives it back |
| Analisis.TomadoCabe | api/src/routes/analisis.js:107-109 | an item whose row differs from the row above fits the remaining budget, so the subtraction never goes below 0 |
| Analisis.Resto | api/src/routes/analisis.js:107-110 | the budget left after a row never exceeds the budget before it; it drops by exactly the item's price when the item is taken, and stays the same otherwise |
| Analisis.PasoReconstruct | api/src/routes/analisis.js:107-110 | one step of the backward walk records whether the row's item is taken and goes on from the row above with the budget left |
| Sequences.ReversedSnoc | api/src/routes/analisis.js:108 | pushing an item at the end of a list puts it first in the reversal |
| Analisis.EmpujadosEsInverso | api/src/routes/analisis.js:103-111 | what the loop pushes from row `i` with budget `res` is the backward walk's choice over the first `i` items, taken last item first |
| Analisis.TomaEnTabla | api/src/routes/analisis.js:107 | rows `i` and `i - 1` of the filled table differ at the remaining budget exactly when the walk takes the item of row `i` |
| Analisis.PasoInvariante | api/src/routes/analisis.js:107-110 | one pass of the loop keeps its invariant: the item is pushed and its price paid exactly when the two rows differ, and the price then fits |
| Analisis.Recuperar | api/src/routes/analisis.js:102-111 | the loop reading the table pushes exactly the walk's choice, last product first |
| Analisis.Mochila | api/src/routes/analisis.js:63-126 | a missing or empty list is rejected first, then a missing or non-positive budget; otherwise the answer is the converted products' walk choice in input order with its totals |
| Analisis.Filtrar | api/src/routes/analisis.js:158-162 | the result is drawn from the input, with no more repetitions than it has, and an alternative is kept exactly when its lower-cased name contains the lower-cased base name's first word, or its category equals the base's |
| Analisis.FiltrarEsSeleccion | api/src/routes/analisis.js:158-162 | `filter` keeps the input's order and repetitions: its result is the selection of the alternatives by their similarity flags, the order the stable sort's ties depend on |
| Analisis.RecomendarTodas | api/src/routes/analisis.js:171-186 | one recommendation per similar alternative, in order, each under the alternative's name with a non-zero sustainability score (the default of 50) |
| Analisis.RecomendarSeleccion | api/src/routes/analisis.js:171-186 | scoring commutes with selecting: scoring a selection of the alternatives is the same selection of the scored list |
| Analisis.RecomendarFiltradas | api/src/routes/analisis.js:158-186 | scoring the similar alternatives gives the similar entries of the scored full list, in input order |
| Analisis.PenalizaAzucar | api/src/routes/analisis.js:173-176 | with equal sustainability and fat, more sugar gives a strictly lower composite score |
| Analisis.Insertar | api/src/routes/analisis.js:188 | inserting adds exactly that element |
| Analisis.InsertarAcotada | api/src/routes/analisis.js:188 | inserting keeps every score of the list below a bound that holds for all of them |
| Analisis.InsertarDescendente | api/src/routes/analisis.js:188 | inserting into a descending list keeps it descending |
| Analisis.Ordenar | api/src/routes/analisis.js:188 | the sort is a permutation of its input and is in descending score order |
| Analisis.InsertarConScore | api/src/routes/analisis.js:188 | inserting places the element ahead of every element of equal score |
| Analisis.OrdenarEsEstable | api/src/routes/analisis.js:188 | the sort is stable: elements with equal scores keep their relative order |
| Analisis.Sustitucion | api/src/routes/analisis.js:137-202 | a missing product or alternative list is rejected, and nothing else is; "no similar alternatives" comes back exactly when no alternative is similar; otherwise the best of the scored similar alternatives, 1 to 3 of them in descending score |
| Analisis.PrefijoDomina | api/src/routes/analisis.js:188-190 | a prefix of a descending permutation is drawn from the list, stays descending, and nothing left out scores more than anything kept |
| Analisis.Mejores | api/src/routes/analisis.js:188-190 | sorting and keeping three gives as many as the list allows up to three, all drawn from it, in descending score, with none left out scoring more than any kept |
| Analisis.SustitucionTopTres | api/src/routes/analisis.js:171-190 | as many recommendations as the similar alternatives allow, up to three, all drawn from them; none left out scores more than any kept |
| Strings.LeadingBlanks | web/src/pages/Sustitucion.tsx:57 | the count of leading whitespace characters: all counted ones are whitespace and the next one is not |
| Strings.TrailingBlanks | web/src/pages/Sustitucion.tsx:57 | the count of trailing whitespace characters: all counted ones are whitespace and the one before is not |
| Strings.TrimStart | web/src/pages/Sustitucion.tsx:57 | removes exactly the leading ECMAScript whitespace; the result is empty exactly when the string is all whitespace |
| Strings.TrimEnd | web/src/pages/Sustitucion.tsx:57 | removes exactly the trailing ECMAScript whitespace; the result is empty exactly when the string is all whitespace |
| Strings.Trim | web/src/pages/Mochila.tsx:23 | the trimmed text is empty exactly when the text is all whitespace |
| Strings.ToLower | api/src/routes/analisis.js:160 | keeps the length, leaves no capital, keeps every other character in place, and puts each capital's small letter in its place |
| Strings.ToLowerFirstWord | api/src/routes/analisis.js:160 | lower-casing keeps the spaces, so the first word of the lower-cased base name is the lower-cased first word |
| Strings.ContainsIff | api/src/routes/analisis.js:160 | `includes` holds exactly when the substring occurs at some position |
| Strings.ContainsOccurs | api/src/routes/analisis.js:160 | whatever the scan finds occurs at some position |
| Strings.OccursContains | api/src/routes/analisis.js:160 | an occurrence at any position is found by the scan |
| Strings.FirstWord | api/src/routes/analisis.js:160 | `split(" ")[0]` is the longest prefix that holds no space |
| SustitucionPage.ElegirMejor | web/src/pages/Sustitucion.tsx:72-90 | no choice when no alternative scores strictly above the base; otherwise the first alternative with the highest score, and it beats the base |
| SustitucionPage.EleccionUnica | web/src/pages/Sustitucion.tsx:77-90 | the choice is determined by the base and the list |
| SustitucionPage.Pagina.constructor | web/src/pages/Sustitucion.tsx:14-33 | the page starts with empty forms, no alternatives and no result |
| SustitucionPage.Pagina.AgregarAlternativa | web/src/pages/Sustitucion.tsx:56-67 | a blank name changes nothing; otherwise the alternative is appended as entered and the form is cleared; every listed alternative has a non-blank name |
| SustitucionPage.Pagina.CompararAlternativas | web/src/pages/Sustitucion.tsx:69-121 | records the result for the choice: "Desconocido" for an unnamed base; "Ninguna" with the fixed message when nothing beats the base; otherwise the best alternative's name and the three differences; keeps `Valid` |
| MochilaPage.DigitRun | web/src/pages/Mochila.tsx:16 | the longest run of digits at the start of the text |
| MochilaPage.DotCountConcat | web/src/pages/Mochila.tsx:16 | the number of dots in joined text is the sum of the dot counts of its parts |
| MochilaPage.DotCountOfDigits | web/src/pages/Mochila.tsx:16 | text of digits and dots holds no dot exactly when it is all digits |
| MochilaPage.SoloNumerosSoloDigitos | web/src/pages/Mochila.tsx:16 | text that `soloNumeros` accepts holds only digits and at most one `.` |
| MochilaPage.DigitosSonSoloNumeros | web/src/pages/Mochila.tsx:16 | text of only digits and at most one `.` is accepted by `soloNumeros` |
| MochilaPage.SoloNumerosIff | web/src/pages/Mochila.tsx:16 | `soloNumeros` accepts exactly the text made of digits and at most one `.` |
| MochilaPage.ParseFloat | web/src/pages/Mochila.tsx:19-27 | on accepted text, `parseFloat` gives NaN exactly for "" and "." |
| MochilaPage.DigitsValueZero | web/src/pages/Mochila.tsx:19 | the text's digits read as 0 exactly when every digit is `0` |
| MochilaPage.NuevoProducto | web/src/pages/Mochila.tsx:22-29 | the stored name is empty exactly when the typed name is blank; a non-zero stored price is the parsed price |
| MochilaPage.PrecioAceptado | web/src/pages/Mochila.tsx:19-24 | an accepted product is stored with price 0 exactly when its price field holds no digit ("" or ".") |
| MochilaPage.AceptaIff | web/src/pages/Mochila.tsx:19 | the guard lets a product through exactly when its name is non-empty and its price is "" or "." or holds a digit other than `0` |
| MochilaPage.Pagina.constructor | web/src/pages/Mochila.tsx:5-12 | the page starts with no products, the initial form (sustainability "50") and no budget; every input satisfies `soloNumeros` |
| MochilaPage.Pagina.EditarCampo | web/src/pages/Mochila.tsx:75-112 | typing in the price, protein or sustainability input keeps the new text only when `soloNumeros` accepts it; the other fields are unchanged |
| MochilaPage.Pagina.EditarPresupuesto | web/src/pages/Mochila.tsx:158-162 | typing in the budget input keeps the new text only when `soloNumeros` accepts it |
| MochilaPage.Pagina.AgregarProducto | web/src/pages/Mochila.tsx:18-37 | a refused form changes nothing; an accepted one appends exactly one entry after the earlier ones, with the name trimmed and each number parsed (NaN stored as 0), and resets the form |

## Left out

- Floating point: prices, budgets, nutrient amounts and sustainability scores
  (`puntajeGlobal` in `Analisis.Producto`, `Analisis.Alternativa` and
  `SustitucionPage.Producto`) are integers, and the decimal weights are scaled
  to tenths. The source's scores are decimals: the page's placeholder is
  "75.2", and the `/sostenibilidad` route rounds with `toFixed(2)`. Neither
  decimal scores nor rounding are modelled. The `/mochila` walk compares
  float sums with `!==`, and with decimal inputs rounding there can pick
  differently from the exact integer model. The substitution page compares
  unrounded float scores with `>`, so scores that tie exactly in tenths can
  go either way in the source, even on integer inputs. For example, take a
  base with proteins 0, sugar 0 and sustainability 4, and an alternative
  with proteins 3 and sustainability 0. Then `3 * 0.4` is
  1.2000000000000002 and `4 * 0.3` is 1.2, so the source picks the
  alternative, while `SustitucionPage.ElegirMejor` scores both at 12 and
  records "Ninguna". `/sustitucion` is not affected, because
  `Number(score.toFixed(2))` makes its ties exact.
- Knapsack.OptimizarLista: the budget is a natural number. The source does not
  check it: `Array(presupuesto + 1)` runs on whatever the caller passes, and
  the list route passes the request's budget unchecked. A budget of -1
  returns `undefined`; a budget below -1, or a missing one (`Array(NaN)`),
  throws a `RangeError`. None of these is modelled. Neither is the only
  caller's input. The list route passes the stored product documents, whose
  schema has a price (default 0) but no `score`. In the source, therefore,
  `dp[i - 1][w - precio] + score` is NaN whenever an item fits, and the
  route answers `mejorValor: null`. `Knapsack.Item` always carries an
  integer score, so the model cannot show this.
- Analisis.Convertir: prices are natural numbers. A negative or fractional
  price, which would make the JavaScript table read a wrong or missing cell
  (`dp[i - 1][w - precio]`), is not modelled.
- Analisis.Mochila: the budget is an integer, and a request whose list is not
  an array is modelled as a missing list. A fractional budget, which would
  make `Array(W + 1)` throw, is not modelled.
- Analisis.Mochila and Analisis.Sustitucion: HTTP, JSON and the 500 answers on
  thrown errors are left out. The 400 answers are modelled as `Failure` with
  their messages.
- Analisis.Sustitucion: the names of the base product and of every
  alternative are assumed to be strings. When one is missing, the source
  throws on `toLowerCase`, and answers 500, as soon as one alternative is
  present. With an empty list the filter never runs, and a missing base
  name gives the normal message "No se encontraron alternativas similares a
  undefined.". A request whose `alternativas` is not an array is modelled as
  a missing list; both get the same 400 answer.
- Strings.ToLower: lower-cases only Basic Latin and Latin-1 capitals. The full
  Unicode case table is not modelled, because the product names are Spanish.
- SustitucionPage: `parseNumero` (comma to dot, then `parseFloat`, then
  `|| 0`) is not modelled. It yields any decimal ("2,5" gives 2.5); the model
  restricts the inputs to integers.
- SustitucionPage: the four input handlers are not modelled, and the
  fields they write (`productoBase`, `nuevaAlt`) are set by plain
  assignment. The two name inputs store any text unchanged.
  `handleBaseChange` and `handleNuevaAltChange` store `parseNumero` of the
  typed text.
- SustitucionPage: the loading flags are not modelled, and neither is how the
  motivo text is formatted (the sign prefixes). The model keeps the three
  differences the text is built from.
- MochilaPage: the name input's handler is not modelled; it stores any text
  unchanged.
- MochilaPage: `optimizar` is not modelled; it sends the list and the budget
  (`parseFloat(presupuesto) || 0`) to the backend and shows the answer. That
  is network I/O.
- MochilaPage.ParseFloat: the value is kept as digits with a decimal scale,
  `digitos / 10^escala`. Neither its conversion to a binary float nor
  exponent syntax is modelled; `soloNumeros` already excludes exponents.
- The `/sostenibilidad` route, the external product lookups, the database and
  every JSX element render but do not decide, and are left out.
