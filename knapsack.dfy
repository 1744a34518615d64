/** The 0/1 knapsack used to optimise a shopping list under a budget
    (api/src/algorithms/knapsack.js, and the same table inside the
    /mochila handler).

    `Best(items, w)` is the value the table holds in row `|items|`, column
    `w`: it is defined by the skip/take recurrence the code fills the table
    with, and the lemmas below prove that it is the largest total score of
    any subset of `items` whose total price is at most `w`. */
module Knapsack {

  /** One candidate: an integer price and an integer score. */
  datatype Item = Item(price: nat, score: int)

  function Max(a: int, b: int): (m: int)
    ensures m >= a && m >= b && (m == a || m == b)
  {
    if a >= b then a else b
  }

  /** The table entry for the prefix `items` and capacity `w`: row 0 is 0,
      an item dearer than `w` is skipped, otherwise the better of skipping
      and taking it. */
  function Best(items: seq<Item>, w: nat): int
    decreases |items|
  {
    if |items| == 0 then 0
    else
      var init, last := items[..|items| - 1], items[|items| - 1];
      if last.price <= w then Max(Best(init, w), Best(init, w - last.price) + last.score)
      else Best(init, w)
  }

  /** Total price of the items flagged in `pick`. */
  function Cost(items: seq<Item>, pick: seq<bool>): nat
    requires |pick| == |items|
    decreases |items|
  {
    if |items| == 0 then 0
    else
      Cost(items[..|items| - 1], pick[..|pick| - 1])
      + (if pick[|pick| - 1] then items[|items| - 1].price else 0)
  }

  /** Total score of the items flagged in `pick`. */
  function Value(items: seq<Item>, pick: seq<bool>): int
    requires |pick| == |items|
    decreases |items|
  {
    if |items| == 0 then 0
    else
      Value(items[..|items| - 1], pick[..|pick| - 1])
      + (if pick[|pick| - 1] then items[|items| - 1].score else 0)
  }

  /** The elements of `xs` flagged in `pick`, in their order in `xs`. */
  function Selected<T>(xs: seq<T>, pick: seq<bool>): (s: seq<T>)
    requires |pick| == |xs|
    ensures |s| <= |xs|
    decreases |xs|
  {
    if |xs| == 0 then []
    else
      Selected(xs[..|xs| - 1], pick[..|pick| - 1])
      + (if pick[|pick| - 1] then [xs[|xs| - 1]] else [])
  }

  function NoneTaken(n: nat): (pick: seq<bool>)
    ensures |pick| == n && forall k :: 0 <= k < n ==> !pick[k]
  {
    seq(n, _ => false)
  }

  /** The backward walk of the /mochila handler: from the last item to the
      first, an item is taken when its row differs from the row above at the
      remaining capacity, and the remaining capacity then drops by its price;
      the walk stops as soon as the remaining capacity is 0. */
  function Reconstruct(items: seq<Item>, w: nat): (pick: seq<bool>)
    ensures |pick| == |items|
    decreases |items|
  {
    if |items| == 0 then []
    else if w == 0 then NoneTaken(|items|)
    else
      var init, last := items[..|items| - 1], items[|items| - 1];
      if Best(items, w) != Best(init, w) then
        Reconstruct(init, w - last.price) + [true]
      else
        Reconstruct(init, w) + [false]
  }

  predicate PositivePrices(items: seq<Item>) {
    forall k :: 0 <= k < |items| ==> items[k].price > 0
  }

  // ---------------------------------------------------------------------
  // Optimality of the table

  /** No subset within the budget is worth more than the table entry. */
  lemma {:induction false} BestIsUpperBound(items: seq<Item>, pick: seq<bool>, w: nat)
    requires |pick| == |items| && Cost(items, pick) <= w
    ensures Value(items, pick) <= Best(items, w)
    decreases |items|
  {
    if |items| > 0 {
      var n := |items|;
      var init, ip, last := items[..n - 1], pick[..n - 1], items[n - 1];
      if pick[n - 1] {
        BestIsUpperBound(init, ip, w - last.price);
      } else {
        BestIsUpperBound(init, ip, w);
      }
    }
  }

  /** Some subset within the budget is worth exactly the table entry. */
  lemma {:induction false} BestIsAttained(items: seq<Item>, w: nat) returns (pick: seq<bool>)
    ensures |pick| == |items| && Cost(items, pick) <= w
    ensures Value(items, pick) == Best(items, w)
    decreases |items|
  {
    if |items| == 0 {
      pick := [];
    } else {
      var n := |items|;
      var init, last := items[..n - 1], items[n - 1];
      var skip := BestIsAttained(init, w);
      if last.price <= w && Best(init, w - last.price) + last.score > Best(init, w) {
        var take := BestIsAttained(init, w - last.price);
        pick := take + [true];
        assert pick[..n - 1] == take;
      } else {
        pick := skip + [false];
        assert pick[..n - 1] == skip;
      }
    }
  }

  /** The table entry is the maximum over every subset within the budget. */
  lemma BestIsOptimal(items: seq<Item>, w: nat)
    ensures forall pick :: |pick| == |items| && Cost(items, pick) <= w ==> Value(items, pick) <= Best(items, w)
    ensures exists pick :: |pick| == |items| && Cost(items, pick) <= w && Value(items, pick) == Best(items, w)
  {
    forall pick | |pick| == |items| && Cost(items, pick) <= w
      ensures Value(items, pick) <= Best(items, w)
    {
      BestIsUpperBound(items, pick, w);
    }
    var p := BestIsAttained(items, w);
  }

  /** A larger budget never lowers the optimum. */
  lemma {:induction false} BestMonotoneInBudget(items: seq<Item>, w: nat, w': nat)
    requires w <= w'
    ensures Best(items, w) <= Best(items, w')
  {
    var p := BestIsAttained(items, w);
    BestIsUpperBound(items, p, w');
  }

  /** Considering more items never lowers the optimum. */
  lemma {:induction false} BestMonotoneInItems(items: seq<Item>, i: nat, w: nat)
    requires i <= |items|
    ensures Best(items[..i], w) <= Best(items, w)
    decreases |items|
  {
    if i < |items| {
      var init := items[..|items| - 1];
      assert items[..i] == init[..i];
      BestMonotoneInItems(init, i, w);
      assert Best(init, w) <= Best(items, w);
    } else {
      assert items[..i] == items;
    }
  }

  /** With positive prices nothing fits in a capacity of 0. */
  lemma {:induction false} BestAtZero(items: seq<Item>)
    requires PositivePrices(items)
    ensures Best(items, 0) == 0
    decreases |items|
  {
    if |items| > 0 {
      BestAtZero(items[..|items| - 1]);
    }
  }

  lemma {:induction false} NoneTakenIsEmpty(items: seq<Item>)
    ensures Cost(items, NoneTaken(|items|)) == 0 && Value(items, NoneTaken(|items|)) == 0
    decreases |items|
  {
    if |items| > 0 {
      assert NoneTaken(|items|)[..|items| - 1] == NoneTaken(|items| - 1);
      NoneTakenIsEmpty(items[..|items| - 1]);
    }
  }

  /** The backward walk recovers an optimal subset: it fits the capacity and
      is worth exactly the table entry it starts from. */
  lemma {:induction false} ReconstructIsOptimal(items: seq<Item>, w: nat)
    requires PositivePrices(items)
    ensures Cost(items, Reconstruct(items, w)) <= w
    ensures Value(items, Reconstruct(items, w)) == Best(items, w)
    decreases |items|
  {
    if |items| == 0 {
    } else if w == 0 {
      NoneTakenIsEmpty(items);
      BestAtZero(items);
    } else {
      var n := |items|;
      var init, last := items[..n - 1], items[n - 1];
      assert PositivePrices(init);
      var pick := Reconstruct(items, w);
      if Best(items, w) != Best(init, w) {
        var rest := Reconstruct(init, w - last.price);
        ReconstructIsOptimal(init, w - last.price);
        assert pick == rest + [true] && pick[..n - 1] == rest;
      } else {
        var rest := Reconstruct(init, w);
        ReconstructIsOptimal(init, w);
        assert pick == rest + [false] && pick[..n - 1] == rest;
      }
    }
  }

  /** A single item that fits and has a positive score is chosen. */
  lemma SingleItemChosen(it: Item, w: nat)
    requires 0 < it.price <= w && it.score > 0
    ensures Best([it], w) == it.score
    ensures Reconstruct([it], w) == [true]
  {
    assert [it][..0] == [];
  }

  // ---------------------------------------------------------------------
  // The table, filled in place

  lemma BestStep(items: seq<Item>, i: nat, w: nat)
    requires 1 <= i <= |items|
    ensures items[i - 1].price > w ==> Best(items[..i], w) == Best(items[..i - 1], w)
    ensures items[i - 1].price <= w ==>
      Best(items[..i], w) == Max(Best(items[..i - 1], w), Best(items[..i - 1], w - items[i - 1].price) + items[i - 1].score)
  {
    assert items[..i][..i - 1] == items[..i - 1];
  }

  /** Allocates the `(n+1) x (budget+1)` table and fills it row by row;
      every cell holds the optimum for its prefix and capacity. */
  method BuildTable(items: seq<Item>, budget: nat) returns (dp: array2<int>)
    ensures dp.Length0 == |items| + 1 && dp.Length1 == budget + 1
    ensures forall i, w :: 0 <= i <= |items| && 0 <= w <= budget ==> dp[i, w] == Best(items[..i], w)
    ensures forall w :: 0 <= w <= budget ==> dp[0, w] == 0
    ensures forall i, w :: 1 <= i <= |items| && 0 <= w <= budget && items[i - 1].price > w ==>
      dp[i, w] == dp[i - 1, w]
    ensures forall i, w :: 1 <= i <= |items| && 0 <= w <= budget && items[i - 1].price <= w ==>
      dp[i, w] == Max(dp[i - 1, w], dp[i - 1, w - items[i - 1].price] + items[i - 1].score)
  {
    var n := |items|;
    dp := new int[n + 1, budget + 1]((_, _) => 0);
    assert items[..0] == [];
    var i := 1;
    while i <= n
      invariant 1 <= i <= n + 1
      invariant forall r, c :: 0 <= r < i && 0 <= c <= budget ==> dp[r, c] == Best(items[..r], c)
    {
      var price, score := items[i - 1].price, items[i - 1].score;
      var w := 0;
      while w <= budget
        invariant 0 <= w <= budget + 1
        invariant forall r, c :: 0 <= r < i && 0 <= c <= budget ==> dp[r, c] == Best(items[..r], c)
        invariant forall c :: 0 <= c < w ==> dp[i, c] == Best(items[..i], c)
      {
        BestStep(items, i, w);
        if price <= w {
          dp[i, w] := Max(dp[i - 1, w], dp[i - 1, w - price] + score);
        } else {
          dp[i, w] := dp[i - 1, w];
        }
        w := w + 1;
      }
      i := i + 1;
    }
    forall i, w | 1 <= i <= n && 0 <= w <= budget
      ensures items[i - 1].price > w ==> dp[i, w] == dp[i - 1, w]
      ensures items[i - 1].price <= w ==>
        dp[i, w] == Max(dp[i - 1, w], dp[i - 1, w - items[i - 1].price] + items[i - 1].score)
    {
      BestStep(items, i, w);
    }
  }

  /** optimizarLista: the best total score reachable within the budget. */
  method OptimizarLista(items: seq<Item>, presupuesto: nat) returns (best: int)
    ensures best == Best(items, presupuesto)
    ensures forall pick :: |pick| == |items| && Cost(items, pick) <= presupuesto ==> Value(items, pick) <= best
    ensures exists pick :: |pick| == |items| && Cost(items, pick) <= presupuesto && Value(items, pick) == best
    ensures items == [] ==> best == 0
  {
    var dp := BuildTable(items, presupuesto);
    best := dp[|items|, presupuesto];
    assert items[..|items|] == items;
    BestIsOptimal(items, presupuesto);
  }
}
