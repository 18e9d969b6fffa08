/** Largest-remainder shares of a pool of tokens (src/purra/context_budget.py, _proportional_shares). */
module Apportionment {
  import opened Prelude

  function Sum(s: seq<int>): int {
    if s == [] then 0 else Sum(s[..|s| - 1]) + s[|s| - 1]
  }

  function AtLeastZero(x: int): nat { if x < 0 then 0 else x }

  function Weights(weights: seq<int>): seq<nat> {
    seq(|weights|, i requires 0 <= i < |weights| => AtLeastZero(weights[i]))
  }

  /** The whole part of weight * pool / total, and what is left over of it. */
  function Quotient(w: nat, pool: nat, total: pos): nat { w * pool / total }

  function Remainder(w: nat, pool: nat, total: pos): nat { w * pool % total }

  /** `i` has a claim to a further token before `j`. */
  predicate Ahead(w: seq<nat>, pool: nat, total: pos, i: nat, j: nat)
    requires i < |w| && j < |w|
  {
    var (r, s) := (Remainder(w[i], pool, total), Remainder(w[j], pool, total));
    r > s || (r == s && i < j)
  }

  /** The pool is handed out in whole parts, and the rest one by one to the largest remainders. */
  ghost predicate Apportioned(w: seq<nat>, pool: nat, shares: seq<nat>) {
    && |shares| == |w|
    && if Sum(w) <= 0 then forall i :: 0 <= i < |w| ==> shares[i] == 0
       else
         && Sum(shares) == pool
         && (forall i :: 0 <= i < |w| ==> 0 <= shares[i] - Quotient(w[i], pool, Sum(w)) <= 1)
         && (forall i, j :: 0 <= i < |w| && 0 <= j < |w|
               && shares[i] > Quotient(w[i], pool, Sum(w)) && shares[j] == Quotient(w[j], pool, Sum(w))
               ==> Ahead(w, pool, Sum(w), i, j))
  }

  // ----- sums ---------------------------------------------------------------

  lemma {:induction false} SumUpdate(s: seq<int>, i: nat, x: int)
    requires i < |s|
    ensures Sum(s[i := x]) == Sum(s) - s[i] + x
  {
    var n := |s| - 1;
    if i == n {
      assert s[i := x][..n] == s[..n];
    } else {
      assert s[i := x][..n] == s[..n][i := x];
      SumUpdate(s[..n], i, x);
    }
  }

  lemma {:induction false} SumGrows(s: seq<int>, t: seq<int>)
    requires |s| == |t| && forall i :: 0 <= i < |s| ==> s[i] <= t[i]
    ensures Sum(s) <= Sum(t)
    ensures Sum(s) == Sum(t) ==> s == t
  {
    if s != [] {
      var n := |s| - 1;
      SumGrows(s[..n], t[..n]);
      if Sum(s) == Sum(t) { assert s == s[..n] + [s[n]] && t == t[..n] + [t[n]]; }
    }
  }

  lemma {:induction false} SumIsNotNegative(s: seq<int>)
    requires forall i :: 0 <= i < |s| ==> s[i] >= 0
    ensures Sum(s) >= 0
    ensures Sum(s) == 0 ==> forall i :: 0 <= i < |s| ==> s[i] == 0
    ensures forall i :: 0 <= i < |s| ==> s[i] <= Sum(s)
  {
    if s != [] {
      var n := |s| - 1;
      SumIsNotNegative(s[..n]);
      assert forall i :: 0 <= i < n ==> s[i] == s[..n][i];
    }
  }

  // ----- the leftover -------------------------------------------------------

  function Quotients(w: seq<nat>, pool: nat, total: pos): seq<nat> {
    seq(|w|, i requires 0 <= i < |w| => Quotient(w[i], pool, total))
  }

  function Remainders(w: seq<nat>, pool: nat, total: pos): seq<nat> {
    seq(|w|, i requires 0 <= i < |w| => Remainder(w[i], pool, total))
  }

  lemma DivMod(a: nat, total: pos)
    ensures a == a / total * total + a % total && 0 <= a % total < total
  {
  }

  lemma Distribute(a: int, b: int, c: int)
    ensures (a + b) * c == a * c + b * c
  {
  }

  lemma Subtract(a: int, b: int, c: int)
    ensures (a - b) * c == a * c - b * c
  {
  }

  /** Weights times pool are the quotients times total and the remainders. */
  lemma {:induction false} PartsAddUp(w: seq<nat>, pool: nat, total: pos)
    ensures Sum(w) * pool == Sum(Quotients(w, pool, total)) * total + Sum(Remainders(w, pool, total))
  {
    if w != [] {
      var n := |w| - 1;
      var (qs, rs) := (Quotients(w[..n], pool, total), Remainders(w[..n], pool, total));
      assert Quotients(w, pool, total)[..n] == qs && Remainders(w, pool, total)[..n] == rs;
      PartsAddUp(w[..n], pool, total);
      DivMod(w[n] * pool, total);
      Distribute(Sum(w[..n]), w[n], pool);
      Distribute(Sum(qs), Quotient(w[n], pool, total), total);
      var (a, b) := (Sum(w[..n]) * pool, Sum(qs) * total);
      assert a == b + Sum(rs);
    }
  }

  /** What the whole parts leave over is what the remainders add up to. */
  lemma LeftoverIsRemainders(w: seq<nat>, pool: nat)
    requires Sum(w) > 0
    ensures var left := pool - Sum(Quotients(w, pool, Sum(w)));
      left >= 0 && left * Sum(w) == Sum(Remainders(w, pool, Sum(w)))
  {
    var total := Sum(w);
    PartsAddUp(w, pool, total);
    SumIsNotNegative(Remainders(w, pool, total));
    var (q, r) := (Sum(Quotients(w, pool, total)), Sum(Remainders(w, pool, total)));
    assert total * pool == q * total + r;
    Subtract(pool, q, total);
    SignOfFactor(pool - q, total);
  }

  lemma SignOfFactor(a: int, b: pos)
    ensures a * b >= 0 ==> a >= 0
    ensures a * b > 0 ==> a > 0
  {
  }

  /** Remainders that are positive at no more than `n` places add up to less than `n` totals, unless there are none. */
  lemma {:induction false} FewRemainders(r: seq<nat>, total: pos, n: nat)
    requires (forall i :: 0 <= i < |r| ==> r[i] < total) && Positive(r) <= n
    ensures Sum(r) <= n * total && (n > 0 ==> Sum(r) < n * total)
    decreases |r|
  {
    if r != [] {
      var m := |r| - 1;
      if r[m] == 0 {
        FewRemainders(r[..m], total, n);
      } else {
        FewRemainders(r[..m], total, n - 1);
        Distribute(n - 1, 1, total);
      }
    } else if n > 0 {
      PositiveProduct(n, total);
    }
  }

  lemma PositiveProduct(a: pos, b: pos)
    ensures a * b > 0
  {
  }

  function Positive(r: seq<nat>): nat {
    if r == [] then 0 else Positive(r[..|r| - 1]) + if r[|r| - 1] > 0 then 1 else 0
  }

  lemma {:induction false} PositiveIsShort(r: seq<nat>)
    ensures Positive(r) <= |r|
  {
    if r != [] { PositiveIsShort(r[..|r| - 1]); }
  }

  // ----- what shares are like -----------------------------------------------

  lemma ShareAtMostWeight(w: nat, pool: nat, total: pos)
    requires pool <= total
    ensures Quotient(w, pool, total) <= w
    ensures Remainder(w, pool, total) > 0 ==> Quotient(w, pool, total) < w
  {
    DivMod(w * pool, total);
    var (q, r) := (Quotient(w, pool, total), Remainder(w, pool, total));
    SmallerProduct(w, pool, total);
    Subtract(w, q, total);
    SignOfFactor(w - q, total);
  }

  lemma SmallerProduct(w: nat, a: nat, b: nat)
    requires a <= b
    ensures w * a <= w * b
  {
    Distribute(a, b - a, w);
  }

  /** There are more positive remainders than tokens left over, so every further token goes to one of them. */
  lemma EnoughRemainders(w: seq<nat>, pool: nat)
    requires Sum(w) > 0
    ensures var (total, r) := (Sum(w), Remainders(w, pool, Sum(w)));
      var left := pool - Sum(Quotients(w, pool, total));
      left >= 0 && (left > 0 ==> left < Positive(r)) && left <= |w|
  {
    hide Sum, Quotients, Quotient, Positive;
    var (total, r) := (Sum(w), Remainders(w, pool, Sum(w)));
    var left := pool - Sum(Quotients(w, pool, total));
    LeftoverIsRemainders(w, pool);
    PositiveIsShort(r);
    forall i | 0 <= i < |r| ensures r[i] < total { DivMod(w[i] * pool, total); }
    if left > 0 && left >= Positive(r) { FewRemainders(r, total, left); }
  }

  /** Only places with a positive remainder receive a further token. */
  lemma FurtherTokensGoToRemainders(w: seq<nat>, pool: nat, shares: seq<nat>, i: nat)
    requires Apportioned(w, pool, shares) && Sum(w) > 0 && i < |w| && shares[i] > Quotient(w[i], pool, Sum(w))
    ensures Remainder(w[i], pool, Sum(w)) > 0
  {
    hide Sum, Quotient, Positive;
    var (total, r, q) := (Sum(w), Remainders(w, pool, Sum(w)), Quotients(w, pool, Sum(w)));
    EnoughRemainders(w, pool);
    SumGrows(q, shares);
    if Remainder(w[i], pool, total) == 0 {
      forall j | 0 <= j < |w| && r[j] > 0 ensures shares[j] > q[j] { assert !Ahead(w, pool, total, i, j); }
      BumpsCount(q, shares, r);
    }
  }

  lemma {:induction false} BumpsCount(q: seq<nat>, shares: seq<nat>, r: seq<nat>)
    requires |q| == |shares| == |r|
    requires forall j :: 0 <= j < |q| ==> q[j] <= shares[j] && (r[j] > 0 ==> shares[j] > q[j])
    ensures Sum(q) + Positive(r) <= Sum(shares)
  {
    if q != [] {
      var n := |q| - 1;
      BumpsCount(q[..n], shares[..n], r[..n]);
    }
  }

  /** No share exceeds its weight while the pool does not exceed the weights. */
  lemma SharesFitWeights(w: seq<nat>, pool: nat, shares: seq<nat>, i: nat)
    requires Apportioned(w, pool, shares) && pool <= Sum(w) && i < |w|
    ensures shares[i] <= w[i]
  {
    if Sum(w) > 0 {
      ShareAtMostWeight(w[i], pool, Sum(w));
      if shares[i] > Quotient(w[i], pool, Sum(w)) { FurtherTokensGoToRemainders(w, pool, shares, i); }
    }
  }

  /** No two apportionments each favour a place of their own. */
  lemma NoCrossing(w: seq<nat>, pool: nat, a: seq<nat>, b: seq<nat>, i: nat, j: nat)
    requires Apportioned(w, pool, a) && Apportioned(w, pool, b) && i < |w| && j < |w| && a[i] > b[i]
    ensures b[j] <= a[j]
  {
    hide Sum, Quotient, Remainder;
    assert b[j] > a[j] ==> Ahead(w, pool, Sum(w), i, j);
    assert b[j] > a[j] ==> Ahead(w, pool, Sum(w), j, i);
  }

  /** The shares are determined by the weights and the pool. */
  lemma ApportionmentIsUnique(w: seq<nat>, pool: nat, a: seq<nat>, b: seq<nat>)
    requires Apportioned(w, pool, a) && Apportioned(w, pool, b)
    ensures a == b
  {
    hide Sum, Quotient, Remainder;
    if Sum(w) <= 0 {
      assert a == b;
    } else if i :| 0 <= i < |w| && a[i] > b[i] {
      forall j | 0 <= j < |w| ensures b[j] <= a[j] { NoCrossing(w, pool, a, b, i, j); }
      SumGrows(b, a);
    } else {
      SumGrows(a, b);
    }
  }

  // ----- the algorithm ------------------------------------------------------

  method Total(weights: seq<int>) returns (total: nat)
    ensures total == Sum(Weights(weights))
  {
    total := 0;
    var i := 0;
    while i < |weights|
      invariant i <= |weights| && total == Sum(Weights(weights)[..i])
    {
      assert Weights(weights)[..i + 1][..i] == Weights(weights)[..i];
      total := total + AtLeastZero(weights[i]);
      i := i + 1;
    }
    assert Weights(weights)[..i] == Weights(weights);
  }

  ghost predicate Ranked(w: seq<nat>, pool: nat, total: pos, order: seq<nat>) {
    && (forall k :: 0 <= k < |order| ==> order[k] < |w|)
    && (forall k, m :: 0 <= k < m < |order| ==> Ahead(w, pool, total, order[k], order[m]))
  }

  /** The places in the order of their remainders, largest first, earlier places first. */
  method Rank(w: seq<nat>, pool: nat, total: pos) returns (order: seq<nat>)
    ensures Ranked(w, pool, total, order) && forall i :: 0 <= i < |w| ==> i in order
  {
    order := [];
    var i := 0;
    while i < |w|
      invariant i <= |w| && Ranked(w, pool, total, order)
      invariant forall k :: 0 <= k < |order| ==> order[k] < i
      invariant forall j :: 0 <= j < i ==> j in order
    {
      var at := |order|;
      while at > 0 && Ahead(w, pool, total, i, order[at - 1])
        invariant 0 <= at <= |order|
        invariant forall k :: at <= k < |order| ==> Ahead(w, pool, total, i, order[k])
      {
        at := at - 1;
      }
      InsertRanked(w, pool, total, order, i, at);
      order := order[..at] + [i] + order[at..];
      i := i + 1;
    }
  }

  lemma InsertRanked(w: seq<nat>, pool: nat, total: pos, order: seq<nat>, i: nat, at: nat)
    requires Ranked(w, pool, total, order) && i < |w| && at <= |order|
    requires forall k :: 0 <= k < |order| ==> order[k] < i
    requires forall k :: at <= k < |order| ==> Ahead(w, pool, total, i, order[k])
    requires at > 0 ==> !Ahead(w, pool, total, i, order[at - 1])
    ensures var longer := order[..at] + [i] + order[at..];
      Ranked(w, pool, total, longer) && (forall j :: j in order ==> j in longer) && i in longer
  {
    hide Remainder;
    var longer := order[..at] + [i] + order[at..];
    forall k, m | 0 <= k < m < |longer| ensures Ahead(w, pool, total, longer[k], longer[m]) {
      if m == at && k < at - 1 { assert Ahead(w, pool, total, order[k], order[at - 1]); }
    }
    forall j | j in order ensures j in longer {
      var k :| 0 <= k < |order| && order[k] == j;
      assert longer[if k < at then k else k + 1] == j;
    }
    assert longer[at] == i;
  }

  lemma RankedIsDistinct(w: seq<nat>, pool: nat, total: pos, order: seq<nat>)
    requires Ranked(w, pool, total, order)
    ensures Distinct(order)
  {
    hide Remainder;
  }

  lemma RankedIsFull(w: seq<nat>, pool: nat, total: pos, order: seq<nat>)
    requires Ranked(w, pool, total, order) && forall i :: 0 <= i < |w| ==> i in order
    ensures Distinct(order) && |order| == |w|
  {
    RankedIsDistinct(w, pool, total, order);
    CountTellsDistinct(order);
    var all := seq(|w|, i => i);
    CountTellsDistinct(all);
    forall i | i in Elements(order) ensures i in Elements(all) { assert all[i] == i; }
    assert Elements(order) == Elements(all);
  }

  /** Shares of a pool in proportion to the weights: whole parts first, then the largest remainders. */
  method ProportionalShares(weights: seq<int>, available: int) returns (shares: seq<nat>)
    ensures Apportioned(Weights(weights), AtLeastZero(available), shares)
  {
    hide Quotient, Remainder, Ranked;
    var w := Weights(weights);
    var total := Total(weights);
    var pool := AtLeastZero(available);
    SumIsNotNegative(w);
    if total == 0 || pool == 0 {
      shares := seq(|weights|, i => 0);
      if total > 0 { NothingToShare(w, shares); }
      return;
    }
    var q := Quotients(w, pool, total);
    shares := q;
    var handed := 0;
    var i := 0;
    while i < |q|
      invariant i <= |q| && handed == Sum(q[..i])
    {
      assert q[..i + 1][..i] == q[..i];
      handed := handed + q[i];
      i := i + 1;
    }
    assert q[..i] == q;
    EnoughRemainders(w, pool);
    var remaining := pool - handed;
    var order := Rank(w, pool, total);
    RankedIsFull(w, pool, total, order);
    var k := 0;
    while k < remaining
      invariant 0 <= k <= remaining <= |order| && |shares| == |w| && Sum(shares) == handed + k
      invariant forall m :: 0 <= m < |order| ==> order[m] < |w|
      invariant forall m :: 0 <= m < |order| ==> shares[order[m]] == q[order[m]] + if m < k then 1 else 0
    {
      RankedPlace(w, pool, total, order, k);
      SumUpdate(shares, order[k], shares[order[k]] + 1);
      shares := shares[order[k] := shares[order[k]] + 1];
      k := k + 1;
    }
    TopRemaindersAreApportioned(w, pool, shares, order, remaining);
  }

  lemma RankedPlace(w: seq<nat>, pool: nat, total: pos, order: seq<nat>, k: nat)
    requires Ranked(w, pool, total, order) && k < |order|
    ensures order[k] < |w|
  {
  }

  lemma NothingToShare(w: seq<nat>, shares: seq<nat>)
    requires Sum(w) > 0 && |shares| == |w| && forall i :: 0 <= i < |w| ==> shares[i] == 0
    ensures Apportioned(w, 0, shares)
  {
    Zeros(shares);
    forall i | 0 <= i < |w| ensures Quotient(w[i], 0, Sum(w)) == 0 { assert w[i] * 0 == 0; }
  }

  lemma {:induction false} Zeros(s: seq<int>)
    requires forall i :: 0 <= i < |s| ==> s[i] == 0
    ensures Sum(s) == 0
  {
    if s != [] { Zeros(s[..|s| - 1]); }
  }

  lemma TopRemaindersAreApportioned(w: seq<nat>, pool: nat, shares: seq<nat>, order: seq<nat>, remaining: nat)
    requires Sum(w) > 0 && |shares| == |w| && Sum(shares) == pool && remaining <= |order|
    requires Ranked(w, pool, Sum(w), order) && forall i :: 0 <= i < |w| ==> i in order
    requires forall m :: 0 <= m < |order| ==>
      order[m] < |w| && shares[order[m]] == Quotient(w[order[m]], pool, Sum(w)) + if m < remaining then 1 else 0
    ensures Apportioned(w, pool, shares)
  {
    hide Quotient, Remainder;
    forall i | 0 <= i < |w| ensures 0 <= shares[i] - Quotient(w[i], pool, Sum(w)) <= 1 {
      assert i in order;
      var m :| 0 <= m < |order| && order[m] == i;
    }
    forall i, j | 0 <= i < |w| && 0 <= j < |w| && shares[i] > Quotient(w[i], pool, Sum(w))
        && shares[j] == Quotient(w[j], pool, Sum(w))
      ensures Ahead(w, pool, Sum(w), i, j)
    {
      assert i in order && j in order;
      var m :| 0 <= m < |order| && order[m] == i;
      var n :| 0 <= n < |order| && order[n] == j;
      assert m < n;
    }
  }
}
