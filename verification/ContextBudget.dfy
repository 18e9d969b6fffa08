/** Allocating the context window (src/purra/context_budget.py, _allocate_claims and allocate_context_budget). */
module ContextBudget {
  import opened Prelude
  import opened Apportionment

  /** A demand; its constructor checks that the minimum does not exceed what is desired. */
  datatype Claim = Claim(name: string, desired: nat, minimum: nat, priority: int) {
    predicate Valid() { minimum <= desired }
  }

  ghost predicate AllValid(claims: seq<Claim>) { forall i :: 0 <= i < |claims| ==> claims[i].Valid() }

  datatype Fault = BadWindow | BadOutput | NegativeReserve | ReservesExceedWindow | DuplicateNames | MinimumsExceedPool

  function Minimums(claims: seq<Claim>): seq<nat> {
    seq(|claims|, i requires 0 <= i < |claims| => claims[i].minimum)
  }

  function Desired(claims: seq<Claim>): seq<nat> {
    seq(|claims|, i requires 0 <= i < |claims| => claims[i].desired)
  }

  // ----- groups of equal priority -------------------------------------------

  /** The places of the claims with a priority, in order. */
  function Group(claims: seq<Claim>, priority: int): (g: seq<nat>)
    ensures forall k :: 0 <= k < |g| ==> g[k] < |claims| && claims[g[k]].priority == priority
    ensures forall i: nat :: i < |claims| && claims[i].priority == priority ==> i in g
    ensures forall k, m :: 0 <= k < m < |g| ==> g[k] < g[m]
  {
    if claims == [] then []
    else
      var n := |claims| - 1;
      Group(claims[..n], priority) + if claims[n].priority == priority then [n] else []
  }

  function Need(c: Claim): nat
    requires c.Valid()
  {
    c.desired - c.minimum
  }

  function Extra(c: Claim, tokens: nat): nat
    requires c.minimum <= tokens
  {
    tokens - c.minimum
  }

  function Needs(claims: seq<Claim>, g: seq<nat>): seq<nat>
    requires forall k :: 0 <= k < |g| ==> g[k] < |claims| && claims[g[k]].Valid()
  {
    seq(|g|, k requires 0 <= k < |g| => Need(claims[g[k]]))
  }

  /** What the claims of a group hold beyond their minimums. */
  function Extras(claims: seq<Claim>, allocation: seq<nat>, g: seq<nat>): seq<nat>
    requires |allocation| == |claims|
    requires forall k :: 0 <= k < |g| ==> g[k] < |claims| && claims[g[k]].minimum <= allocation[g[k]]
  {
    seq(|g|, k requires 0 <= k < |g| => Extra(claims[g[k]], allocation[g[k]]))
  }

  // ----- what an allocation promises ----------------------------------------

  ghost predicate Bounded(claims: seq<Claim>, allocation: seq<nat>) {
    |allocation| == |claims|
    && forall i :: 0 <= i < |claims| ==> claims[i].minimum <= allocation[i] <= claims[i].desired
  }

  /** No claim rises above its minimum before every claim of higher priority is met in full. */
  ghost predicate Dominant(claims: seq<Claim>, allocation: seq<nat>)
    requires |allocation| == |claims|
  {
    forall i, j :: 0 <= i < |claims| && 0 <= j < |claims|
      && claims[j].priority > claims[i].priority && allocation[i] > claims[i].minimum
      ==> allocation[j] == claims[j].desired
  }

  /** Within a priority the extra tokens are apportioned by need. */
  ghost predicate FairAt(claims: seq<Claim>, allocation: seq<nat>, priority: int)
    requires AllValid(claims) && Bounded(claims, allocation)
  {
    var (w, x) := (Needs(claims, Group(claims, priority)), Extras(claims, allocation, Group(claims, priority)));
    Sum(x) >= 0 && Apportioned(w, Sum(x), x)
  }

  function Least(a: int, b: int): int { if a < b then a else b }

  /** Nothing is lost, nothing is overspent, and priorities and proportions are respected. */
  ghost predicate Funded(claims: seq<Claim>, pool: nat, allocation: seq<nat>)
    requires AllValid(claims)
  {
    && Bounded(claims, allocation) && Sum(allocation) == Least(pool, Sum(Desired(claims)))
    && Dominant(claims, allocation) && forall p {:trigger FairAt(claims, allocation, p)} :: FairAt(claims, allocation, p)
  }

  // ----- stages of the algorithm --------------------------------------------

  ghost predicate Descending(ps: seq<int>) { forall k, m :: 0 <= k < m < |ps| ==> ps[k] > ps[m] }

  ghost predicate Lists(claims: seq<Claim>, ps: seq<int>) {
    Descending(ps) && forall i :: 0 <= i < |claims| ==> claims[i].priority in ps
  }

  /** The priorities listed in `met` are met in full, the others hold their minimums. */
  ghost predicate Stage(claims: seq<Claim>, met: seq<int>, allocation: seq<nat>) {
    |allocation| == |claims|
    && forall i :: 0 <= i < |claims| ==>
         allocation[i] == if claims[i].priority in met then claims[i].desired else claims[i].minimum
  }

  /** The tokens `xs` were added at the places `g`. */
  ghost predicate Added(before: seq<nat>, g: seq<nat>, xs: seq<nat>, after: seq<nat>) {
    && |after| == |before| && |xs| == |g|
    && (forall k :: 0 <= k < |g| ==> g[k] < |before| && after[g[k]] == before[g[k]] + xs[k])
    && (forall i: nat :: i < |before| && i !in g ==> after[i] == before[i])
    && Sum(after) == Sum(before) + Sum(xs)
  }

  lemma WholeIsApportioned(w: seq<nat>)
    ensures Sum(w) >= 0 && Apportioned(w, Sum(w), w)
  {
    SumIsNotNegative(w);
    if Sum(w) > 0 {
      forall i | 0 <= i < |w| ensures Quotient(w[i], Sum(w), Sum(w)) == w[i] { WholeQuotient(w[i], Sum(w)); }
    }
  }

  lemma WholeQuotient(w: nat, total: pos)
    ensures Quotient(w, total, total) == w
  {
    DivMod(w * total, total);
    var q := Quotient(w, total, total);
    Subtract(w, q, total);
    SignOfFactor(w - q, total);
    if w > q { SmallerProduct(total, 1, w - q); }
  }

  lemma NothingIsApportioned(w: seq<nat>, x: seq<nat>)
    requires |x| == |w| && forall i :: 0 <= i < |x| ==> x[i] == 0
    ensures Sum(x) == 0 && Apportioned(w, 0, x)
  {
    Zeros(x);
    SumIsNotNegative(w);
    if Sum(w) > 0 { NothingToShare(w, x); }
  }

  lemma StageIsBounded(claims: seq<Claim>, met: seq<int>, allocation: seq<nat>)
    requires AllValid(claims) && Stage(claims, met, allocation)
    ensures Bounded(claims, allocation)
  {
  }

  /** Priorities that are met in full or not at all are fair. */
  lemma StageIsFair(claims: seq<Claim>, met: seq<int>, allocation: seq<nat>, later: seq<nat>, p: int)
    requires AllValid(claims) && Stage(claims, met, allocation) && Bounded(claims, later)
    requires forall i :: 0 <= i < |claims| && claims[i].priority == p ==> later[i] == allocation[i]
    ensures FairAt(claims, later, p)
  {
    var g := Group(claims, p);
    var (w, x) := (Needs(claims, g), Extras(claims, later, g));
    forall k | 0 <= k < |g| ensures x[k] == if p in met then w[k] else 0 { }
    if p in met {
      assert x == w;
      WholeIsApportioned(w);
    } else {
      NothingIsApportioned(w, x);
    }
  }

  /** One more priority met in full. */
  lemma NextStage(claims: seq<Claim>, ps: seq<int>, t: nat, before: seq<nat>, after: seq<nat>)
    requires AllValid(claims) && Descending(ps) && t < |ps| && Stage(claims, ps[..t], before)
    requires Added(before, Group(claims, ps[t]), Needs(claims, Group(claims, ps[t])), after)
    ensures Stage(claims, ps[..t + 1], after)
  {
    var g := Group(claims, ps[t]);
    assert ps[..t + 1] == ps[..t] + [ps[t]];
    forall i: nat | i < |claims|
      ensures after[i] == if claims[i].priority in ps[..t + 1] then claims[i].desired else claims[i].minimum
    {
      if i in g {
        var k :| 0 <= k < |g| && g[k] == i;
        assert ps[t] !in ps[..t];
      }
    }
  }

  /** A priority that needs nothing is met already. */
  lemma NeedlessStage(claims: seq<Claim>, ps: seq<int>, t: nat, allocation: seq<nat>)
    requires AllValid(claims) && Descending(ps) && t < |ps| && Stage(claims, ps[..t], allocation)
    requires Sum(Needs(claims, Group(claims, ps[t]))) <= 0
    ensures Stage(claims, ps[..t + 1], allocation)
  {
    var g := Group(claims, ps[t]);
    var w := Needs(claims, g);
    SumIsNotNegative(w);
    assert ps[..t + 1] == ps[..t] + [ps[t]];
    forall i: nat | i < |claims| && claims[i].priority == ps[t] ensures claims[i].desired == claims[i].minimum {
      assert i in g;
      var k :| 0 <= k < |g| && g[k] == i;
      assert w[k] == 0;
    }
  }

  lemma SumOfDesired(claims: seq<Claim>, allocation: seq<nat>)
    requires Bounded(claims, allocation)
    ensures Sum(allocation) <= Sum(Desired(claims))
  {
    SumGrows(allocation, Desired(claims));
  }

  /** When every priority is met the allocation is what was desired. */
  lemma LastStageIsFunded(claims: seq<Claim>, ps: seq<int>, pool: nat, allocation: seq<nat>)
    requires AllValid(claims) && Lists(claims, ps) && Stage(claims, ps, allocation) && Sum(allocation) <= pool
    ensures Funded(claims, pool, allocation)
  {
    StageIsBounded(claims, ps, allocation);
    assert allocation == Desired(claims);
    forall p ensures FairAt(claims, allocation, p) { StageIsFair(claims, ps, allocation, allocation, p); }
  }

  /** Sharing what is left among the first priority that cannot be met ends the allocation. */
  lemma SharedStageIsFunded(claims: seq<Claim>, ps: seq<int>, t: nat, pool: nat, before: seq<nat>, shares: seq<nat>,
                            after: seq<nat>)
    requires AllValid(claims) && Lists(claims, ps) && t < |ps| && Stage(claims, ps[..t], before) && Sum(before) <= pool
    requires Added(before, Group(claims, ps[t]), shares, after)
    requires var w := Needs(claims, Group(claims, ps[t]));
      Sum(w) > 0 && pool - Sum(before) <= Sum(w) && Apportioned(w, pool - Sum(before), shares)
    ensures Funded(claims, pool, after)
  {
    hide Sum, Apportioned, FairAt, Dominant, Group;
    var w := Needs(claims, Group(claims, ps[t]));
    SharedIsBounded(claims, ps, t, before, w, pool - Sum(before), shares, after);
    SharedSum(claims, before, w, pool, ps[t], shares, after);
    OutsideGroup(claims, ps[t], before, shares, after);
    SharedIsDominant(claims, ps, t, before, after);
    forall p ensures FairAt(claims, after, p) {
      if p == ps[t] { SharedIsFair(claims, ps, t, before, shares, after, pool - Sum(before)); }
      else { StageIsFair(claims, ps[..t], before, after, p); }
    }
  }

  lemma OutsideGroup(claims: seq<Claim>, p: int, before: seq<nat>, xs: seq<nat>, after: seq<nat>)
    requires |before| == |claims| && Added(before, Group(claims, p), xs, after)
    ensures forall i :: 0 <= i < |claims| && claims[i].priority != p ==> after[i] == before[i]
  {
    var g := Group(claims, p);
    forall i: nat | i < |claims| && claims[i].priority != p ensures after[i] == before[i] {
      assert forall k :: 0 <= k < |g| ==> g[k] != i;
    }
  }

  lemma SharedSum(claims: seq<Claim>, before: seq<nat>, w: seq<nat>, pool: nat, p: int, shares: seq<nat>, after: seq<nat>)
    requires Sum(before) <= pool && Sum(w) > 0 && Apportioned(w, pool - Sum(before), shares)
    requires Added(before, Group(claims, p), shares, after) && Bounded(claims, after)
    ensures Sum(after) == Least(pool, Sum(Desired(claims)))
  {
    SumOfDesired(claims, after);
  }

  lemma SharedIsFair(claims: seq<Claim>, ps: seq<int>, t: nat, before: seq<nat>, shares: seq<nat>, after: seq<nat>, left: nat)
    requires AllValid(claims) && Descending(ps) && t < |ps| && Stage(claims, ps[..t], before) && Bounded(claims, after)
    requires Added(before, Group(claims, ps[t]), shares, after)
    requires Sum(Needs(claims, Group(claims, ps[t]))) > 0 && Apportioned(Needs(claims, Group(claims, ps[t])), left, shares)
    ensures FairAt(claims, after, ps[t])
  {
    hide Sum, Apportioned, Group, Needs;
    var g := Group(claims, ps[t]);
    assert ps[t] !in ps[..t];
    forall k | 0 <= k < |g| ensures Extras(claims, after, g)[k] == shares[k] { }
    assert Extras(claims, after, g) == shares;
    SharesAddUp(Needs(claims, g), left, shares);
    FairWhenApportioned(claims, after, ps[t], left, shares);
  }

  lemma SharesAddUp(w: seq<nat>, left: nat, shares: seq<nat>)
    requires Sum(w) > 0 && Apportioned(w, left, shares)
    ensures Sum(shares) == left
  {
  }

  lemma FairWhenApportioned(claims: seq<Claim>, allocation: seq<nat>, p: int, left: nat, shares: seq<nat>)
    requires AllValid(claims) && Bounded(claims, allocation) && Extras(claims, allocation, Group(claims, p)) == shares
    requires Sum(shares) == left && Apportioned(Needs(claims, Group(claims, p)), left, shares)
    ensures FairAt(claims, allocation, p)
  {
    hide Sum, Apportioned, Group, Needs, Extras;
  }

  lemma SharedIsBounded(claims: seq<Claim>, ps: seq<int>, t: nat, before: seq<nat>, w: seq<nat>, left: nat, shares: seq<nat>,
                        after: seq<nat>)
    requires AllValid(claims) && Descending(ps) && t < |ps| && Stage(claims, ps[..t], before)
    requires Added(before, Group(claims, ps[t]), shares, after)
    requires w == Needs(claims, Group(claims, ps[t])) && left <= Sum(w) && Apportioned(w, left, shares)
    ensures Bounded(claims, after)
  {
    hide Sum, Apportioned;
    var g := Group(claims, ps[t]);
    forall i: nat | i < |claims| ensures claims[i].minimum <= after[i] <= claims[i].desired {
      if i in g {
        var k :| 0 <= k < |g| && g[k] == i;
        SharesFitWeights(w, left, shares, k);
        assert ps[t] !in ps[..t];
      }
    }
  }

  lemma SharedIsDominant(claims: seq<Claim>, ps: seq<int>, t: nat, before: seq<nat>, after: seq<nat>)
    requires Lists(claims, ps) && t < |ps| && Stage(claims, ps[..t], before) && |after| == |before|
    requires forall i :: 0 <= i < |claims| && claims[i].priority != ps[t] ==> after[i] == before[i]
    ensures Dominant(claims, after)
  {
    forall i, j | 0 <= i < |claims| && 0 <= j < |claims|
        && claims[j].priority > claims[i].priority && after[i] > claims[i].minimum
      ensures after[j] == claims[j].desired
    {
      var m :| 0 <= m < |ps| && ps[m] == claims[i].priority;
      var n :| 0 <= n < |ps| && ps[n] == claims[j].priority;
      if claims[i].priority != ps[t] { assert claims[i].priority in ps[..t]; }
      assert n < m <= t;
      assert claims[j].priority == ps[..t][n];
    }
  }

  // ----- the algorithm ------------------------------------------------------

  /** The priorities of the claims, each once, highest first. */
  method Priorities(claims: seq<Claim>) returns (ps: seq<int>)
    ensures Lists(claims, ps)
  {
    ps := [];
    var i := 0;
    while i < |claims|
      invariant i <= |claims| && Descending(ps) && forall j :: 0 <= j < i ==> claims[j].priority in ps
    {
      var (p, at) := (claims[i].priority, 0);
      while at < |ps| && ps[at] > p
        invariant 0 <= at <= |ps| && forall k :: 0 <= k < at ==> ps[k] > p
      {
        at := at + 1;
      }
      if at == |ps| || ps[at] < p {
        ghost var was := ps;
        ps := ps[..at] + [p] + ps[at..];
        forall j | 0 <= j < i ensures claims[j].priority in ps {
          var k :| 0 <= k < |was| && was[k] == claims[j].priority;
          assert ps[if k < at then k else k + 1] == claims[j].priority;
        }
        assert ps[at] == p;
      }
      i := i + 1;
    }
  }

  method CollectGroup(claims: seq<Claim>, priority: int) returns (g: seq<nat>)
    ensures g == Group(claims, priority)
  {
    g := [];
    var i := 0;
    while i < |claims|
      invariant i <= |claims| && g == Group(claims[..i], priority)
    {
      assert claims[..i + 1][..i] == claims[..i];
      if claims[i].priority == priority { g := g + [i]; }
      i := i + 1;
    }
    assert claims[..i] == claims;
  }

  method AddTo(before: seq<nat>, g: seq<nat>, xs: seq<nat>) returns (after: seq<nat>)
    requires |xs| == |g| && (forall k :: 0 <= k < |g| ==> g[k] < |before|)
    requires forall k, m :: 0 <= k < m < |g| ==> g[k] < g[m]
    ensures Added(before, g, xs, after)
  {
    after := before;
    var k := 0;
    while k < |g|
      invariant k <= |g| && |after| == |before| && Sum(after) == Sum(before) + Sum(xs[..k])
      invariant forall m :: 0 <= m < |g| ==> after[g[m]] == before[g[m]] + if m < k then xs[m] else 0
      invariant forall i: nat :: i < |before| && i !in g ==> after[i] == before[i]
    {
      assert xs[..k + 1][..k] == xs[..k];
      SumUpdate(after, g[k], after[g[k]] + xs[k]);
      after := after[g[k] := after[g[k]] + xs[k]];
      k := k + 1;
    }
    assert xs[..k] == xs;
  }

  method Add(xs: seq<nat>) returns (total: int)
    ensures total == Sum(xs)
  {
    total := 0;
    var i := 0;
    while i < |xs|
      invariant i <= |xs| && total == Sum(xs[..i])
    {
      assert xs[..i + 1][..i] == xs[..i];
      total := total + xs[i];
      i := i + 1;
    }
    assert xs[..i] == xs;
  }

  /**
   Every claim gets its minimum; then, from the highest priority down, what it desires, as long as the pool lasts;
   the first priority that cannot be met shares what is left.  It fails exactly when the minimums do not fit.
   */
  method AllocateClaims(claims: seq<Claim>, available: int) returns (r: Outcome<seq<nat>, Fault>)
    requires AllValid(claims)
    ensures r.Fail? <==> Sum(Minimums(claims)) > AtLeastZero(available)
    ensures r.Fail? ==> r.fault == MinimumsExceedPool
    ensures r.Ok? ==> Funded(claims, AtLeastZero(available), r.value)
  {
    hide Sum, Apportioned, Group, Added, Stage, Funded, Lists, Needs;
    var pool := AtLeastZero(available);
    var allocation := Minimums(claims);
    var minimumTotal := Add(allocation);
    if minimumTotal > pool { return Fail(MinimumsExceedPool); }
    var remaining := pool - minimumTotal;
    var ps := Priorities(claims);
    FirstStage(claims, ps);
    var t := 0;
    while t < |ps|
      invariant 0 <= t <= |ps| && 0 <= remaining == pool - Sum(allocation)
      invariant Stage(claims, ps[..t], allocation) && Lists(claims, ps)
    {
      var g := CollectGroup(claims, ps[t]);
      GroupFits(claims, ps[t], ps, t, allocation);
      var needs := Needs(claims, g);
      var needed := Add(needs);
      if needed <= 0 {
        NeedlessStage(claims, ps, t, allocation);
      } else if needed <= remaining {
        ghost var before := allocation;
        allocation := AddTo(allocation, g, needs);
        AddedSum(before, g, needs, allocation);
        NextStage(claims, ps, t, before, allocation);
        remaining := remaining - needed;
      } else {
        var shares := ProportionalShares(needs, remaining);
        PlainWeights(needs, remaining, shares);
        var shared := AddTo(allocation, g, shares);
        SharedStageIsFunded(claims, ps, t, pool, allocation, shares, shared);
        return Ok(shared);
      }
      t := t + 1;
    }
    assert ps[..t] == ps;
    LastStageIsFunded(claims, ps, pool, allocation);
    return Ok(allocation);
  }

  lemma FirstStage(claims: seq<Claim>, ps: seq<int>)
    requires Lists(claims, ps)
    ensures Stage(claims, ps[..0], Minimums(claims))
  {
  }

  lemma GroupFits(claims: seq<Claim>, p: int, ps: seq<int>, t: nat, allocation: seq<nat>)
    requires AllValid(claims) && Lists(claims, ps) && t <= |ps| && Stage(claims, ps[..t], allocation)
    ensures var g := Group(claims, p);
      && (forall k :: 0 <= k < |g| ==> g[k] < |claims| && claims[g[k]].Valid()) && |allocation| == |claims| && Descending(ps)
      && (forall k :: 0 <= k < |g| ==> g[k] < |allocation|) && (forall k, m :: 0 <= k < m < |g| ==> g[k] < g[m])
      && |Needs(claims, g)| == |g|
  {
  }

  lemma AddedSum(before: seq<nat>, g: seq<nat>, xs: seq<nat>, after: seq<nat>)
    requires Added(before, g, xs, after)
    ensures Sum(after) == Sum(before) + Sum(xs)
  {
  }

  lemma PlainWeights(w: seq<nat>, left: nat, shares: seq<nat>)
    requires Apportioned(Weights(w), AtLeastZero(left), shares)
    ensures Apportioned(w, left, shares) && |shares| == |w|
  {
    assert Weights(w) == w;
  }

  // ----- the whole window ---------------------------------------------------

  /** Reserves as a host may set them; the safety reserve is always given. */
  datatype Reserves = Reserves(schema: nat, tools: bool, safety: int, runtime: Option<int>, minimum: Option<int>)

  function Clamp(x: int, low: int, high: int): int { Least(high, if x < low then low else x) }

  function RuntimeReserve(window: pos, r: Reserves): int {
    if r.runtime.Some? then r.runtime.value
    else if r.tools then Clamp(window / 10, 4096, 64000) else Clamp(window / 25, 2048, 16000)
  }

  function MinimumMessage(window: pos, r: Reserves): int {
    if r.minimum.Some? then r.minimum.value else Clamp(window / 100, 1024, 8192)
  }

  /** What a host does not reserve itself is a share of the window, rounded down and kept within bounds. */
  lemma DefaultReserves(window: pos, r: Reserves)
    ensures r.runtime.Some? ==> RuntimeReserve(window, r) == r.runtime.value
    ensures r.minimum.Some? ==> MinimumMessage(window, r) == r.minimum.value
    ensures r.runtime.None? && r.tools ==> ShareWithin(RuntimeReserve(window, r), window, 10, 4096, 64000)
    ensures r.runtime.None? && !r.tools ==> ShareWithin(RuntimeReserve(window, r), window, 25, 2048, 16000)
    ensures r.minimum.None? ==> ShareWithin(MinimumMessage(window, r), window, 100, 1024, 8192)
  {
  }

  /** `x` is the whole part of one `parts`-th of the window, or the bound that this passes. */
  predicate ShareWithin(x: int, window: pos, parts: pos, low: nat, high: nat) {
    && low <= x <= high
    && (x * parts <= window < (x + 1) * parts || (x == low && window < low * parts) || (x == high && window >= high * parts))
  }

  predicate ReservesAreNegative(window: pos, r: Reserves) {
    r.safety < 0 || RuntimeReserve(window, r) < 0 || MinimumMessage(window, r) < 0
  }

  datatype Budget = Budget(window: pos, output: int, safety: int, runtime: int, schema: int, providerInput: int,
                           minimum: int, allocation: seq<nat>)
  {
    /** What the constructor of a budget checks. */
    ghost predicate Valid() {
      && 0 <= output && 0 <= safety && 0 <= runtime && 0 <= schema && 0 <= providerInput && 0 <= minimum
      && output + safety + runtime + schema + providerInput <= window
      && Sum(allocation) + minimum <= providerInput
    }
  }

  function Names(claims: seq<Claim>): seq<string> {
    seq(|claims|, i requires 0 <= i < |claims| => claims[i].name)
  }

  /** The tokens left for claims. */
  function Pool(window: pos, output: int, r: Reserves): int {
    window - output - r.safety - RuntimeReserve(window, r) - r.schema - MinimumMessage(window, r)
  }

  /** When a budget can be made. */
  ghost predicate Affordable(window: int, output: int, r: Reserves, claims: seq<Claim>) {
    window > 0 && output > 0 && !ReservesAreNegative(window, r) && Distinct(Names(claims))
    && Sum(Minimums(claims)) <= Pool(window, output, r)
  }

  /** Allocates the window; a budget is made exactly when it is affordable, and it always passes its own checks. */
  method AllocateContextBudget(window: int, output: int, r: Reserves, claims: seq<Claim>)
    returns (b: Outcome<Budget, Fault>)
    requires AllValid(claims)
    ensures b.Ok? <==> Affordable(window, output, r, claims)
    ensures b.Ok? ==>
      && b.value.Valid() && b.value.window == window && b.value.output == output && b.value.minimum <= b.value.providerInput
      && b.value.safety == r.safety && b.value.schema == r.schema
      && b.value.runtime == RuntimeReserve(window, r) && b.value.minimum == MinimumMessage(window, r)
      && output + b.value.safety + b.value.runtime + b.value.schema + b.value.providerInput == window
      && Funded(claims, b.value.providerInput - b.value.minimum, b.value.allocation)
    ensures b.Fail? ==>
      b.fault == (if window <= 0 then BadWindow
                  else if output <= 0 then BadOutput
                  else if ReservesAreNegative(window, r) then NegativeReserve
                  else if Pool(window, output, r) < 0 then ReservesExceedWindow
                  else if !Distinct(Names(claims)) then DuplicateNames
                  else MinimumsExceedPool)
  {
    hide Sum, Funded;
    SumOfMinimums(claims);
    if window <= 0 { return Fail(BadWindow); }
    if output <= 0 { return Fail(BadOutput); }
    if ReservesAreNegative(window, r) { return Fail(NegativeReserve); }
    var (runtime, minimum) := (RuntimeReserve(window, r), MinimumMessage(window, r));
    var providerInput := window - output - r.safety - runtime - r.schema;
    if providerInput < minimum { return Fail(ReservesExceedWindow); }
    CountTellsDistinct(Names(claims));
    var names := set name | name in Names(claims);
    if |names| != |Names(claims)| { return Fail(DuplicateNames); }
    var allocation := AllocateClaims(claims, providerInput - minimum);
    if allocation.Fail? { return Fail(allocation.fault); }
    FundedFitsPool(claims, providerInput - minimum, allocation.value);
    return Ok(Budget(window, output, r.safety, runtime, r.schema, providerInput, minimum, allocation.value));
  }

  lemma SumOfMinimums(claims: seq<Claim>)
    ensures Sum(Minimums(claims)) >= 0
  {
    SumIsNotNegative(Minimums(claims));
  }

  lemma FundedFitsPool(claims: seq<Claim>, pool: nat, allocation: seq<nat>)
    requires AllValid(claims) && Funded(claims, pool, allocation)
    ensures Sum(allocation) <= pool
  {
  }

  lemma AffordableWithoutClaims(window: int, output: int, r: Reserves)
    ensures Affordable(window, output, r, [])
       <==> window > 0 && output > 0 && !ReservesAreNegative(window, r) && 0 <= Pool(window, output, r)
  {
    assert Names([]) == [] && Minimums([]) == [];
  }

  /**
   The physical generation ceiling: without claims, the output reserves a budget can be made with are exactly the
   positive ones up to the ceiling, and there is no ceiling exactly when there is no such reserve.
   */
  method MaxGenerationTokens(window: int, r: Reserves) returns (m: Outcome<pos, Fault>)
    ensures m.Ok? ==> forall output: int {:trigger Affordable(window, output, r, [])} ::
      Affordable(window, output, r, []) <==> 0 < output <= m.value
    ensures m.Fail? <==> forall output: int :: !Affordable(window, output, r, [])
    ensures m.Fail? ==>
      m.fault == if window <= 0 then BadWindow else if ReservesAreNegative(window, r) then NegativeReserve else ReservesExceedWindow
  {
    forall output: int
      ensures Affordable(window, output, r, [])
         <==> window > 0 && output > 0 && !ReservesAreNegative(window, r) && 0 <= Pool(window, output, r)
    {
      AffordableWithoutClaims(window, output, r);
    }
    hide Affordable;
    if window <= 0 { return Fail(BadWindow); }
    if ReservesAreNegative(window, r) { return Fail(NegativeReserve); }
    var maximum := window - r.safety - RuntimeReserve(window, r) - r.schema - MinimumMessage(window, r);
    if maximum <= 0 { return Fail(ReservesExceedWindow); }
    assert Affordable(window, maximum, r, []);
    return Ok(maximum);
  }
}
