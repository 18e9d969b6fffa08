/** Result types and finite-collection facts shared by every component. */
module Prelude {

  datatype Option<+T> = None | Some(value: T)

  /** A call either returns a value or raises one of the caller's faults. */
  datatype Outcome<+T, +E> = Ok(value: T) | Fail(fault: E)

  type pos = n: nat | 1 <= n witness 1

  ghost predicate Distinct<T>(s: seq<T>) {
    forall i, j :: 0 <= i < j < |s| ==> s[i] != s[j]
  }

  ghost function Elements<T>(s: seq<T>): set<T> {
    set x | x in s
  }

  /** A sequence has as many elements as places exactly when no element repeats. */
  lemma {:induction false} CountTellsDistinct<T>(s: seq<T>)
    ensures |Elements(s)| <= |s|
    ensures |Elements(s)| == |s| <==> Distinct(s)
  {
    if s != [] {
      var init, last := s[..|s| - 1], s[|s| - 1];
      CountTellsDistinct(init);
      assert s == init + [last];
      assert Elements(s) == Elements(init) + {last};
      if last in init {
        var k :| 0 <= k < |init| && init[k] == last;
        assert s[k] == s[|s| - 1];
      }
    }
  }

  lemma {:induction false} SubsetCount<T>(a: set<T>, b: set<T>)
    requires a <= b
    ensures |a| <= |b|
  {
    if a != {} {
      var x :| x in a;
      SubsetCount(a - {x}, b - {x});
    }
  }

  lemma EqualBySize<T>(a: set<T>, b: set<T>)
    requires a <= b && |a| == |b|
    ensures a == b
  {
    if x :| x in b && x !in a { SubsetCount(a, b - {x}); }
  }

  /** `r[i]` stands first in `ids` at a place before which exactly the elements of `r[..i]` stand. */
  ghost predicate FirstSeen(ids: seq<string>, r: seq<string>, i: nat)
    requires i < |r|
  {
    exists k :: 0 <= k < |ids| && ids[k] == r[i] && r[i] !in ids[..k] && Elements(ids[..k]) == Elements(r[..i])
  }

  lemma SeenInLonger(ids: seq<string>, longer: seq<string>, r: seq<string>, s: seq<string>, i: nat)
    requires i < |r| <= |s| && ids <= longer && r <= s && FirstSeen(ids, r, i)
    ensures FirstSeen(longer, s, i)
  {
    var k :| 0 <= k < |ids| && ids[k] == r[i] && r[i] !in ids[..k] && Elements(ids[..k]) == Elements(r[..i]);
    assert longer[..k] == ids[..k] && s[..i] == r[..i];
  }

  /** The ids without repetition, in the order in which they first stand. */
  function Dedupe(ids: seq<string>): (r: seq<string>)
    ensures Distinct(r) && forall id :: id in r <==> id in ids
    ensures forall i {:trigger FirstSeen(ids, r, i)} :: 0 <= i < |r| ==> FirstSeen(ids, r, i)
  {
    if ids == [] then []
    else
      var init, last := ids[..|ids| - 1], ids[|ids| - 1];
      var rest := Dedupe(init);
      var r := if last in rest then rest else rest + [last];
      assert ids == init + [last];
      assert forall i {:trigger FirstSeen(ids, r, i)} :: 0 <= i < |r| ==> FirstSeen(ids, r, i) by {
        forall i | 0 <= i < |r| ensures FirstSeen(ids, r, i) {
          if i < |rest| { SeenInLonger(init, ids, rest, r, i); }
          else { assert ids[|init|] == r[i] && ids[..|init|] == init && r[..i] == rest; }
        }
      }
      r
  }

  /** The place of the first element from `from` on that satisfies a test, or the length. */
  function First<T>(s: seq<T>, test: T -> bool, from: nat := 0): (k: nat)
    requires from <= |s|
    ensures from <= k <= |s|
    ensures forall j :: from <= j < k ==> !test(s[j])
    ensures k < |s| ==> test(s[k])
    decreases |s| - from
  {
    if from == |s| || test(s[from]) then from else First(s, test, from + 1)
  }
}
