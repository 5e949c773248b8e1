/**
 * The ordered-map queries the lyric code asks of a `BTreeMap<u64, _>`:
 * `range(..=hi).next_back()`, `range(..hi).next_back()`, `range(lo..).next()`
 * and `keys()` in ascending order. The map itself is a Dafny `map`; its order
 * is the order of its keys.
 */
module OrderedMap {
  import opened Wrappers

  lemma {:induction false} LeastWitness(s: set<nat>) returns (x: nat)
    requires s != {}
    ensures x in s && forall y :: y in s ==> x <= y
    decreases |s|
  {
    var y :| y in s;
    if s == {y} {
      x := y;
    } else {
      var m := LeastWitness(s - {y});
      x := if y < m then y else m;
      BoundOfRemoved(s, y, m, x);
    }
  }

  lemma LeastExists(s: set<nat>)
    requires s != {}
    ensures exists x :: x in s && forall y :: y in s ==> x <= y
  {
    var x := LeastWitness(s);
  }

  /** A bound below both a removed element and the rest of the set bounds the whole set. */
  lemma BoundOfRemoved(s: set<nat>, x: nat, m: nat, b: nat)
    requires forall y :: y in s - {x} ==> m <= y
    requires b <= x && b <= m
    ensures forall y :: y in s ==> b <= y
  {
    forall y | y in s ensures b <= y {
      if y != x { assert y in s - {x}; }
    }
  }

  lemma {:induction false} GreatestWitness(s: set<nat>) returns (x: nat)
    requires s != {}
    ensures x in s && forall y :: y in s ==> y <= x
    decreases |s|
  {
    var y :| y in s;
    if s == {y} {
      x := y;
    } else {
      var m := GreatestWitness(s - {y});
      x := if m < y then y else m;
      CapOfRemoved(s, y, m, x);
    }
  }

  lemma GreatestExists(s: set<nat>)
    requires s != {}
    ensures exists x :: x in s && forall y :: y in s ==> y <= x
  {
    var x := GreatestWitness(s);
  }

  /** A bound above both a removed element and the rest of the set bounds the whole set. */
  lemma CapOfRemoved(s: set<nat>, x: nat, m: nat, b: nat)
    requires forall y :: y in s - {x} ==> y <= m
    requires x <= b && m <= b
    ensures forall y :: y in s ==> y <= b
  {
    forall y | y in s ensures y <= b {
      if y != x { assert y in s - {x}; }
    }
  }

  function Least(s: set<nat>): (x: nat)
    requires s != {}
    ensures x in s && forall y :: y in s ==> x <= y
  {
    LeastExists(s);
    var x :| x in s && forall y :: y in s ==> x <= y; x
  }

  function Greatest(s: set<nat>): (x: nat)
    requires s != {}
    ensures x in s && forall y :: y in s ==> y <= x
  {
    GreatestExists(s);
    var x :| x in s && forall y :: y in s ==> y <= x; x
  }

  /** `range(..=hi).next_back()`: the greatest key at most `hi`. */
  function LastAtMost<V>(m: map<nat, V>, hi: nat): (r: Option<nat>)
    ensures r.Some? ==> r.value in m && r.value <= hi
    ensures r.Some? ==> forall k :: k in m && k <= hi ==> k <= r.value
    ensures r.None? ==> forall k :: k in m ==> hi < k
  {
    var below := set k | k in m && k <= hi;
    assert forall k :: k in m && k <= hi ==> k in below;
    if below == {} then None else Some(Greatest(below))
  }

  /** `range(..hi).next_back()`: the greatest key strictly below `hi`. */
  function LastBelow<V>(m: map<nat, V>, hi: nat): (r: Option<nat>)
    ensures r.Some? ==> r.value in m && r.value < hi
    ensures r.Some? ==> forall k :: k in m && k < hi ==> k <= r.value
    ensures r.None? ==> forall k :: k in m ==> hi <= k
  {
    var below := set k | k in m && k < hi;
    assert forall k :: k in m && k < hi ==> k in below;
    if below == {} then None else Some(Greatest(below))
  }

  /** `range(lo..).next()`: the least key at least `lo`. */
  function FirstAtLeast<V>(m: map<nat, V>, lo: nat): (r: Option<nat>)
    ensures r.Some? ==> r.value in m && lo <= r.value
    ensures r.Some? ==> forall k :: k in m && lo <= k ==> r.value <= k
    ensures r.None? ==> forall k :: k in m ==> k < lo
  {
    var above := set k | k in m && lo <= k;
    assert forall k :: k in m && lo <= k ==> k in above;
    if above == {} then None else Some(Least(above))
  }

  /** `range((Excluded(lo), Unbounded)).next()`: the least key strictly above `lo`. */
  function FirstAbove<V>(m: map<nat, V>, lo: nat): (r: Option<nat>)
    ensures r.Some? ==> r.value in m && lo < r.value
    ensures r.Some? ==> forall k :: k in m && lo < k ==> r.value <= k
    ensures r.None? ==> forall k :: k in m ==> k <= lo
  {
    var above := set k | k in m && lo < k;
    assert forall k :: k in m && lo < k ==> k in above;
    if above == {} then None else Some(Least(above))
  }

  predicate StrictlyIncreasing(s: seq<nat>) {
    forall i, j :: 0 <= i < j < |s| ==> s[i] < s[j]
  }

  /** `keys().cloned().collect::<Vec<_>>()`: every key once, in ascending order. */
  function SortedKeys(keys: set<nat>): (r: seq<nat>)
    ensures |r| == |keys|
    ensures forall i :: 0 <= i < |r| ==> r[i] in keys
    ensures StrictlyIncreasing(r)
    decreases |keys|
  {
    if keys == {} then []
    else
      var x := Least(keys);
      var rest := SortedKeys(keys - {x});
      ConsSorted(x, keys, rest);
      [x] + rest
  }

  /** Every key appears in `SortedKeys`. */
  lemma {:induction false} SortedKeysCover(keys: set<nat>)
    ensures forall k :: k in keys ==> k in SortedKeys(keys)
    decreases |keys|
  {
    if keys != {} {
      var x := Least(keys);
      SortedKeysCover(keys - {x});
      ConsCovers(x, keys, SortedKeys(keys - {x}));
    }
  }

  lemma ConsSorted(x: nat, keys: set<nat>, rest: seq<nat>)
    requires x in keys && forall y :: y in keys ==> x <= y
    requires forall i :: 0 <= i < |rest| ==> rest[i] in keys - {x}
    requires StrictlyIncreasing(rest)
    ensures forall i :: 0 <= i < |[x] + rest| ==> ([x] + rest)[i] in keys
    ensures StrictlyIncreasing([x] + rest)
  {
    var r := [x] + rest;
    forall i, j | 0 <= i < j < |r| ensures r[i] < r[j] {
      assert r[j] == rest[j - 1] && r[j] in keys - {x};
      if i > 0 { assert r[i] == rest[i - 1]; }
    }
  }

  lemma ConsCovers(x: nat, keys: set<nat>, rest: seq<nat>)
    requires forall k :: k in keys - {x} ==> k in rest
    ensures forall k :: k in keys ==> k in [x] + rest
  {
    forall k | k in keys ensures k in [x] + rest {
      if k != x { assert k in keys - {x}; }
    }
  }
}
