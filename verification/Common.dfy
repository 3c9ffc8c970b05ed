/** Small vocabulary shared by the models: options, bounded deques and permutations. */
module Common {

  datatype Option<+T> = None | Some(value: T)

  function Min(a: int, b: int): int { if a <= b then a else b }

  /** The last `n` elements of `s`, or all of them when there are fewer. */
  function LastN<T>(s: seq<T>, n: nat): seq<T> {
    if |s| <= n then s else s[|s| - n..]
  }

  /** `deque(maxlen=cap).append(x)`: appending to a full deque discards its left end. */
  function DequeAppend<T>(s: seq<T>, cap: nat, x: T): seq<T>
    requires 0 < cap && |s| <= cap
  {
    if |s| < cap then s + [x] else s[1..] + [x]
  }

  lemma DequeAppendIsLastN<T>(s: seq<T>, cap: nat, x: T)
    requires 0 < cap
    ensures DequeAppend(LastN(s, cap), cap, x) == LastN(s + [x], cap)
  {
  }

  function Without<T>(s: seq<T>, i: nat): seq<T>
    requires i < |s|
  {
    s[..i] + s[i + 1..]
  }

  /** A permutation of `a` holds `a[0]` somewhere; removing it leaves a permutation of `a[1..]`. */
  lemma PermutationHead<T>(a: seq<T>, b: seq<T>) returns (i: nat)
    requires a != [] && multiset(a) == multiset(b)
    ensures i < |b| && b[i] == a[0]
    ensures multiset(a[1..]) == multiset(Without(b, i))
    ensures b == b[..i] + [a[0]] + b[i + 1..]
  {
    assert a == [a[0]] + a[1..];
    assert a[0] in multiset(b);
    i :| 0 <= i < |b| && b[i] == a[0];
    assert b == b[..i] + [a[0]] + b[i + 1..];
    var c := Without(b, i);
    forall x: T ensures multiset(a[1..])[x] == multiset(c)[x] {
      assert multiset(a)[x] == multiset{a[0]}[x] + multiset(a[1..])[x];
      assert multiset(b)[x] == multiset(b[..i])[x] + multiset{a[0]}[x] + multiset(b[i + 1..])[x];
      assert multiset(c)[x] == multiset(b[..i])[x] + multiset(b[i + 1..])[x];
    }
  }

  /** Every element is different from every other. */
  predicate Distinct<T(==)>(s: seq<T>) {
    forall i, j :: 0 <= i < j < |s| ==> s[i] != s[j]
  }

  lemma {:induction false} DistinctCount<T>(s: seq<T>, x: T)
    requires Distinct(s)
    ensures multiset(s)[x] == if x in s then 1 else 0
  {
    if s != [] {
      assert s == [s[0]] + s[1..];
      DistinctCount(s[1..], x);
    }
  }

  /** Duplicate-free lists of the same elements are permutations of each other. */
  lemma SameElementsPermute<T>(a: seq<T>, b: seq<T>)
    requires Distinct(a) && Distinct(b)
    requires forall x :: x in a <==> x in b
    ensures multiset(a) == multiset(b)
  {
    forall x: T ensures multiset(a)[x] == multiset(b)[x] {
      DistinctCount(a, x);
      DistinctCount(b, x);
    }
  }

  /** The keys of a dictionary filled in the order of `names`: each name once, at its first place. */
  function FirstSeen<T(==)>(names: seq<T>): seq<T> {
    if names == [] then []
    else
      var seen, name := FirstSeen(names[..|names| - 1]), names[|names| - 1];
      if name in seen then seen else seen + [name]
  }

  lemma {:induction false} FirstSeenIsNames<T>(names: seq<T>)
    ensures Distinct(FirstSeen(names))
    ensures forall x :: x in FirstSeen(names) <==> x in names
  {
    if names != [] {
      var init, name := names[..|names| - 1], names[|names| - 1];
      FirstSeenIsNames(init);
      assert names == init + [name];
    }
  }

  lemma Occurs<T>(names: seq<T>, x: T) returns (p: nat)
    requires x in FirstSeen(names)
    ensures p < |names| && names[p] == x
  {
    FirstSeenIsNames(names);
    p :| 0 <= p < |names| && names[p] == x;
  }

  /** Names appear in the order of their first occurrence: before the later of two appears, the earlier has. */
  lemma {:induction false} FirstSeenInOrder<T>(names: seq<T>, i: nat, j: nat) returns (p: nat)
    requires i < j < |FirstSeen(names)|
    ensures p < |names| && names[p] == FirstSeen(names)[i] && FirstSeen(names)[j] !in names[..p + 1]
  {
    var n := |names| - 1;
    var init := names[..n];
    FirstSeenIsNames(init);
    if j < |FirstSeen(init)| {
      p := FirstSeenInOrder(init, i, j);
      assert init[..p + 1] == names[..p + 1];
    } else {
      p := Occurs(init, FirstSeen(init)[i]);
      assert names[..p + 1] == init[..p + 1];
    }
  }

  /** Positions in ascending order. */
  predicate Rising(ps: seq<nat>) { forall i, j :: 0 <= i < j < |ps| ==> ps[i] < ps[j] }

  lemma RisingAppend(ps: seq<nat>, n: nat)
    requires Rising(ps) && forall p :: p in ps ==> p < n
    ensures Rising(ps + [n]) && forall p :: p in ps + [n] <==> p in ps || p == n
  {
    forall i | 0 <= i < |ps| ensures ps[i] < n { assert ps[i] in ps; }
  }

  lemma FirstSeenPermutes<T>(a: seq<T>, b: seq<T>)
    requires multiset(a) == multiset(b)
    ensures multiset(FirstSeen(a)) == multiset(FirstSeen(b))
  {
    FirstSeenIsNames(a);
    FirstSeenIsNames(b);
    forall x ensures x in FirstSeen(a) <==> x in FirstSeen(b) {
      assert x in multiset(a) <==> x in multiset(b);
    }
    SameElementsPermute(FirstSeen(a), FirstSeen(b));
  }
}
