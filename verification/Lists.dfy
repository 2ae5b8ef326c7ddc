/** Lists without duplicates, as the kernel's intrusive lists hold them. */
module Lists {
  ghost predicate Distinct<T>(l: seq<T>) {
    forall i, j :: 0 <= i < j < |l| ==> l[i] != l[j]
  }

  /** list_del_init: `x` leaves the list, the others keep their order. */
  function Without<T(==, !new)>(l: seq<T>, x: T): (r: seq<T>)
    ensures forall y :: y in r <==> y in l && y != x
    ensures x !in l ==> r == l
  {
    if l == [] then []
    else if l[0] == x then Without(l[1..], x)
    else [l[0]] + Without(l[1..], x)
  }

  /** The list without its element at `i`. */
  function RemoveAt<T>(l: seq<T>, i: nat): (r: seq<T>)
    requires i < |l|
    ensures |r| == |l| - 1
  {
    l[..i] + l[i + 1..]
  }

  /** The two sides of an element. */
  lemma SplitAt<T>(l: seq<T>, i: nat) returns (a: seq<T>, b: seq<T>)
    requires i < |l|
    ensures |a| == i && l == a + ([l[i]] + b) && RemoveAt(l, i) == a + b
  {
    a, b := l[..i], l[i + 1..];
  }

  /** The first place of `x`. */
  function Position<T(==)>(l: seq<T>, x: T): (i: nat)
    requires x in l
    ensures i < |l| && l[i] == x
  {
    if l[0] == x then 0 else 1 + Position(l[1..], x)
  }

  lemma DistinctTail<T>(l: seq<T>)
    requires l != [] && Distinct(l)
    ensures Distinct(l[1..]) && l[0] !in l[1..]
  {
    assert forall k :: 0 <= k < |l[1..]| ==> l[1..][k] == l[k + 1];
  }

  lemma DistinctCons<T>(x: T, l: seq<T>)
    requires Distinct(l) && x !in l
    ensures Distinct([x] + l)
  {
  }

  lemma DistinctSnoc<T>(l: seq<T>, x: T)
    requires Distinct(l) && x !in l
    ensures Distinct(l + [x])
  {
  }

  lemma {:induction false} WithoutDistinct<T(!new)>(l: seq<T>, x: T)
    requires Distinct(l)
    ensures Distinct(Without(l, x))
    ensures |Without(l, x)| == |l| - if x in l then 1 else 0
  {
    if l != [] {
      var rest := l[1..];
      DistinctTail(l);
      hide Distinct;
      WithoutDistinct(rest, x);
      if l[0] != x { DistinctCons(l[0], Without(rest, x)); }
    }
  }

  lemma WithoutCons<T(!new)>(l: seq<T>, x: T)
    requires l != [] && l[0] != x
    ensures Without(l, x) == [l[0]] + Without(l[1..], x)
  {
  }

  lemma RemoveAtCons<T>(l: seq<T>, i: nat)
    requires 0 < i < |l|
    ensures RemoveAt(l, i) == [l[0]] + RemoveAt(l[1..], i - 1)
  {
  }

  /** Taking out an element is taking out its place. */
  lemma {:induction false} WithoutAt<T(!new)>(l: seq<T>, i: nat)
    requires Distinct(l) && i < |l|
    ensures Without(l, l[i]) == RemoveAt(l, i)
  {
    DistinctTail(l);
    hide Distinct;
    if i > 0 {
      var rest := l[1..];
      assert rest[i - 1] == l[i] && l[i] in rest;
      WithoutAt(rest, i - 1);
      RemoveAtCons(l, i);
      WithoutCons(l, l[i]);
    } else {
      assert RemoveAt(l, 0) == l[1..];
    }
  }

  lemma {:induction false} WithoutLast<T(!new)>(l: seq<T>, x: T)
    requires x !in l
    ensures Without(l + [x], x) == l
  {
    if l == [] {
      assert (l + [x])[1..] == [];
    } else {
      assert (l + [x])[1..] == l[1..] + [x];
      WithoutLast(l[1..], x);
    }
  }

  /** Taking out what was just added at an end. */
  lemma WithoutEnds<T(!new)>(l: seq<T>, x: T)
    requires x !in l
    ensures Without([x] + l, x) == l && Without(l + [x], x) == l
  {
    assert ([x] + l)[1..] == l;
    WithoutLast(l, x);
  }
}
