/** The weighted round-robin class (wrr.c) on the sequence of its run list.

    `unit` is WRR_WEIGHT_UNIT, the number of ticks one unit of weight is worth. */
module WrrQueue {
  import opened Lists

  const WRR_FG_WEIGHT: nat := 10
  const WRR_BG_WEIGHT: nat := 1

  /** A queued task: its weight and what is left of its time slice. */
  datatype Ent<T> = Ent(id: T, weight: nat, slice: nat)

  predicate Queued<T(==)>(q: seq<Ent<T>>, id: T) {
    exists i :: 0 <= i < |q| && q[i].id == id
  }

  ghost predicate DistinctIds<T>(q: seq<Ent<T>>) {
    forall i, j :: 0 <= i < j < |q| ==> q[i].id != q[j].id
  }

  /** Weights are positive and every slice is between 1 and a full one. */
  ghost predicate Slices<T>(q: seq<Ent<T>>, unit: nat) {
    forall i :: 0 <= i < |q| ==> q[i].weight >= 1 && 1 <= q[i].slice <= q[i].weight * unit
  }

  ghost predicate Full<T>(q: seq<Ent<T>>, unit: nat) {
    forall i :: 0 <= i < |q| ==> q[i].weight >= 1 && q[i].slice == q[i].weight * unit
  }

  lemma QueuedTail<T>(q: seq<Ent<T>>, id: T)
    requires Queued(q, id) && q[0].id != id
    ensures Queued(q[1..], id)
  {
    var i :| 0 <= i < |q| && q[i].id == id;
    assert q[1..][i - 1].id == id;
  }

  function IndexOf<T(==)>(q: seq<Ent<T>>, id: T): (i: nat)
    requires Queued(q, id)
    ensures i < |q| && q[i].id == id
    ensures forall j :: 0 <= j < i ==> q[j].id != id
  {
    if q[0].id == id then 0
    else
      QueuedTail(q, id);
      1 + IndexOf(q[1..], id)
  }

  /** list_del_init */
  function Remove<T(==)>(q: seq<Ent<T>>, id: T): seq<Ent<T>> {
    if Queued(q, id) then RemoveAt(q, IndexOf(q, id)) else q
  }

  /** requeue_wrr_entity for a queued task: list_move or list_move_tail. */
  function Requeue<T(==)>(q: seq<Ent<T>>, id: T, head: bool): seq<Ent<T>>
    requires Queued(q, id)
  {
    var e := q[IndexOf(q, id)];
    if head then [e] + Remove(q, id) else Remove(q, id) + [e]
  }

  /** update_weight */
  function UpdatedWeight(weight: int, custom: bool, background: bool): (w: int)
    ensures weight >= 0 ==> w >= 0
  {
    if custom then weight else if background then WRR_BG_WEIGHT else WRR_FG_WEIGHT
  }

  /** enqueue_wrr_entity: a full slice, at the head or the tail. */
  function Enqueue<T(==)>(q: seq<Ent<T>>, id: T, weight: nat, unit: nat, head: bool): seq<Ent<T>> {
    var e := Ent(id, weight, weight * unit);
    if head then [e] + Remove(q, id) else Remove(q, id) + [e]
  }

  /** task_tick_wrr for the queued task `id`; `throttled` is what wrr_throttled() returns. */
  function Tick<T(==)>(q: seq<Ent<T>>, id: T, throttled: bool, unit: nat): seq<Ent<T>>
    requires Queued(q, id)
  {
    var i := IndexOf(q, id);
    var e := q[i];
    var left := (if e.slice == 0 then 1 else e.slice) - 1;
    if left != 0 then q[i := e.(slice := left)]
    else
      var renewed := q[i := e.(slice := e.weight * unit)];
      if |q| > 1 || throttled then RemoveAt(renewed, i) + [renewed[i]] else renewed
  }

  // ---------------------------------------------------------------- the tick of a running task

  /** The tick of the task at the head, which is the task that runs. */
  function TickHead<T>(q: seq<Ent<T>>, unit: nat): (r: seq<Ent<T>>)
    requires q != []
    ensures |r| == |q|
  {
    var e := q[0];
    if e.slice > 1 then [e.(slice := e.slice - 1)] + q[1..]
    else q[1..] + [e.(slice := e.weight * unit)]
  }

  /** Throttling decides who runs next, never what a tick does to the list. */
  lemma TickOfHead<T>(q: seq<Ent<T>>, throttled: bool, unit: nat)
    requires q != []
    ensures Tick(q, q[0].id, throttled, unit) == TickHead(q, unit)
  {
  }

  function Ticks<T>(q: seq<Ent<T>>, n: nat, unit: nat): (r: seq<Ent<T>>)
    requires q != []
    ensures |r| == |q|
    decreases n
  {
    if n == 0 then q else Ticks(TickHead(q, unit), n - 1, unit)
  }

  /** How many of the next `n` ticks go to task `id`. */
  function Service<T(==)>(q: seq<Ent<T>>, n: nat, id: T, unit: nat): nat
    requires q != []
    decreases n
  {
    if n == 0 then 0 else (if q[0].id == id then 1 else 0) + Service(TickHead(q, unit), n - 1, id, unit)
  }

  lemma {:induction false} TicksAdd<T>(q: seq<Ent<T>>, m: nat, n: nat, id: T, unit: nat)
    requires q != []
    ensures Ticks(q, m + n, unit) == Ticks(Ticks(q, m, unit), n, unit)
    ensures Service(q, m + n, id, unit) == Service(q, m, id, unit) + Service(Ticks(q, m, unit), n, id, unit)
    decreases m
  {
    if m > 0 { TicksAdd(TickHead(q, unit), m - 1, n, id, unit); }
  }

  lemma NoTicks<T>(q: seq<Ent<T>>, id: T, unit: nat)
    requires q != []
    ensures Ticks(q, 0, unit) == q && Service(q, 0, id, unit) == 0
  {
  }

  function SliceSum<T>(q: seq<Ent<T>>): nat {
    if q == [] then 0 else q[0].slice + SliceSum(q[1..])
  }

  function WeightSum<T>(q: seq<Ent<T>>): nat {
    if q == [] then 0 else q[0].weight + WeightSum(q[1..])
  }

  lemma {:induction false} SliceSumConcat<T>(a: seq<Ent<T>>, b: seq<Ent<T>>)
    ensures SliceSum(a + b) == SliceSum(a) + SliceSum(b)
    ensures WeightSum(a + b) == WeightSum(a) + WeightSum(b)
  {
    if a == [] {
      assert a + b == b;
    } else {
      SliceSumConcat(a[1..], b);
      assert (a + b)[1..] == a[1..] + b;
    }
  }

  lemma {:induction false} FullSliceSum<T>(q: seq<Ent<T>>, unit: nat)
    requires Full(q, unit)
    ensures SliceSum(q) == WeightSum(q) * unit
  {
    if q != [] {
      FullSliceSum(q[1..], unit);
      assert q[0].slice + WeightSum(q[1..]) * unit == (q[0].weight + WeightSum(q[1..])) * unit;
    }
  }

  /** The head keeps the CPU for what is left of its slice, then goes to the tail renewed. */
  lemma {:induction false} HeadTurn<T>(q: seq<Ent<T>>, id: T, unit: nat)
    requires q != [] && q[0].slice >= 1
    ensures Ticks(q, q[0].slice, unit) == q[1..] + [q[0].(slice := q[0].weight * unit)]
    ensures Service(q, q[0].slice, id, unit) == if q[0].id == id then q[0].slice else 0
    decreases q[0].slice
  {
    var next := TickHead(q, unit);
    if q[0].slice == 1 {
      assert Ticks(next, 0, unit) == next;
      assert Service(next, 0, id, unit) == 0;
    } else {
      assert next[0].slice == q[0].slice - 1 && next[1..] == q[1..];
      HeadTurn(next, id, unit);
    }
  }

  ghost function RenewedAll<T>(q: seq<Ent<T>>, unit: nat): (r: seq<Ent<T>>)
    ensures |r| == |q|
    ensures forall i :: 0 <= i < |q| ==> r[i] == q[i].(slice := q[i].weight * unit)
  {
    seq(|q|, i requires 0 <= i < |q| => q[i].(slice := q[i].weight * unit))
  }

  /** The slice of task `id`, 0 if it is not queued. */
  function SliceOf<T(==)>(q: seq<Ent<T>>, id: T): nat {
    if q == [] then 0 else if q[0].id == id then q[0].slice else SliceOf(q[1..], id)
  }

  lemma {:induction false} SliceOfAbsent<T>(q: seq<Ent<T>>, id: T)
    requires forall i :: 0 <= i < |q| ==> q[i].id != id
    ensures SliceOf(q, id) == 0
  {
    if q != [] { SliceOfAbsent(q[1..], id); }
  }

  /** The first tasks have their turns in order; the others wait and those served wait behind them. */
  lemma {:induction false} Turns<T>(a: seq<Ent<T>>, b: seq<Ent<T>>, id: T, unit: nat)
    requires a + b != [] && DistinctIds(a)
    requires forall i :: 0 <= i < |a| ==> a[i].slice >= 1
    ensures Ticks(a + b, SliceSum(a), unit) == b + RenewedAll(a, unit)
    ensures Service(a + b, SliceSum(a), id, unit) == SliceOf(a, id)
    decreases |a|
  {
    hide Ticks, Service, TickHead;
    if a == [] {
      assert a + b == b && b + RenewedAll(a, unit) == b;
      NoTicks(b, id, unit);
    } else {
      var q := a + b;
      var e := a[0].(slice := a[0].weight * unit);
      HeadTurn(q, id, unit);
      assert q[1..] + [e] == a[1..] + (b + [e]);
      assert DistinctIds(a[1..]) by {
        assert forall i :: 0 <= i < |a[1..]| ==> a[1..][i] == a[i + 1];
      }
      Turns(a[1..], b + [e], id, unit);
      assert (b + [e]) + RenewedAll(a[1..], unit) == b + RenewedAll(a, unit);
      TicksAdd(q, a[0].slice, SliceSum(a[1..]), id, unit);
      if a[0].id == id { SliceOfAbsent(a[1..], id); }
    }
  }

  /** One full round from full slices: everybody gets exactly a slice and the list is restored. */
  lemma FullRound<T>(q: seq<Ent<T>>, id: T, unit: nat)
    requires q != [] && DistinctIds(q) && Full(q, unit) && unit >= 1
    ensures Ticks(q, WeightSum(q) * unit, unit) == q
    ensures Service(q, WeightSum(q) * unit, id, unit) == SliceOf(q, id)
  {
    assert q + [] == q;
    forall i | 0 <= i < |q|
      ensures q[i].slice >= 1
    {
      assert q[i].weight * unit >= 1 * unit;
    }
    Turns(q, [], id, unit);
    assert RenewedAll(q, unit) == q;
    assert [] + RenewedAll(q, unit) == q;
    FullSliceSum(q, unit);
  }

  lemma {:induction false} FullRounds<T>(q: seq<Ent<T>>, k: nat, id: T, unit: nat)
    requires q != [] && DistinctIds(q) && Full(q, unit) && unit >= 1
    ensures Ticks(q, k * (WeightSum(q) * unit), unit) == q
    ensures Service(q, k * (WeightSum(q) * unit), id, unit) == k * SliceOf(q, id)
  {
    hide Ticks, Service, WeightSum, Full, DistinctIds;
    var round := WeightSum(q) * unit;
    if k == 0 {
      NoTicks(q, id, unit);
      assert 0 * round == 0;
    } else {
      FullRounds(q, k - 1, id, unit);
      FullRound(q, id, unit);
      assert k * round == round + (k - 1) * round;
      TicksAdd(q, round, (k - 1) * round, id, unit);
      assert SliceOf(q, id) + (k - 1) * SliceOf(q, id) == k * SliceOf(q, id);
    }
  }

  /** Exact shares: after any whole number of rounds each task has had exactly its weight's worth
      of ticks, and list order and slices are those of the beginning. */
  lemma ExactShares<T>(q: seq<Ent<T>>, i: nat, k: nat, unit: nat)
    requires i < |q| && DistinctIds(q) && Full(q, unit) && unit >= 1
    ensures Ticks(q, k * (WeightSum(q) * unit), unit) == q
    ensures Service(q, k * (WeightSum(q) * unit), q[i].id, unit) == k * (q[i].weight * unit)
  {
    FullRounds(q, k, q[i].id, unit);
    SliceOfAt(q, i);
  }

  lemma {:induction false} SliceOfAt<T>(q: seq<Ent<T>>, i: nat)
    requires i < |q| && DistinctIds(q)
    ensures SliceOf(q, q[i].id) == q[i].slice
  {
    if i > 0 {
      assert forall j :: 0 <= j < |q[1..]| ==> q[1..][j] == q[j + 1];
      SliceOfAt(q[1..], i - 1);
    }
  }

  /** Whole rounds split off: the service in n ticks is that of the rounds plus a part of a slice. */
  lemma ServiceSplit<T>(q: seq<Ent<T>>, i: nat, k: nat, r: nat, unit: nat)
    requires i < |q| && DistinctIds(q) && Full(q, unit) && unit >= 1 && r <= WeightSum(q) * unit
    ensures Service(q, r, q[i].id, unit) <= q[i].weight * unit
    ensures Service(q, k * (WeightSum(q) * unit) + r, q[i].id, unit) == k * (q[i].weight * unit) + Service(q, r, q[i].id, unit)
  {
    hide Ticks, Service, WeightSum, SliceOf;
    var round, id := WeightSum(q) * unit, q[i].id;
    ExactShares(q, i, k, unit);
    TicksAdd(q, k * round, r, id, unit);
    TicksAdd(q, r, round - r, id, unit);
    FullRound(q, id, unit);
    SliceOfAt(q, i);
  }

  lemma DivMod(n: nat, d: nat)
    requires d >= 1
    ensures n == (n / d) * d + n % d && n / d >= 0 && 0 <= n % d < d
  {
  }

  /** At any moment a task's service is within one slice of its share:
      W * service lies within W * weight * unit of n * weight. */
  lemma ShareBound<T>(q: seq<Ent<T>>, i: nat, n: nat, unit: nat)
    requires i < |q| && DistinctIds(q) && Full(q, unit) && unit >= 1
    ensures var w := WeightSum(q); var got := Service(q, n, q[i].id, unit);
            -(w * (q[i].weight * unit)) <= w * got - n * q[i].weight <= w * (q[i].weight * unit)
  {
    hide Service, WeightSum;
    var w := WeightSum(q);
    WeightSumPositive(q);
    hide DistinctIds, Full;
    RoundPositive(w, unit);
    var round := w * unit;
    DivMod(n, round);
    var k: nat, r: nat := n / round, n % round;
    ServiceSplit(q, i, k, r, unit);
    ShareArithmetic(w, q[i].weight, unit, k, r, Service(q, r, q[i].id, unit));
  }

  lemma RoundPositive(w: nat, unit: nat)
    requires w >= 1 && unit >= 1
    ensures w * unit >= 1
  {
  }

  lemma ShareArithmetic(w: nat, wi: nat, unit: nat, k: nat, r: nat, part: nat)
    requires part <= wi * unit && r <= w * unit
    ensures var got := k * (wi * unit) + part; var n := k * (w * unit) + r;
            -(w * (wi * unit)) <= w * got - n * wi <= w * (wi * unit)
  {
    ShareDifference(w, wi, unit, k, r, part);
    ScaleMono(w, part, wi * unit);
    ShareProduct(w, wi, unit, r);
  }

  lemma ScaleMono(w: nat, part: nat, whole: nat)
    requires part <= whole
    ensures 0 <= w * part <= w * whole
  {
  }

  lemma ShareDifference(w: nat, wi: nat, unit: nat, k: nat, r: nat, part: nat)
    ensures w * (k * (wi * unit) + part) - (k * (w * unit) + r) * wi == w * part - r * wi
  {
    assert w * (k * (wi * unit)) == (k * (w * unit)) * wi;
  }

  lemma ShareProduct(w: nat, wi: nat, unit: nat, r: nat)
    requires r <= w * unit
    ensures 0 <= r * wi <= w * (wi * unit)
  {
    assert (w * unit) * wi == w * (wi * unit);
  }

  lemma {:induction false} WeightSumPositive<T>(q: seq<Ent<T>>)
    requires q != [] && forall i :: 0 <= i < |q| ==> q[i].weight >= 1
    ensures WeightSum(q) >= 1
  {
  }
}
