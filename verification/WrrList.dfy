/** The run list of wrr.c as it is: a circular doubly linked list threaded through the tasks'
    entities, with the counters of struct wrr_rq, refining the sequence of WrrQueue. */
module WrrList {
  import opened Lists
  import opened WrrQueue

  /** struct sched_wrr_entity; `next` and `prev` are its embedded run_list.
      The list head `active` of the run queue is a node of the same kind. */
  class WrrEntity {
    var next: WrrEntity
    var prev: WrrEntity
    var timeSlice: nat
    var weight: nat
    var customWeight: bool

    /** INIT_LIST_HEAD on both pointers. */
    constructor ()
      ensures next == this && prev == this
    {
      next, prev := this, this;
      timeSlice, weight, customWeight := 0, 0, false;
    }

    /** update_weight */
    method UpdateWeight(background: bool)
      modifies this`weight
      ensures weight == UpdatedWeight(old(weight), customWeight, background)
      ensures weight == if customWeight then old(weight) else if background then 1 else 10
    {
      if !customWeight {
        if background && weight != WRR_BG_WEIGHT { weight := WRR_BG_WEIGHT; }
        if !background && weight != WRR_FG_WEIGHT { weight := WRR_FG_WEIGHT; }
      }
    }
  }

  /** list_empty of the entity's own run_list. */
  predicate Alone(e: WrrEntity)
    reads e
  {
    e.next == e && e.prev == e
  }

  ghost function Cycle(h: WrrEntity, s: seq<WrrEntity>): (c: seq<WrrEntity>)
    ensures |c| == |s| + 2
  {
    [h] + s + [h]
  }

  ghost predicate NoRepeats(h: WrrEntity, s: seq<WrrEntity>) {
    && (forall i :: 0 <= i < |s| ==> s[i] != h)
    && (forall i, j :: 0 <= i < j < |s| ==> s[i] != s[j])
  }

  /** Positions `k` and `k + 1` of the cycle point at each other. */
  ghost predicate LinkAt(h: WrrEntity, s: seq<WrrEntity>, k: nat)
    requires k <= |s|
    reads h`next, h`prev, s`next, s`prev
  {
    Cycle(h, s)[k].next == Cycle(h, s)[k + 1] && Cycle(h, s)[k + 1].prev == Cycle(h, s)[k]
  }

  /** Starting from `h`, the next pointers visit exactly `s` and return, and the prev pointers go back. */
  ghost predicate Ring(h: WrrEntity, s: seq<WrrEntity>)
    reads h`next, h`prev, s`next, s`prev
  {
    NoRepeats(h, s) && forall k :: 0 <= k <= |s| ==> LinkAt(h, s, k)
  }

  lemma CycleAt(h: WrrEntity, s: seq<WrrEntity>)
    ensures Cycle(h, s)[0] == h && Cycle(h, s)[|s| + 1] == h
    ensures forall i :: 0 <= i < |s| ==> Cycle(h, s)[i + 1] == s[i]
  {
  }

  /** Only the head is on the cycle twice, at its ends. */
  lemma CycleApart(h: WrrEntity, s: seq<WrrEntity>, k: nat, l: nat)
    requires NoRepeats(h, s) && k != l && ((k <= |s| && l <= |s|) || (1 <= k <= |s| + 1 && 1 <= l <= |s| + 1))
    ensures Cycle(h, s)[k] != Cycle(h, s)[l]
  {
  }

  lemma CycleFree(h: WrrEntity, s: seq<WrrEntity>, e: WrrEntity, k: nat)
    requires e != h && e !in s && k <= |s| + 1
    ensures Cycle(h, s)[k] != e
  {
  }

  lemma RingAt(h: WrrEntity, s: seq<WrrEntity>, i: nat)
    requires Ring(h, s) && i < |s|
    ensures s[i].prev == (if i == 0 then h else s[i - 1]) && s[i].next == (if i == |s| - 1 then h else s[i + 1])
  {
    assert LinkAt(h, s, i) && LinkAt(h, s, i + 1);
  }

  /** The test of task_tick_wrr for "not the only element on the queue". */
  lemma PrevNextTest(h: WrrEntity, s: seq<WrrEntity>, i: nat)
    requires Ring(h, s) && i < |s|
    ensures s[i].prev != s[i].next <==> |s| > 1
    ensures !Alone(s[i])
  {
    RingAt(h, s, i);
  }

  ghost function Inserted(s: seq<WrrEntity>, i: nat, e: WrrEntity): seq<WrrEntity>
    requires i <= |s|
  {
    s[..i] + [e] + s[i..]
  }

  lemma InsertedAt(h: WrrEntity, s: seq<WrrEntity>, i: nat, e: WrrEntity, k: nat)
    requires i <= |s| && k <= |s| + 2
    ensures Cycle(h, Inserted(s, i, e))[k] == if k <= i then Cycle(h, s)[k] else if k == i + 1 then e else Cycle(h, s)[k - 1]
  {
  }

  lemma InsertedNoRepeats(h: WrrEntity, s: seq<WrrEntity>, i: nat, e: WrrEntity)
    requires NoRepeats(h, s) && i <= |s| && e != h && e !in s
    ensures NoRepeats(h, Inserted(s, i, e))
  {
  }

  lemma DeletedAt(h: WrrEntity, s: seq<WrrEntity>, i: nat, k: nat)
    requires i < |s| && k <= |s|
    ensures Cycle(h, RemoveAt(s, i))[k] == if k <= i then Cycle(h, s)[k] else Cycle(h, s)[k + 1]
  {
  }

  lemma DeletedNoRepeats(h: WrrEntity, s: seq<WrrEntity>, i: nat)
    requires NoRepeats(h, s) && i < |s|
    ensures NoRepeats(h, RemoveAt(s, i)) && |RemoveAt(s, i)| == |s| - 1
    ensures s[i] !in RemoveAt(s, i) && s[i] != h
    ensures forall x :: x in RemoveAt(s, i) ==> x in s
  {
  }

  /** __list_add */
  method ListInsert(e: WrrEntity, before: WrrEntity, after: WrrEntity, h: WrrEntity, ghost s: seq<WrrEntity>, ghost i: nat)
    requires Ring(h, s) && i <= |s| && e != h && e !in s
    requires before == Cycle(h, s)[i] && after == Cycle(h, s)[i + 1]
    modifies e`next, e`prev, before`next, after`prev
    ensures Ring(h, Inserted(s, i, e))
  {
    hide Cycle, NoRepeats;
    InsertedNoRepeats(h, s, i, e);
    CycleFree(h, s, e, i);
    CycleFree(h, s, e, i + 1);
    after.prev := e;
    e.next := after;
    e.prev := before;
    before.next := e;
    forall k: nat | k <= |s| + 1
      ensures LinkAt(h, Inserted(s, i, e), k)
    {
      InsertedAt(h, s, i, e, k);
      InsertedAt(h, s, i, e, k + 1);
      if k < i || i + 1 < k {
        var m := if k < i then k else k - 1;
        assert old(LinkAt(h, s, m));
        CycleApart(h, s, m, i);
        CycleApart(h, s, m + 1, i + 1);
        CycleFree(h, s, e, m);
        CycleFree(h, s, e, m + 1);
      }
    }
  }

  lemma RingNeighbours(h: WrrEntity, s: seq<WrrEntity>, i: nat)
    requires Ring(h, s) && i < |s|
    ensures Cycle(h, s)[i] == s[i].prev && Cycle(h, s)[i + 1] == s[i] && Cycle(h, s)[i + 2] == s[i].next
  {
    assert LinkAt(h, s, i) && LinkAt(h, s, i + 1);
  }

  /** __list_del */
  method ListUnlink(before: WrrEntity, after: WrrEntity, h: WrrEntity, ghost s: seq<WrrEntity>, ghost i: nat)
    requires Ring(h, s) && i < |s|
    requires before == s[i].prev && after == s[i].next
    modifies before`next, after`prev
    ensures Ring(h, RemoveAt(s, i))
    ensures s[i].next == old(s[i].next) && s[i].prev == old(s[i].prev)
  {
    hide Cycle, NoRepeats, RemoveAt;
    RingNeighbours(h, s, i);
    DeletedNoRepeats(h, s, i);
    CycleApart(h, s, i, i + 1);
    CycleApart(h, s, i + 1, i + 2);
    after.prev := before;
    before.next := after;
    forall k: nat | k < |s|
      ensures LinkAt(h, RemoveAt(s, i), k)
    {
      DeletedAt(h, s, i, k);
      DeletedAt(h, s, i, k + 1);
      if k != i {
        var m := if k < i then k else k + 1;
        assert old(LinkAt(h, s, m));
        CycleApart(h, s, m, i);
        CycleApart(h, s, m + 1, i + 2);
      }
    }
  }

  /** The neighbours of a listed entity are listed entities or the head. */
  lemma Neighbours(h: WrrEntity, s: seq<WrrEntity>, i: nat)
    requires Ring(h, s) && i < |s|
    ensures s[i].prev == h || s[i].prev in s
    ensures s[i].next == h || s[i].next in s
  {
    RingAt(h, s, i);
  }

  lemma RingEnds(h: WrrEntity, s: seq<WrrEntity>)
    requires Ring(h, s)
    ensures NoRepeats(h, s)
    ensures h.next == Cycle(h, s)[1] && h.prev == Cycle(h, s)[|s|]
    ensures s != [] ==> h.next == s[0]
    ensures h.next == h || h.next in s
    ensures h.prev == h || h.prev in s
  {
    assert LinkAt(h, s, 0) && LinkAt(h, s, |s|);
  }

  /** list_move (`head`) and list_move_tail of an entity at position `i` of the list. */
  method ListMove(e: WrrEntity, h: WrrEntity, head: bool, ghost s: seq<WrrEntity>, ghost i: nat)
    requires Ring(h, s) && i < |s| && s[i] == e
    modifies s`next, s`prev, h`next, h`prev
    ensures Ring(h, Moved(s, i, head))
  {
    hide Ring, NoRepeats, Cycle;
    RingEnds(h, s);
    Neighbours(h, s, i);
    DeletedNoRepeats(h, s, i);
    MovedIs(s, i, head);
    hide RemoveAt, Inserted, Moved;
    ListUnlink(e.prev, e.next, h, s, i);
    AddToEnd(e, h, head, RemoveAt(s, i));
  }

  lemma MovedIs(s: seq<WrrEntity>, i: nat, head: bool)
    requires i < |s|
    ensures |RemoveAt(s, i)| == |s| - 1 && |Moved(s, i, head)| == |s|
    ensures Moved(s, i, head) == Inserted(RemoveAt(s, i), if head then 0 else |s| - 1, s[i])
  {
  }

  ghost function Moved(s: seq<WrrEntity>, i: nat, head: bool): seq<WrrEntity>
    requires i < |s|
  {
    if head then [s[i]] + RemoveAt(s, i) else RemoveAt(s, i) + [s[i]]
  }

  /** list_add (`head`) and list_add_tail. */
  method AddToEnd(e: WrrEntity, h: WrrEntity, head: bool, ghost s: seq<WrrEntity>)
    requires Ring(h, s) && e != h && e !in s
    modifies e`next, e`prev, s`next, s`prev, h`next, h`prev
    ensures Ring(h, Inserted(s, if head then 0 else |s|, e))
  {
    CycleAt(h, s);
    hide Ring, NoRepeats, Cycle;
    RingEnds(h, s);
    if head {
      ListInsert(e, h, h.next, h, s, 0);
    } else {
      ListInsert(e, h.prev, h, h, s, |s|);
    }
  }

  /** list_move and list_move_tail of an entity that is on no list: its own node is unlinked first. */
  method ListMoveIn(e: WrrEntity, h: WrrEntity, head: bool, ghost s: seq<WrrEntity>)
    requires Ring(h, s) && e != h && e !in s && Alone(e)
    modifies e`next, e`prev, s`next, s`prev, h`next, h`prev
    ensures Ring(h, Inserted(s, if head then 0 else |s|, e))
  {
    hide Ring;
    e.next.prev := e.prev;
    e.prev.next := e.next;
    AddToEnd(e, h, head, s);
  }

  // ---------------------------------------------------------------- the run queue

  ghost function ViewOf(s: seq<WrrEntity>): (r: seq<Ent<WrrEntity>>)
    reads s`weight, s`timeSlice
    ensures |r| == |s|
    ensures forall i :: 0 <= i < |s| ==> r[i] == Ent(s[i], s[i].weight, s[i].timeSlice)
  {
    if s == [] then []
    else
      var e := s[|s| - 1];
      ViewOf(s[..|s| - 1]) + [Ent(e, e.weight, e.timeSlice)]
  }

  lemma ViewIndex(h: WrrEntity, s: seq<WrrEntity>, i: nat)
    requires NoRepeats(h, s) && i < |s|
    ensures Queued(ViewOf(s), s[i]) && IndexOf(ViewOf(s), s[i]) == i
    ensures DistinctIds(ViewOf(s))
  {
    hide ViewOf, IndexOf;
    var q := ViewOf(s);
    assert q[i].id == s[i];
    var k := IndexOf(q, s[i]);
    assert q[k].id == s[k];
  }

  lemma ViewAbsent(s: seq<WrrEntity>, e: WrrEntity)
    requires e !in s
    ensures !Queued(ViewOf(s), e)
  {
  }

  lemma OneWeight(x: Ent<WrrEntity>)
    ensures WeightSum([x]) == x.weight
  {
  }

  lemma WeightSumDeleted(q: seq<Ent<WrrEntity>>, i: nat)
    requires i < |q|
    ensures WeightSum(RemoveAt(q, i)) == WeightSum(q) - q[i].weight
  {
    hide WeightSum, RemoveAt;
    var a, b := SplitAt(q, i);
    SliceSumConcat(a, b);
    SliceSumConcat(a, [q[i]] + b);
    SliceSumConcat([q[i]], b);
    OneWeight(q[i]);
  }

  lemma WeightSumAdded(q: seq<Ent<WrrEntity>>, x: Ent<WrrEntity>)
    ensures WeightSum([x] + q) == WeightSum(q) + x.weight
    ensures WeightSum(q + [x]) == WeightSum(q) + x.weight
  {
    hide WeightSum;
    SliceSumConcat([x], q);
    SliceSumConcat(q, [x]);
    OneWeight(x);
  }

  lemma ViewDeletedIs(s: seq<WrrEntity>, i: nat)
    requires i < |s|
    ensures ViewOf(RemoveAt(s, i)) == RemoveAt(ViewOf(s), i)
  {
    hide ViewOf;
    var d := RemoveAt(s, i);
    var q, r := ViewOf(s), ViewOf(d);
    forall k | 0 <= k < |d|
      ensures r[k] == RemoveAt(q, i)[k]
    {
      var m := if k < i then k else k + 1;
      assert d[k] == s[m] && RemoveAt(q, i)[k] == q[m];
    }
  }

  lemma ViewDeleted(h: WrrEntity, s: seq<WrrEntity>, i: nat)
    requires NoRepeats(h, s) && i < |s|
    ensures ViewOf(RemoveAt(s, i)) == Remove(ViewOf(s), s[i])
    ensures WeightSum(ViewOf(RemoveAt(s, i))) == WeightSum(ViewOf(s)) - s[i].weight
  {
    hide ViewOf, WeightSum, IndexOf, NoRepeats, RemoveAt;
    ViewIndex(h, s, i);
    ViewDeletedIs(s, i);
    WeightSumDeleted(ViewOf(s), i);
  }

  lemma ViewAddedIs(s: seq<WrrEntity>, e: WrrEntity, head: bool)
    ensures var x := Ent(e, e.weight, e.timeSlice);
            ViewOf(Inserted(s, if head then 0 else |s|, e)) == if head then [x] + ViewOf(s) else ViewOf(s) + [x]
  {
    hide ViewOf;
    var d := Inserted(s, if head then 0 else |s|, e);
    assert d == if head then [e] + s else s + [e];
  }

  lemma ViewAdded(s: seq<WrrEntity>, e: WrrEntity, head: bool)
    ensures var r := ViewOf(Inserted(s, if head then 0 else |s|, e)); var x := Ent(e, e.weight, e.timeSlice);
            && r == (if head then [x] + ViewOf(s) else ViewOf(s) + [x])
            && WeightSum(r) == WeightSum(ViewOf(s)) + e.weight
  {
    hide ViewOf, WeightSum, Inserted;
    ViewAddedIs(s, e, head);
    WeightSumAdded(ViewOf(s), Ent(e, e.weight, e.timeSlice));
  }

  lemma ViewMoved(h: WrrEntity, s: seq<WrrEntity>, i: nat, head: bool)
    requires NoRepeats(h, s) && i < |s|
    ensures ViewOf(Moved(s, i, head)) == Requeue(ViewOf(s), s[i], head)
    ensures WeightSum(ViewOf(Moved(s, i, head))) == WeightSum(ViewOf(s))
    ensures |Moved(s, i, head)| == |s|
  {
    hide ViewOf, WeightSum, IndexOf, NoRepeats, Moved, RemoveAt, Inserted, Remove;
    MovedIs(s, i, head);
    ViewIndex(h, s, i);
    ViewDeleted(h, s, i);
    ViewAdded(RemoveAt(s, i), s[i], head);
  }

  lemma MovedEnds(s: seq<WrrEntity>, i: nat, head: bool)
    requires i < |s|
    ensures Moved(s, i, head) == if head then [s[i]] + RemoveAt(s, i) else RemoveAt(s, i) + [s[i]]
  {
  }

  lemma EnqueueIs(q: seq<Ent<WrrEntity>>, e: WrrEntity, weight: nat, unit: nat, head: bool)
    requires !Queued(q, e)
    ensures var x := Ent(e, weight, weight * unit);
            Enqueue(q, e, weight, unit, head) == if head then [x] + q else q + [x]
  {
  }

  lemma InsertedIs(s: seq<WrrEntity>, e: WrrEntity, head: bool)
    ensures Inserted(s, if head then 0 else |s|, e) == if head then [e] + s else s + [e]
  {
  }

  ghost function Renewed(q: seq<Ent<WrrEntity>>, i: nat, unit: nat): seq<Ent<WrrEntity>>
    requires i < |q|
  {
    q[i := q[i].(slice := q[i].weight * unit)]
  }

  /** The three cases of a tick. */
  lemma TickIs(q: seq<Ent<WrrEntity>>, i: nat, e: WrrEntity, throttled: bool, unit: nat)
    requires i < |q| && DistinctIds(q) && Queued(q, e) && IndexOf(q, e) == i
    ensures Queued(Renewed(q, i, unit), e)
    ensures Tick(q, e, throttled, unit) ==
            if q[i].slice > 1 then q[i := q[i].(slice := q[i].slice - 1)]
            else if |q| > 1 || throttled then Requeue(Renewed(q, i, unit), e, false)
            else Renewed(q, i, unit)
  {
    hide IndexOf;
    var r := Renewed(q, i, unit);
    assert r[i].id == e;
    var k := IndexOf(r, e);
    assert q[k].id == e;
  }

  /** struct wrr_rq */
  class WrrRq {
    const active: WrrEntity
    const unit: nat
    var nrRunning: nat
    var totalWeight: nat
    ghost var order: seq<WrrEntity>

    ghost predicate Valid()
      reads this, active, order
    {
      && Ring(active, order)
      && nrRunning == |order|
      && totalWeight == WeightSum(ViewOf(order))
    }

    ghost function View(): seq<Ent<WrrEntity>>
      reads this, order
    {
      ViewOf(order)
    }

    /** init_wrr_rq */
    constructor (unit: nat)
      ensures Valid() && View() == [] && this.unit == unit && fresh(active)
    {
      active := new WrrEntity();
      this.unit := unit;
      nrRunning, totalWeight, order := 0, 0, [];
    }

    /** The slice that enqueue_wrr_entity gives, after update_weight. */
    method FillSlice(e: WrrEntity, background: bool)
      modifies e`weight, e`timeSlice
      ensures e.weight == UpdatedWeight(old(e.weight), e.customWeight, background) && e.timeSlice == e.weight * unit
      ensures e.weight == if e.customWeight then old(e.weight) else if background then 1 else 10
    {
      e.UpdateWeight(background);
      e.timeSlice := e.weight * unit;
    }

    /** enqueue_wrr_entity and inc_wrr_tasks; the task is on no list. */
    method EnqueueEntity(e: WrrEntity, head: bool, background: bool)
      requires Valid() && e != active && e !in order && Alone(e)
      modifies this`nrRunning, this`totalWeight, this`order, active, order`next, order`prev, e
      ensures Valid()
      ensures order == if head then [e] + old(order) else old(order) + [e]
      ensures View() == Enqueue(old(View()), e, UpdatedWeight(old(e.weight), old(e.customWeight), background), unit, head)
      ensures e.customWeight == old(e.customWeight) && e.timeSlice == e.weight * unit
      ensures e.weight == if old(e.customWeight) then old(e.weight) else if background then 1 else 10
    {
      hide Ring, WeightSum, IndexOf, ViewOf, UpdatedWeight, Enqueue, Inserted, Queued, NoRepeats;
      ViewAbsent(order, e);
      EnqueueIs(View(), e, UpdatedWeight(e.weight, e.customWeight, background), unit, head);
      InsertedIs(order, e, head);
      FillSlice(e, background);
      assert View() == old(View());
      ListMoveIn(e, active, head, order);
      ViewAdded(order, e, head);
      order := Inserted(order, if head then 0 else |order|, e);
      totalWeight := totalWeight + e.weight;
      nrRunning := nrRunning + 1;
    }

    /** dequeue_wrr_entity, with dec_wrr_tasks */
    method DequeueEntity(e: WrrEntity, ghost i: nat)
      requires Valid() && i < |order| && order[i] == e
      modifies this`nrRunning, this`totalWeight, this`order, active, order`next, order`prev
      ensures Valid() && Alone(e)
      ensures order == RemoveAt(old(order), i)
      ensures View() == Remove(old(View()), e)
    {
      hide Ring, WeightSum, IndexOf, ViewOf, Remove;
      RingEnds(active, order);
      Neighbours(active, order, i);
      DeletedNoRepeats(active, order, i);
      ViewDeleted(active, order, i);
      ListUnlink(e.prev, e.next, active, order, i);
      order := RemoveAt(order, i);
      e.next := e;
      e.prev := e;
      totalWeight := totalWeight - e.weight;
      nrRunning := nrRunning - 1;
    }

    /** requeue_wrr_entity */
    method RequeueEntity(e: WrrEntity, head: bool, ghost i: nat)
      requires Valid() && i < |order| && order[i] == e
      modifies this`order, active, order`next, order`prev
      ensures Valid()
      ensures order == Moved(old(order), i, head)
      ensures View() == Requeue(old(View()), e, head)
      ensures order == if head then [e] + RemoveAt(old(order), i) else RemoveAt(old(order), i) + [e]
    {
      hide Ring, WeightSum, IndexOf, ViewOf, Requeue, Moved, NoRepeats, Cycle;
      RingEnds(active, order);
      ViewIndex(active, order, i);
      MovedEnds(order, i, head);
      ListMove(e, active, head, order, i);
      assert View() == old(View());
      ViewMoved(active, order, i, head);
      order := Moved(order, i, head);
    }

    /** task_tick_wrr; `resched` is set_tsk_need_resched. */
    method TaskTick(e: WrrEntity, throttled: bool, ghost i: nat) returns (resched: bool)
      requires Valid() && i < |order| && order[i] == e
      modifies this`order, active, order
      ensures Valid()
      ensures View() == Tick(old(View()), e, throttled, unit)
      ensures e.timeSlice == (if old(e.timeSlice) > 1 then old(e.timeSlice) - 1 else e.weight * unit) && e.weight == old(e.weight)
      ensures order == if resched then RemoveAt(old(order), i) + [e] else old(order)
      ensures resched <==> old(e.timeSlice) <= 1 && (old(|order|) > 1 || throttled)
    {
      hide Ring, WeightSum, IndexOf, ViewOf, NoRepeats, Tick, Requeue;
      RingEnds(active, order);
      ViewIndex(active, order, i);
      ghost var was := View();
      TickIs(was, i, e, throttled, unit);
      if e.timeSlice == 0 { e.timeSlice := 1; }
      e.timeSlice := e.timeSlice - 1;
      if e.timeSlice != 0 {
        assert View() == was[i := was[i].(slice := e.timeSlice)];
        SameWeights(was, View());
        return false;
      }
      e.timeSlice := e.weight * unit;
      assert View() == Renewed(was, i, unit);
      SameWeights(was, View());
      PrevNextTest(active, order, i);
      if e.prev != e.next || throttled {
        RequeueEntity(e, false, i);
        return true;
      }
      return false;
    }

    /** pick_next_task_wrr */
    method PickNext(throttled: bool) returns (e: WrrEntity?)
      requires Valid()
      ensures e == null <==> View() == [] || throttled
      ensures e != null ==> e == View()[0].id && e in order
    {
      if nrRunning == 0 || throttled { return null; }
      RingEnds(active, order);
      return active.next;
    }
  }

  lemma {:induction false} SameWeights(a: seq<Ent<WrrEntity>>, b: seq<Ent<WrrEntity>>)
    requires |a| == |b| && forall i :: 0 <= i < |a| ==> a[i].weight == b[i].weight
    ensures WeightSum(a) == WeightSum(b)
  {
    if a != [] { SameWeights(a[1..], b[1..]); }
  }
}
