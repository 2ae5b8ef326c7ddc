/** What the operations on the real-time run queue do to every list, entity by entity, and when
    queueing a task leaves the pick alone. */
module RtOrder {
  import opened Kernel
  import opened Lists
  import opened RtQueue
  import opened RtQueueProofs
  import opened RtRuns

  // ---------------------------------------------------------------- contents of the lists

  /** The entities that an operation on `e` moves: `e` and the groups around it. */
  ghost predicate InStack(s: Cpu, e: Entity, x: Entity)
    requires Shaped(s) && Known(s, e)
  {
    x == e || (x.Group? && x.gid in Enclosing(s, RqOf(s, e)))
  }

  lemma StackKnown(s: Cpu, e: Entity, x: Entity)
    requires Shaped(s) && Known(s, e) && InStack(s, e, x)
    ensures Known(s, x) && (x == e || RqOf(s, x) < RqOf(s, e))
    ensures RqOf(s, x) == 0 || RqOf(s, x) in Enclosing(s, RqOf(s, e))
  {
    if x != e { EnclosingUp(s, RqOf(s, e), x.gid); }
  }

  lemma StackSplits(s: Cpu, e: Entity, x: Entity)
    requires Shaped(s) && Known(s, e)
    ensures InStack(s, e, x) <==> x == e || (RqOf(s, e) > 0 && InStack(s, Group(RqOf(s, e)), x))
  {
  }

  lemma StackFrame(s: Cpu, r: Cpu, g: nat)
    requires Shaped(s) && Shaped(r) && SameFrame(s, r) && 0 < g < |s.rqs|
    ensures Enclosing(s, g) == Enclosing(r, g) && Enclosing(s, s.parent[g]) == Enclosing(r, r.parent[g])
    ensures forall x :: InStack(s, Group(g), x) <==> InStack(r, Group(g), x)
  {
    EnclosingFrame(s, r, g);
    EnclosingFrame(s, r, s.parent[g]);
  }

  /** Run queues that hold no entity of a stack that starts in `g`. */
  ghost predicate Untouched(s: Cpu, r: Cpu, g: nat)
    requires Shaped(s) && g < |s.rqs| == |r.rqs|
  {
    forall h :: 0 < h < |s.rqs| && h !in Enclosing(s, g) ==> r.rqs[h] == s.rqs[h]
  }

  ghost predicate Gone(s: Cpu, r: Cpu, x: Entity)
    requires Shaped(s) && Known(s, x) && |s.rqs| == |r.rqs|
  {
    r.rqs[RqOf(s, x)].queue == RemoveEverywhere(s.rqs[RqOf(s, x)].queue, x)
  }

  lemma AbsentStays(queue: seq<seq<Entity>>, e: Entity)
    requires !InLists(queue, e)
    ensures RemoveEverywhere(queue, e) == queue
  {
  }

  /** Taking one entity out, or finding it out already. */
  lemma DetachedList(s: Cpu, e: Entity)
    requires Shaped(s) && Known(s, e)
    ensures var r := if On(s, e) then DequeueRaw(s, e) else s;
            Gone(s, r, e) && forall h :: 0 <= h < |s.rqs| && h != RqOf(s, e) ==> r.rqs[h] == s.rqs[h]
  {
    hide RemoveEverywhere, FirstSet, Boosted, InLists;
    if !On(s, e) { AbsentStays(s.rqs[RqOf(s, e)].queue, e); }
  }

  lemma {:induction false} TakeDownExact(s: Cpu, e: Entity, x: Entity)
    requires Shaped(s) && Known(s, e) && InStack(s, e, x)
    ensures Known(s, x) && Gone(s, TakeDown(s, e), x)
    ensures Untouched(s, TakeDown(s, e), RqOf(s, e))
    decreases RqOf(s, e)
  {
    hide On, DequeueRaw, RemoveEverywhere;
    var g := RqOf(s, e);
    StackKnown(s, e, x);
    StackSplits(s, e, x);
    var above := if g == 0 then s else TakeDown(s, Group(g));
    if g != 0 { TakeDownExact(s, Group(g), if x == e then Group(g) else x); }
    DetachedList(above, e);
  }

  /** `x` stands at the end of the list of its priority, if it may be queued; its run queue is otherwise that of `s`. */
  ghost predicate Put(s: Cpu, r: Cpu, x: Entity, head: bool)
    requires Shaped(s) && Shaped(r) && SameFrame(s, r) && Known(s, x)
  {
    var q, p := s.rqs[RqOf(s, x)].queue, Prio(r, x);
    r.rqs[RqOf(s, x)].queue ==
      if Enqueueable(r, x) && 0 <= p < MAX_RT_PRIO then q[p := AddTo(q[p], x, head)] else q
  }

  lemma AttachedList(s: Cpu, e: Entity, head: bool)
    requires Shaped(s) && Known(s, e)
    ensures var r := EnqueueRaw(s, e, head);
            Put(s, r, e, head) && forall h :: 0 <= h < |s.rqs| && h != RqOf(s, e) ==> r.rqs[h] == s.rqs[h]
  {
    hide Boosted, AddTo;
  }

  /** `Put` only looks at the run queue of `x` and, for a group, at the group's own. */
  lemma PutFrame(s: Cpu, s1: Cpu, r1: Cpu, r: Cpu, x: Entity, head: bool)
    requires Shaped(s) && Shaped(s1) && Shaped(r1) && Shaped(r) && SameFrame(s, s1) && SameFrame(s1, r1) && SameFrame(r1, r)
    requires Known(s, x) && Put(s1, r1, x, head)
    requires s1.rqs[RqOf(s, x)].queue == s.rqs[RqOf(s, x)].queue && r.rqs[RqOf(s, x)] == r1.rqs[RqOf(s, x)]
    requires x.Group? ==> r.rqs[x.gid] == r1.rqs[x.gid]
    ensures Put(s, r, x, head)
  {
    hide Shaped, EffThrottled, AddTo;
  }

  lemma {:induction false} BuildUpExact(s: Cpu, e: Entity, head: bool, x: Entity)
    requires Shaped(s) && Known(s, e) && InStack(s, e, x)
    ensures Known(s, x) && Put(s, BuildUp(s, e, head), x, head)
    ensures Untouched(s, BuildUp(s, e, head), RqOf(s, e))
    decreases RqOf(s, e)
  {
    hide EnqueueRaw, Put;
    var g := RqOf(s, e);
    StackKnown(s, e, x);
    StackSplits(s, e, x);
    AttachedList(s, e, head);
    var s1, r := EnqueueRaw(s, e, head), BuildUp(s, e, head);
    if g != 0 {
      StackFrame(s, s1, g);
      var y := if x == e then Group(g) else x;
      BuildUpExact(s1, Group(g), head, y);
      if x == e { PutFrame(s, s, s1, r, x, head); } else { PutFrame(s, s1, r, r, x, head); }
    }
  }

  lemma {:induction false} ReattachExact(s: Cpu, e: Entity, x: Entity)
    requires Shaped(s) && Known(s, e) && InStack(s, e, x)
    ensures Known(s, x)
    ensures if x.Task? then Reattach(s, e).rqs[RqOf(s, x)] == s.rqs[RqOf(s, x)] else Put(s, Reattach(s, e), x, false)
    ensures Untouched(s, Reattach(s, e), RqOf(s, e))
    decreases RqOf(s, e)
  {
    var g := RqOf(s, e);
    var put := e.Group? && s.rqs[e.gid].nrRunning != 0;
    var s1, r := if put then EnqueueRaw(s, e, false) else s, Reattach(s, e);
    assert e.Group? && !put ==> Put(s, s, e, false);
    hide EnqueueRaw, Put;
    StackKnown(s, e, x);
    StackSplits(s, e, x);
    AttachedList(s, e, false);
    if g != 0 {
      StackFrame(s, s1, g);
      var y := if x == e then Group(g) else x;
      ReattachExact(s1, Group(g), y);
      if x.Group? {
        if x == e { PutFrame(s, s, s1, r, x, false); } else { PutFrame(s, s1, r, r, x, false); }
      }
    }
  }

  // ---------------------------------------------------------------- the three operations

  /** `x` has left the lists of its run queue and, if it is queued in `r`, stands at the end of
      the list of its present priority; everything else there is as it was. */
  ghost predicate Resettled(s: Cpu, r: Cpu, x: Entity, head: bool)
    requires Shaped(s) && Shaped(r) && SameFrame(s, r) && Known(s, x)
  {
    var rest, p := RemoveEverywhere(s.rqs[RqOf(s, x)].queue, x), Prio(r, x);
    && (On(r, x) ==> 0 <= p < MAX_RT_PRIO && r.rqs[RqOf(s, x)].queue == rest[p := AddTo(rest[p], x, head)])
    && (!On(r, x) ==> r.rqs[RqOf(s, x)].queue == rest)
  }

  /** All that changes is in the run queues of the stack of `e`, and there only its own entity moves. */
  ghost predicate StackMoved(s: Cpu, r: Cpu, e: Entity, head: bool)
    requires Shaped(s) && Shaped(r) && SameFrame(s, r) && Known(s, e)
  {
    && Untouched(s, r, RqOf(s, e))
    && forall x :: Known(s, x) && InStack(s, e, x) ==> Resettled(s, r, x, head)
  }

  lemma SettledFrom(s: Cpu, m: Cpu, r: Cpu, x: Entity, head: bool)
    requires Shaped(s) && Shaped(m) && Shaped(r) && SameFrame(s, m) && SameFrame(m, r) && Known(s, x)
    requires Gone(s, m, x) && Put(m, r, x, head) && (On(r, x) <==> Enqueueable(r, x))
    requires On(r, x) ==> 0 <= Prio(r, x) < MAX_RT_PRIO
    ensures Resettled(s, r, x, head)
  {
    hide On, RemoveEverywhere, AddTo, EffThrottled;
  }

  /** enqueue_rt_entity, list by list. */
  lemma EnqueueExact(s: Cpu, e: Entity, head: bool)
    requires Consistent(s) && Known(s, e) && LinkedBut(s, Own(e))
    ensures Inv(EnqueueEntity(s, e, head)) && StackMoved(s, EnqueueEntity(s, e, head), e, head)
  {
    hide LocalOk, TakeDown, BuildUp, Gone, Put, Enclosing;
    var m, r := TakeDown(s, e), EnqueueEntity(s, e, head);
    EnqueueKeeps(s, e, head);
    EnclosingFrame(s, m, RqOf(s, e));
    TakeDownExact(s, e, e);
    BuildUpExact(m, e, head, e);
    forall x | Known(s, x) && InStack(s, e, x)
      ensures Resettled(s, r, x, head)
    {
      TakeDownExact(s, e, x);
      BuildUpExact(m, e, head, x);
      if x.Group? { assert Linked(r, x.gid); }
      if On(r, x) { HeldAtPrio(r, x); }
      SettledFrom(s, m, r, x, head);
    }
  }

  /** dequeue_rt_entity, list by list: the groups around the task go to the tails of their lists. */
  lemma DequeueExact(s: Cpu, e: Entity)
    requires Consistent(s) && Known(s, e) && LinkedBut(s, Own(e))
    ensures Inv(DequeueEntity(s, e)) && StackMoved(s, DequeueEntity(s, e), e, false)
  {
    hide LocalOk, TakeDown, Reattach, Put, Enclosing;
    var m, r := TakeDown(s, e), DequeueEntity(s, e);
    DequeueKeeps(s, e);
    EnclosingFrame(s, m, RqOf(s, e));
    TakeDownExact(s, e, e);
    ReattachExact(m, e, e);
    forall x | Known(s, x) && InStack(s, e, x)
      ensures Resettled(s, r, x, false)
    {
      TakeDownExact(s, e, x);
      ReattachExact(m, e, x);
      if x.Group? {
        assert Linked(r, x.gid);
        if On(r, x) { HeldAtPrio(r, x); }
        SettledFrom(s, m, r, x, false);
      }
    }
  }

  lemma RequeuedList(s: Cpu, e: Entity, head: bool)
    requires Consistent(s) && Known(s, e)
    ensures var r := RequeueRaw(s, e, head);
            Resettled(s, r, e, head) && forall h :: 0 <= h < |s.rqs| && h != RqOf(s, e) ==> r.rqs[h] == s.rqs[h]
  {
    hide LocalOk, RemoveEverywhere, AddTo, InLists;
    RequeueOk(s, e, head);
    if On(s, e) { HeldAtPrio(s, e); } else { AbsentStays(s.rqs[RqOf(s, e)].queue, e); }
  }

  lemma {:induction false} RequeueStackExact(s: Cpu, e: Entity, head: bool)
    requires Consistent(s) && Known(s, e)
    ensures StackMoved(s, RequeueStack(s, e, head), e, head)
    decreases RqOf(s, e)
  {
    hide LocalOk, Shaped, On, RequeueRaw, RemoveEverywhere, AddTo;
    var g := RqOf(s, e);
    var s1, r := RequeueRaw(s, e, head), RequeueStack(s, e, head);
    RequeuedList(s, e, head);
    RequeueOk(s, e, head);
    RequeueStackOk(s, e, head);
    if g != 0 {
      StackFrame(s, s1, g);
      RequeueStackExact(s1, Group(g), head);
      RequeueStackOk(s1, Group(g), head);
      forall x | Known(s, x) && InStack(s, e, x)
        ensures Resettled(s, r, x, head)
      {
        StackKnown(s, e, x);
        StackSplits(s, e, x);
        if x != e { assert Resettled(s1, r, x, head); }
      }
    }
  }

  /** requeue_task_rt, list by list. */
  lemma RequeueExact(s: Cpu, t: nat, head: bool)
    requires Inv(s) && t in s.tasks
    ensures StackMoved(s, RequeueStack(s, Task(t), head), Task(t), head)
    ensures forall x :: Known(s, x) ==> (On(RequeueStack(s, Task(t), head), x) <==> On(s, x))
    ensures forall h :: 0 <= h < |s.rqs| ==> RequeueStack(s, Task(t), head).rqs[h].highest == s.rqs[h].highest
  {
    RequeueStackExact(s, Task(t), head);
    RequeueStackOk(s, Task(t), head);
  }

  /** sched_rt_rq_enqueue, list by list: a group that has tasks and is out goes to the tail of its parent's
      list, and the groups around it to the tails of theirs; otherwise nothing happens. */
  lemma RqEnqueueExact(s: Cpu, g: nat)
    requires Consistent(s) && g < |s.rqs| && LinkedBut(s, g)
    ensures var r := RqEnqueue(s, g);
            if g != 0 && s.rqs[g].nrRunning != 0 && !On(s, Group(g)) then StackMoved(s, r, Group(g), false) else r == s
  {
    hide Consistent, StackMoved;
    if g != 0 { EnqueueExact(s, Group(g), false); }
  }

  /** Throttling, list by list: only the flag changes, or the group leaves its list and the groups around it
      that stay queued go to the tails of theirs. */
  lemma ThrottleExact(s: Cpu, g: nat)
    requires Inv(s) && g < |s.rqs|
    ensures var f, r := FlagSet(s, g, true), Throttle(s, g);
            Shaped(f) && (if g != 0 && On(s, Group(g)) && s.rqs[g].nrBoosted == 0 then StackMoved(f, r, Group(g), false) else r == f)
  {
    ShapedInv(s);
    hide StackMoved, Consistent;
    SetThrottledOk(s, g, true);
    var f := SetThrottled(s, g, true);
    if g != 0 {
      DequeueExact(f, Group(g));
      SameListsOn(s, f, Group(g));
    }
  }

  lemma SameListsOn(s: Cpu, r: Cpu, e: Entity)
    requires Shaped(s) && Shaped(r) && SameFrame(s, r) && Known(s, e) && forall h :: 0 <= h < |s.rqs| ==> r.rqs[h].queue == s.rqs[h].queue
    ensures On(r, e) <==> On(s, e)
  {
  }

  ghost function FlagSet(s: Cpu, g: nat, on: bool): Cpu
    requires g < |s.rqs|
  {
    s.(rqs := s.rqs[g := s.rqs[g].(throttled := on)])
  }

  /** Unthrottling, list by list: a group with tasks that was held back goes to the tail of its parent's list,
      and the groups around it to the tails of theirs; otherwise only the flag changes. */
  lemma UnthrottleExact(s: Cpu, g: nat)
    requires Inv(s) && g < |s.rqs|
    ensures var f, r := FlagSet(s, g, false), Unthrottle(s, g);
            Shaped(f) && (if g != 0 && s.rqs[g].nrRunning != 0 && !On(s, Group(g)) then StackMoved(f, r, Group(g), false) else r == f)
  {
    ShapedInv(s);
    hide StackMoved, Consistent, RqEnqueue;
    SetThrottledOk(s, g, false);
    var f := SetThrottled(s, g, false);
    RqEnqueueExact(f, g);
    if g != 0 { SameListsOn(s, f, Group(g)); }
  }

  /** Read at the group itself: once linked it is the last of its parent's list. */
  lemma UnthrottledIsLast(s: Cpu, g: nat)
    requires Inv(s) && 0 < g < |s.rqs| && s.rqs[g].nrRunning != 0 && !On(s, Group(g))
    ensures var r := Unthrottle(s, g);
            && Inv(r) && 0 <= r.rqs[g].highest < MAX_RT_PRIO && ShapedRq(s.rqs[s.parent[g]]) && ShapedRq(r.rqs[s.parent[g]])
            && r.rqs[s.parent[g]].queue[r.rqs[g].highest] == Without(s.rqs[s.parent[g]].queue[r.rqs[g].highest], Group(g)) + [Group(g)]
  {
    UnthrottleExact(s, g);
    UnthrottleKeeps(s, g);
    var f, r := FlagSet(s, g, false), Unthrottle(s, g);
    assert Resettled(f, r, Group(g), false);
    EmptyIffNoMembers(s, g);
    assert Linked(r, g);
    OwnQueueKept(s, r, g);
  }

  /** Linking a group leaves its own run queue alone. */
  lemma OwnQueueKept(s: Cpu, r: Cpu, g: nat)
    requires Inv(s) && Inv(r) && SameFrame(s, r) && 0 < g < |s.rqs| && Linked(r, g)
    requires Shaped(FlagSet(s, g, false)) && StackMoved(FlagSet(s, g, false), r, Group(g), false)
    ensures r.rqs[g] == s.rqs[g].(throttled := false)
    ensures On(r, Group(g)) <==> s.rqs[g].nrRunning != 0
  {
    var f := FlagSet(s, g, false);
    assert g !in Enclosing(f, f.parent[g]);
  }

  /** The lists of the stack's run queues without the stack's own entity are what they were. */
  lemma OthersInOrder(s: Cpu, r: Cpu, e: Entity, head: bool, x: Entity, i: nat)
    requires Shaped(s) && Shaped(r) && SameFrame(s, r) && Known(s, e) && StackMoved(s, r, e, head)
    requires Known(s, x) && InStack(s, e, x) && i < MAX_RT_PRIO
    ensures Without(r.rqs[RqOf(s, x)].queue[i], x) == Without(s.rqs[RqOf(s, x)].queue[i], x)
  {
    assert Resettled(s, r, x, head);
    var l := Without(s.rqs[RqOf(s, x)].queue[i], x);
    WithoutEnds(l, x);
  }
}
