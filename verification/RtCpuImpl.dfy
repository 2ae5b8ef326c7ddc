/** rt.c as it is written: field by field updates of lists, bitmaps and counters, stacks threaded through `back`
    pointers, and the descent to the next task.  Every method is proved to compute the
    function of RtQueue or RtRuns that specifies it. */
module RtCpuImpl {
  import opened Kernel
  import opened Lists
  import opened RtQueue
  import opened RtQueueProofs
  import opened RtRuns
  import opened RtOrder

  datatype Link = Null | To(entity: Entity)

  /** The entities that for_each_sched_rt_entity visits, from `e` outwards. */
  ghost function StackOf(s: Cpu, e: Entity): (r: seq<Entity>)
    requires Shaped(s) && Known(s, e)
    ensures |r| > 0 && r[0] == e
    ensures forall i :: 0 <= i < |r| ==> Known(s, r[i])
    ensures forall i :: 0 < i < |r| ==> r[i] == Group(RqOf(s, r[i - 1]))
    ensures RqOf(s, r[|r| - 1]) == 0
    ensures forall i :: 0 <= i < |r| - 1 ==> RqOf(s, r[i]) != 0
    decreases RqOf(s, e)
  {
    var g := RqOf(s, e);
    if g == 0 then [e] else [e] + StackOf(s, Group(g))
  }

  lemma {:induction false} StackDecreases(s: Cpu, e: Entity, i: nat, j: nat)
    requires Shaped(s) && Known(s, e)
    requires i < j < |StackOf(s, e)|
    ensures var r := StackOf(s, e);
            r[j].Group? && (r[i].Group? ==> r[j].gid < r[i].gid)
    decreases j - i
  {
    if j > i + 1 { StackDecreases(s, e, i + 1, j); }
  }

  lemma StackDistinct(s: Cpu, e: Entity, i: nat)
    requires Shaped(s) && Known(s, e) && i < |StackOf(s, e)|
    ensures forall k :: 0 <= k < i ==> StackOf(s, e)[k] != StackOf(s, e)[i]
  {
    hide Shaped, Known;
    forall k | 0 <= k < i
      ensures StackOf(s, e)[k] != StackOf(s, e)[i]
    {
      StackDecreases(s, e, k, i);
    }
  }

  /** Only the list of its priority holds a queued entity. */
  lemma HeldOnlyThere(s: Cpu, e: Entity)
    requires Consistent(s) && Known(s, e) && On(s, e)
    ensures 0 <= Prio(s, e) < MAX_RT_PRIO
    ensures var q, p := s.rqs[RqOf(s, e)].queue, Prio(s, e);
            forall head :: RemoveEverywhere(q, e)[p := AddTo(RemoveEverywhere(q, e)[p], e, head)] == q[p := AddTo(Without(q[p], e), e, head)]
  {
    hide Boosted, BoostedOf, Members, Indexed, Distinct, Without, AddTo, RemoveEverywhere;
    HeldAtPrio(s, e);
    var g := RqOf(s, e);
    assert LocalOk(s, g);
    var q, p := s.rqs[g].queue, Prio(s, e);
    forall i | 0 <= i < MAX_RT_PRIO && i != p
      ensures RemoveEverywhere(q, e)[i] == q[i]
    {
      assert e !in q[i];
    }
  }

  /** The first `n` entities of the stack point back to the one visited before. */
  ghost predicate Threaded(back: map<Entity, Link>, stack: seq<Entity>, n: nat)
    requires n <= |stack|
  {
    forall k :: 0 <= k < n ==> stack[k] in back && back[stack[k]] == (if k == 0 then Null else To(stack[k - 1]))
  }

  lemma ThreadedAt(back: map<Entity, Link>, stack: seq<Entity>, k: nat)
    requires k < |stack| && Threaded(back, stack, |stack|)
    ensures stack[k] in back && back[stack[k]] == if k == 0 then Null else To(stack[k - 1])
  {
  }

  lemma ThreadOne(back: map<Entity, Link>, stack: seq<Entity>, i: nat, top: Link)
    requires i < |stack| && Threaded(back, stack, i) && forall k :: 0 <= k < i ==> stack[k] != stack[i]
    requires top == if i == 0 then Null else To(stack[i - 1])
    ensures Threaded(back[stack[i] := top], stack, i + 1)
  {
  }

  class RtCpu {
    var parent: seq<nat>
    var rqs: seq<RtRq>
    var tasks: map<nat, TaskAttr>
    var back: map<Entity, Link>

    function View(): Cpu
      reads this
    {
      Cpu(parent, rqs, tasks)
    }

    constructor ()
      ensures View() == InitCpu() && Inv(View())
    {
      parent, rqs, tasks, back := [0], [EmptyRq()], map[], map[];
      new;
      InitOk();
    }

    /** __dequeue_rt_entity */
    method DequeueRtEntityRaw(e: Entity)
      requires Shaped(View()) && Known(View(), e)
      modifies this`rqs
      ensures View() == DequeueRaw(old(View()), e)
    {
      hide Boosted, RemoveEverywhere, FirstSet, Without;
      var g := RqOf(View(), e);
      var p := Prio(View(), e);
      var boosted := Boosted(View(), e);
      var q := rqs[g];
      assert ShapedRq(q);
      hide Shaped;
      q := q.(queue := RemoveEverywhere(q.queue, e));
      if 0 <= p < MAX_RT_PRIO && q.queue[p] == [] {
        q := q.(bitmap := q.bitmap[p := false]);
      }
      q := q.(nrRunning := q.nrRunning - 1);
      if q.nrRunning != 0 {
        if p == q.highest { q := q.(highest := FirstSet(q.bitmap, 0)); }
      } else {
        q := q.(highest := MAX_RT_PRIO);
      }
      if boosted { q := q.(nrBoosted := q.nrBoosted - 1); }
      rqs := rqs[g := q];
    }

    /** __enqueue_rt_entity */
    method EnqueueRtEntityRaw(e: Entity, head: bool)
      requires Shaped(View()) && Known(View(), e)
      requires Enqueueable(View(), e) ==> 0 <= Prio(View(), e) < MAX_RT_PRIO
      modifies this`rqs
      ensures View() == EnqueueRaw(old(View()), e, head)
    {
      if !Enqueueable(View(), e) { return; }
      var g := RqOf(View(), e);
      var p := Prio(View(), e);
      var boosted := Boosted(View(), e);
      var q := rqs[g];
      if head {
        q := q.(queue := q.queue[p := [e] + q.queue[p]]);
      } else {
        q := q.(queue := q.queue[p := q.queue[p] + [e]]);
      }
      q := q.(bitmap := q.bitmap[p := true]);
      q := q.(nrRunning := q.nrRunning + 1);
      if p < q.highest { q := q.(highest := p); }
      if boosted { q := q.(nrBoosted := q.nrBoosted + 1); }
      rqs := rqs[g := q];
    }

    /** The first loop of dequeue_rt_stack: write the back pointers on the way up. */
    method ThreadStack(e: Entity, ghost stack: seq<Entity>) returns (top: Link)
      requires Shaped(View()) && Known(View(), e) && stack == StackOf(View(), e)
      modifies this`back
      ensures Threaded(back, stack, |stack|)
      ensures top == To(stack[|stack| - 1])
    {
      hide Shaped, StackOf;
      ghost var s := View();
      ghost var i := 0;
      assert Threaded(back, stack, 0);
      hide Threaded;
      var cur := To(e);
      top := Null;
      while cur != Null
        invariant 0 <= i <= |stack|
        invariant cur == if i < |stack| then To(stack[i]) else Null
        invariant top == if i == 0 then Null else To(stack[i - 1])
        invariant Threaded(back, stack, i)
        decreases |stack| - i
      {
        var se := cur.entity;
        StackDistinct(s, e, i);
        ThreadOne(back, stack, i, top);
        back := back[se := top];
        top := cur;
        var g := RqOf(View(), se);
        cur := if g == 0 then Null else To(Group(g));
        i := i + 1;
      }
    }

    /** dequeue_rt_stack: one pass up to write the back pointers, one pass down to dequeue. */
    method DequeueRtStack(e: Entity)
      requires Shaped(View()) && Known(View(), e)
      modifies this`rqs, this`back
      ensures View() == TakeDown(old(View()), e)
    {
      hide Shaped, On, DequeueRaw, StackOf, Threaded;
      ghost var s := View();
      ghost var stack := StackOf(s, e);
      var cur := ThreadStack(e, stack);
      ghost var i := |stack|;
      while cur != Null
        invariant 0 <= i <= |stack| && Shaped(View()) && SameFrame(s, View())
        invariant cur == if i == 0 then Null else To(stack[i - 1])
        invariant Threaded(back, stack, |stack|)
        invariant View() == if i == |stack| then s else TakeDown(s, stack[i])
        decreases i
      {
        var se := cur.entity;
        ThreadedAt(back, stack, i - 1);
        if On(View(), se) { DequeueRtEntityRaw(se); }
        cur := back[se];
        i := i - 1;
      }
    }

    /** enqueue_rt_entity */
    method EnqueueRtEntity(e: Entity, head: bool)
      requires Consistent(View()) && Known(View(), e) && LinkedBut(View(), Own(e))
      modifies this`rqs, this`back
      ensures View() == EnqueueEntity(old(View()), e, head)
      ensures Inv(View())
    {
      ghost var s := View();
      TakeDownOk(s, e);
      DequeueRtStack(e);
      EnclosingFrame(s, View(), RqOf(s, e));
      EnqueueKeeps(s, e, head);
      RebuildLoop(e, head);
    }

    method RebuildLoop(e: Entity, head: bool)
      requires Consistent(View()) && Known(View(), e)
      requires !On(View(), e) && GroupsOff(View(), Enclosing(View(), RqOf(View(), e)))
      modifies this`rqs
      ensures View() == BuildUp(old(View()), e, head)
    {
      hide LocalOk, Shaped, On, EnqueueRaw;
      ghost var s := View();
      var cur := To(e);
      while cur != Null
        invariant Shaped(View()) && SameFrame(s, View())
        invariant cur == Null ==> View() == BuildUp(s, e, head)
        invariant cur != Null ==>
                    && Known(View(), cur.entity) && BuildUp(View(), cur.entity, head) == BuildUp(s, e, head)
                    && Consistent(View()) && !On(View(), cur.entity)
                    && GroupsOff(View(), Enclosing(View(), RqOf(View(), cur.entity)))
        decreases if cur == Null then 0 else RqOf(View(), cur.entity) + 1
      {
        var se := cur.entity;
        ghost var here := View();
        AttachOk(here, se, head);
        EnqueueRtEntityRaw(se, head);
        var g := RqOf(View(), se);
        EnclosingFrame(here, View(), g);
        cur := if g == 0 then Null else To(Group(g));
      }
    }

    /** dequeue_rt_entity */
    method DequeueRtEntity(e: Entity)
      requires Consistent(View()) && Known(View(), e) && LinkedBut(View(), Own(e))
      modifies this`rqs, this`back
      ensures View() == DequeueEntity(old(View()), e)
      ensures Inv(View())
    {
      ghost var s := View();
      TakeDownOk(s, e);
      DequeueRtStack(e);
      EnclosingFrame(s, View(), RqOf(s, e));
      DequeueKeeps(s, e);
      ReattachLoop(e);
    }

    method ReattachLoop(e: Entity)
      requires Consistent(View()) && Known(View(), e)
      requires !On(View(), e) && GroupsOff(View(), Enclosing(View(), RqOf(View(), e)))
      modifies this`rqs
      ensures View() == Reattach(old(View()), e)
    {
      hide LocalOk, Shaped, On, EnqueueRaw;
      ghost var s := View();
      var cur := To(e);
      while cur != Null
        invariant Shaped(View()) && SameFrame(s, View())
        invariant cur == Null ==> View() == Reattach(s, e)
        invariant cur != Null ==>
                    && Known(View(), cur.entity) && Reattach(View(), cur.entity) == Reattach(s, e)
                    && Consistent(View()) && !On(View(), cur.entity)
                    && GroupsOff(View(), Enclosing(View(), RqOf(View(), cur.entity)))
        decreases if cur == Null then 0 else RqOf(View(), cur.entity) + 1
      {
        var se := cur.entity;
        ghost var here := View();
        if se.Group? && rqs[se.gid].nrRunning != 0 {
          AttachOk(here, se, false);
          EnqueueRtEntityRaw(se, false);
        }
        var g := RqOf(View(), se);
        EnclosingFrame(here, View(), g);
        cur := if g == 0 then Null else To(Group(g));
      }
    }

    /** requeue_rt_entity */
    method RequeueRtEntity(e: Entity, head: bool)
      requires Consistent(View()) && Known(View(), e)
      modifies this`rqs
      ensures View() == RequeueRaw(old(View()), e, head) && Consistent(View())
    {
      hide LocalOk, On, RemoveEverywhere, Without;
      RequeueOk(View(), e, head);
      if !On(View(), e) { return; }
      HeldAtPrio(View(), e);
      HeldOnlyThere(View(), e);
      var g := RqOf(View(), e);
      var p := Prio(View(), e);
      var q := rqs[g];
      var list := Without(q.queue[p], e);
      if head {
        list := [e] + list;
      } else {
        list := list + [e];
      }
      q := q.(queue := q.queue[p := list]);
      rqs := rqs[g := q];
    }

    /** requeue_task_rt */
    method RequeueTask(t: nat, head: bool)
      requires Inv(View()) && t in tasks
      modifies this`rqs
      ensures View() == RequeueStack(old(View()), Task(t), head)
      ensures Inv(View())
    {
      hide LocalOk, Shaped, On, RequeueRaw, Linked;
      ghost var s := View();
      RequeueKeeps(s, Task(t), head);
      var cur := To(Task(t));
      while cur != Null
        invariant Consistent(View()) && SameFrame(s, View())
        invariant cur == Null ==> View() == RequeueStack(s, Task(t), head)
        invariant cur != Null ==>
                    Known(View(), cur.entity) && RequeueStack(View(), cur.entity, head) == RequeueStack(s, Task(t), head)
        decreases if cur == Null then 0 else RqOf(View(), cur.entity) + 1
      {
        var se := cur.entity;
        RequeueRtEntity(se, head);
        var g := RqOf(View(), se);
        cur := if g == 0 then Null else To(Group(g));
      }
    }

    /** sched_rt_runtime_exceeded once the budget is used up: set the flag, then sched_rt_rq_dequeue. */
    method ThrottleRq(g: nat)
      requires Inv(View()) && g < |rqs|
      modifies this`rqs, this`back
      ensures View() == Throttle(old(View()), g)
      ensures Inv(View()) && rqs[g].throttled
      ensures var s := old(View()); var f := FlagSet(s, g, true);
              Shaped(f) && (if g != 0 && On(s, Group(g)) && s.rqs[g].nrBoosted == 0 then StackMoved(f, View(), Group(g), false) else View() == f)
    {
      ThrottleExact(View(), g);
      hide FlagSet, StackMoved;
      hide LocalOk, Shaped, On, DequeueEntity;
      ghost var s := View();
      ThrottleKeeps(s, g);
      SetThrottledOk(s, g, true);
      rqs := rqs[g := rqs[g].(throttled := true)];
      assert View() == SetThrottled(s, g, true);
      if EffThrottled(rqs[g]) && g != 0 && On(View(), Group(g)) { DequeueRtEntity(Group(g)); }
    }

    /** do_sched_rt_period_timer once the queue is below its budget: clear the flag, then sched_rt_rq_enqueue. */
    method UnthrottleRq(g: nat)
      requires Inv(View()) && g < |rqs|
      modifies this`rqs, this`back
      ensures View() == Unthrottle(old(View()), g)
      ensures Inv(View()) && !rqs[g].throttled
      ensures var s := old(View()); var f := FlagSet(s, g, false);
              Shaped(f) && (if g != 0 && s.rqs[g].nrRunning != 0 && !On(s, Group(g)) then StackMoved(f, View(), Group(g), false) else View() == f)
    {
      UnthrottleExact(View(), g);
      hide FlagSet, StackMoved;
      hide LocalOk, Shaped, On, EnqueueEntity;
      ghost var s := View();
      UnthrottleKeeps(s, g);
      SetThrottledOk(s, g, false);
      rqs := rqs[g := rqs[g].(throttled := false)];
      assert View() == SetThrottled(s, g, false);
      if rqs[g].nrRunning != 0 && g != 0 && !On(View(), Group(g)) { EnqueueRtEntity(Group(g), false); }
    }

    /** __enable_runtime's loop over the run queues of this CPU, as far as it concerns them. */
    method EnableRuntime()
      requires Inv(View())
      modifies this`rqs
      ensures View() == EnableAll(old(View()))
      ensures Inv(View()) <==> forall g :: 0 < g < |old(rqs)| ==> old(rqs)[g].nrRunning == 0 || !EffThrottled(old(rqs)[g])
    {
      EnableKeepsIff(View());
      hide Inv;
      for g := 0 to |rqs|
        invariant |rqs| == |old(rqs)|
        invariant forall h :: 0 <= h < g ==> rqs[h] == old(rqs)[h].(throttled := false)
        invariant forall h :: g <= h < |rqs| ==> rqs[h] == old(rqs)[h]
      {
        rqs := rqs[g := rqs[g].(throttled := false)];
      }
      assert View() == EnableAll(old(View()));
    }

    /** _pick_next_task_rt: the loop ends at a task and never meets an empty array. */
    method PickNextTask() returns (p: Pick)
      requires Inv(View())
      ensures p == PickNext(View())
      ensures p.Nothing? <==> forall t :: !Eligible(View(), t)
      ensures p.Picked? ==> Eligible(View(), p.tid)
      ensures p.Picked? ==> forall t :: Eligible(View(), t) ==> tasks[p.tid].prio <= tasks[t].prio
    {
      PickIsBest(View());
      if rqs[0].nrRunning == 0 || EffThrottled(rqs[0]) { return Nothing; }
      PickHeadOk(View(), 0);
      var idx := FirstSet(rqs[0].bitmap, 0);
      var se := rqs[0].queue[idx][0];
      while se.Group?
        invariant Known(View(), se)
        invariant match se
                  case Task(t) => t == PickFrom(View(), 0)
                  case Group(g) => rqs[g].nrRunning != 0 && PickFrom(View(), g) == PickFrom(View(), 0)
        decreases if se.Group? then |rqs| - se.gid else 0
      {
        var g := se.gid;
        PickHeadOk(View(), g);
        idx := FirstSet(rqs[g].bitmap, 0);
        se := rqs[g].queue[idx][0];
      }
      return Picked(se.tid);
    }
  }
}
