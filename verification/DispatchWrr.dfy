/** The WRR queue of the run queue in Dispatch is the queue of WrrQueue: every step there is a step of
    WrrRuns, so shares and freedom from starvation hold of the whole run queue. */
module DispatchWrr {
  import opened Kernel
  import opened Lists
  import opened Dispatch
  import Q = WrrQueue
  import R = WrrRuns

  // ---------------------------------------------------------------- the view

  function NatOf(x: int): nat { if x < 0 then 0 else x }

  function EntOf(tasks: seq<Task>, t: nat): Q.Ent<nat> {
    if t < |tasks| then Q.Ent(t, NatOf(tasks[t].weight), NatOf(tasks[t].slice)) else Q.Ent(t, 0, 0)
  }

  function ViewOf(tasks: seq<Task>, l: seq<nat>): (r: seq<Q.Ent<nat>>)
    ensures |r| == |l|
    ensures forall i :: 0 <= i < |l| ==> r[i] == EntOf(tasks, l[i])
  {
    seq(|l|, i requires 0 <= i < |l| => EntOf(tasks, l[i]))
  }

  function View(q: Rq): seq<Q.Ent<nat>> { ViewOf(q.tasks, q.wrr) }

  lemma ViewQueued(tasks: seq<Task>, l: seq<nat>, t: nat)
    ensures Q.Queued(ViewOf(tasks, l), t) <==> t in l
  {
    var v := ViewOf(tasks, l);
    if t in l {
      var i :| 0 <= i < |l| && l[i] == t;
      assert v[i].id == t;
    }
    if Q.Queued(v, t) {
      var i :| 0 <= i < |v| && v[i].id == t;
      assert l[i] == t;
    }
  }

  lemma ViewDistinct(tasks: seq<Task>, l: seq<nat>)
    requires Distinct(l)
    ensures Q.DistinctIds(ViewOf(tasks, l))
  {
  }

  /** The position of a task in the list. */
  lemma ViewIndex(tasks: seq<Task>, l: seq<nat>, t: nat) returns (i: nat)
    requires Distinct(l) && t in l
    ensures i < |l| && l[i] == t && Q.Queued(ViewOf(tasks, l), t) && Q.IndexOf(ViewOf(tasks, l), t) == i
  {
    hide Distinct, Q.IndexOf, ViewOf;
    ViewQueued(tasks, l, t);
    ViewDistinct(tasks, l);
    i := Q.IndexOf(ViewOf(tasks, l), t);
  }

  lemma ViewRemoved(tasks: seq<Task>, l: seq<nat>, t: nat)
    requires Distinct(l)
    ensures ViewOf(tasks, Without(l, t)) == Q.Remove(ViewOf(tasks, l), t)
  {
    hide Distinct, Without, Q.IndexOf;
    ViewQueued(tasks, l, t);
    if t in l {
      var i := ViewIndex(tasks, l, t);
      WithoutAt(l, i);
      var a, b := ViewOf(tasks, RemoveAt(l, i)), RemoveAt(ViewOf(tasks, l), i);
      forall k | 0 <= k < |a| ensures a[k] == b[k] {}
      assert a == b;
    }
  }

  /** The entry of a task that is not on the list does not matter. */
  lemma ViewFrame(tasks: seq<Task>, other: seq<Task>, l: seq<nat>)
    requires forall x :: x in l ==> EntOf(tasks, x) == EntOf(other, x)
    ensures ViewOf(tasks, l) == ViewOf(other, l)
  {
  }

  // ---------------------------------------------------------------- each operation on the view

  lemma TickRefines(q: Rq, t: nat, throttled: bool)
    requires Ok(q) && t < |q.tasks| && q.tasks[t].onRq && q.tasks[t].cls == WrrClass
    ensures Q.Queued(View(q), t) && View(Tick(q, t, throttled)) == Q.Tick(View(q), t, throttled, q.unit)
  {
    assert t in Elems(q.wrr) && SliceOk(q.tasks[t], q.unit) && Distinct(q.wrr);
    hide Settled, Distinct, Q.IndexOf, Without;
    var i := ViewIndex(q.tasks, q.wrr, t);
    var p := q.tasks[t];
    var slice := if p.slice > 1 then p.slice - 1 else p.weight * q.unit;
    var tasks := q.tasks[t := p.(slice := slice)];
    var v := View(q)[i := View(q)[i].(slice := slice)];
    ViewOneChanged(q.tasks, tasks, q.wrr, i);
    assert ViewOf(tasks, q.wrr) == v;
    if p.slice <= 1 && (|q.wrr| > 1 || throttled) {
      WithoutAt(q.wrr, i);
      ViewMovedTail(tasks, q.wrr, i);
    }
  }

  lemma ViewOneChanged(tasks: seq<Task>, other: seq<Task>, l: seq<nat>, i: nat)
    requires Distinct(l) && i < |l| && l[i] < |tasks| == |other| && other == tasks[l[i] := other[l[i]]]
    ensures ViewOf(other, l) == ViewOf(tasks, l)[i := EntOf(other, l[i])]
  {
  }

  lemma ViewMovedTail(tasks: seq<Task>, l: seq<nat>, i: nat)
    requires i < |l|
    ensures ViewOf(tasks, RemoveAt(l, i) + [l[i]]) == RemoveAt(ViewOf(tasks, l), i) + [ViewOf(tasks, l)[i]]
  {
    var a, b := ViewOf(tasks, RemoveAt(l, i) + [l[i]]), RemoveAt(ViewOf(tasks, l), i) + [ViewOf(tasks, l)[i]];
    forall k | 0 <= k < |a| ensures a[k] == b[k] {}
  }

  lemma YieldRefines(q: Rq, t: nat)
    requires Ok(q) && t < |q.tasks| && q.tasks[t].onRq && q.tasks[t].cls == WrrClass
    ensures Q.Queued(View(q), t) && View(Yield(q, t)) == Q.Requeue(View(q), t, false)
  {
    assert t in Elems(q.wrr) && Distinct(q.wrr);
    hide Settled, Distinct, Q.IndexOf, Without;
    var i := ViewIndex(q.tasks, q.wrr, t);
    WithoutAt(q.wrr, i);
    ViewMovedTail(q.tasks, q.wrr, i);
  }

  /** What may happen to the list when task `t` is dealt with: nothing, it leaves, or it goes to the tail. */
  ghost predicate Effect(q: Rq, r: Rq, t: nat) {
    || View(r) == View(q)
    || (t in q.wrr && t !in r.wrr && View(r) == Q.Remove(View(q), t))
    || (t in r.wrr && t < |r.tasks| && r.tasks[t].weight >= 1
        && View(r) == Q.Enqueue(View(q), t, r.tasks[t].weight, q.unit, false))
  }

  lemma DequeueEffect(q: Rq, t: nat)
    requires Ok(q) && t < |q.tasks| && q.tasks[t].onRq
    ensures var d := Dequeue(q, t);
            && d.tasks == q.tasks && d.unit == q.unit && t !in d.wrr && Settled(d, t)
            && View(d) == Q.Remove(View(q), t)
            && (q.tasks[t].cls != WrrClass ==> d.wrr == q.wrr && t !in q.wrr) && (q.tasks[t].cls == WrrClass ==> t in q.wrr)
  {
    DequeueOk(q, t);
    InElems(q.wrr, t);
    assert Distinct(q.wrr);
    assert t in Elems(q.wrr) <==> q.tasks[t].cls == WrrClass;
    hide Settled, Distinct, Without;
    ViewRemoved(q.tasks, q.wrr, t);
    ViewQueued(q.tasks, q.wrr, t);
  }

  lemma EnqueueEffect(d: Rq, t: nat)
    requires Settled(d, t) && t < |d.tasks| && d.tasks[t].onRq && t !in d.wrr
    ensures var r := Enqueue(d, t, false);
            && |r.tasks| == |d.tasks| && (r.unit == d.unit)
            && (d.tasks[t].cls != WrrClass ==> View(r) == View(d) && t !in r.wrr)
            && (d.tasks[t].cls == WrrClass ==>
                  t in r.wrr && r.tasks[t].weight >= 1 && View(r) == View(d) + [Q.Ent(t, r.tasks[t].weight, r.tasks[t].weight * d.unit)])
  {
    assert TaskOk(d.tasks[t]) && d.unit >= 1;
    hide Settled;
    WeightedOk(d.tasks[t], d.unit);
    hide TaskOk;
    if d.tasks[t].cls == WrrClass {
      LinkedAtTail(d, t);
      var r := Enqueue(d, t, false);
      ViewFrame(d.tasks, r.tasks, d.wrr);
      assert ViewOf(r.tasks, d.wrr + [t]) == ViewOf(r.tasks, d.wrr) + [EntOf(r.tasks, t)];
    }
  }

  lemma SetTaskView(q: Rq, t: nat, p: Task)
    requires t < |q.tasks| && t !in q.wrr
    ensures View(SetTask(q, t, p)) == View(q)
  {
    ViewFrame(q.tasks, SetTask(q, t, p).tasks, q.wrr);
  }

  lemma RemoveTwice(q: seq<Q.Ent<nat>>, t: nat, w: nat, unit: nat)
    ensures Q.Enqueue(q, t, w, unit, false) == Q.Remove(q, t) + [Q.Ent(t, w, w * unit)]
  {
  }

  lemma NotInWrr(q: Rq, t: nat)
    requires Ok(q) && t < |q.tasks| && !(q.tasks[t].onRq && q.tasks[t].cls == WrrClass)
    ensures t !in q.wrr && !Q.Queued(View(q), t)
  {
    InElems(q.wrr, t);
    ViewQueued(q.tasks, q.wrr, t);
  }

  lemma ReworkEffect(q: Rq, t: nat, p: Task)
    requires Ok(q) && t < |q.tasks| && TaskOk(p) && p.onRq == q.tasks[t].onRq
    ensures Effect(q, Rework(q, t, p, false), t)
  {
    hide Settled, TaskOk, Enqueue, Dequeue, View, Q.Remove, Q.Enqueue;
    if p.onRq {
      DequeueEffect(q, t);
      var d := Dequeue(q, t);
      SetTaskOk(d, t, p);
      SetTaskView(d, t, p);
      EnqueueEffect(SetTask(d, t, p), t);
      if p.cls == WrrClass {
        RemoveTwice(View(q), t, Rework(q, t, p, false).tasks[t].weight, q.unit);
      } else if q.tasks[t].cls != WrrClass {
        SameList(q, d);
      }
    } else {
      NotInWrr(q, t);
      SetTaskView(q, t, p);
    }
  }

  lemma SameList(q: Rq, d: Rq)
    requires d.tasks == q.tasks && d.wrr == q.wrr
    ensures View(d) == View(q)
  {
  }

  lemma WakeEffect(q: Rq, t: nat, p: Task)
    requires Ok(q) && t < |q.tasks| && !q.tasks[t].onRq && TaskOk(p) && p.onRq
    ensures Effect(q, Enqueue(SetTask(q, t, p), t, false), t)
  {
    hide Settled, TaskOk, Enqueue, View, Q.Remove, Q.Enqueue;
    NotInWrr(q, t);
    OffQueue(q, t);
    SetTaskOk(q, t, p);
    SetTaskView(q, t, p);
    EnqueueEffect(SetTask(q, t, p), t);
    if p.cls == WrrClass {
      RemoveTwice(View(q), t, Enqueue(SetTask(q, t, p), t, false).tasks[t].weight, q.unit);
      AbsentRemoved(View(q), t);
    }
  }

  lemma AbsentRemoved(q: seq<Q.Ent<nat>>, t: nat)
    requires !Q.Queued(q, t)
    ensures Q.Remove(q, t) == q
  {
  }

  lemma SleepEffect(q: Rq, t: nat)
    requires Ok(q) && t < |q.tasks| && q.tasks[t].onRq
    ensures Effect(q, Sleep(q, t), t)
  {
    hide Settled, Dequeue, View, Q.Remove;
    DequeueEffect(q, t);
    var d := Dequeue(q, t);
    SetTaskView(d, t, d.tasks[t].(onRq := false));
    if q.tasks[t].cls != WrrClass { SameList(q, d); }
  }

  // ---------------------------------------------------------------- steps

  /** The run queue, the task of the WRR class that has the CPU, and a pending reschedule. */
  datatype State = State(q: Rq, curr: R.Running, resched: bool)

  datatype Step =
    | OnQueue(step: Dispatch.Step)
    | Schedule(preempted: bool, throttled: bool)
    | WantResched

  function Subject(step: Dispatch.Step): nat {
    match step
    case DoFork(t) => t
    case DoWakeNew(t) => t
    case DoWake(t) => t
    case DoSleep(t) => t
    case DoSetScheduler(t, _, _, _, _) => t
    case DoSetPrio(t, _) => t
    case DoSetNice(t, _) => t
    case DoMoveGroup(t, _) => t
    case DoTick(t, _) => t
    case DoYield(t) => t
    case DoStop(_) => 0
  }

  /** Ticks and yields concern the running task, after any pending reschedule; the running task's own policy,
      priority, nice value and group do not change, and no boost ends (which would enqueue at the head). */
  predicate Enabled(s: State, step: Step) {
    step.OnQueue? ==>
      && CanStep(s.q, step.step)
      && match step.step
         case DoTick(t, _) => s.curr == R.Wrr(t) && !s.resched
         case DoYield(t) => s.curr == R.Wrr(t)
         case DoSetScheduler(t, _, _, _, _) => s.curr != R.Wrr(t)
         case DoSetPrio(t, prio) => s.curr != R.Wrr(t) && prio <= s.q.tasks[t].prio
         case DoSetNice(t, _) => s.curr != R.Wrr(t)
         case DoMoveGroup(t, _) => s.curr != R.Wrr(t)
         case _ => true
  }

  lemma ForkEffect(q: Rq, t: nat)
    requires Ok(q) && t < |q.tasks|
    ensures View(Fork(q, t)) == View(q)
  {
    hide Forked, TaskOk, SliceOk;
    forall x | x in q.wrr
      ensures EntOf(q.tasks, x) == EntOf(Fork(q, t).tasks, x)
    {
      assert x in Elems(q.wrr);
    }
    ViewFrame(q.tasks, Fork(q, t).tasks, q.wrr);
  }

  lemma SetNiceEffect(q: Rq, t: nat, nice: int)
    requires Ok(q) && t < |q.tasks|
    ensures Effect(q, SetNice(q, t, nice), t)
  {
    var p := q.tasks[t];
    assert TaskOk(p);
    hide Settled, Rework, TaskOk;
    if -20 <= nice <= 19 {
      RenicedOk(p, nice);
      if RtPolicy(p.policy) {
        ViewFrame(q.tasks, SetTask(q, t, p.(staticPrio := NiceToPrio(nice))).tasks, q.wrr);
      } else {
        ReworkEffect(q, t, Reniced(p, nice));
      }
    }
  }

  lemma SetSchedulerEffect(q: Rq, t: nat, r: Request, prio: int, boost: int, checks: Checks)
    requires Ok(q) && t < |q.tasks| && 0 <= boost <= MAX_PRIO
    ensures Effect(q, SetScheduler(q, t, r, prio, boost, checks).0, t)
  {
    var p := q.tasks[t];
    assert TaskOk(p);
    if Validate(p, r, prio) == 0 {
      var n := p.(resetOnFork := if r.SamePolicy? then p.resetOnFork else r.reset);
      assert TaskOk(n) && Validate(n, r, prio) == 0;
      hide Settled, Rework, TaskOk, Scheduled, Effect, Validate;
      ScheduledOk(n, r, prio, boost);
      ReworkEffect(q, t, Scheduled(n, Policy(p, r), prio, boost));
    }
    assert View(q) == View(q);
  }

  lemma SetPrioEffect(q: Rq, t: nat, prio: int)
    requires Ok(q) && t < |q.tasks| && 0 <= prio <= q.tasks[t].prio
    ensures Effect(q, SetPrio(q, t, prio), t)
  {
    var p := q.tasks[t];
    var n := p.(cls := ClassOf(prio, p.policy), prio := prio);
    assert TaskOk(p) && TaskOk(n);
    hide Settled, Rework, TaskOk, Effect;
    ReworkEffect(q, t, n);
  }

  lemma MoveGroupEffect(q: Rq, t: nat, background: bool)
    requires Ok(q) && t < |q.tasks|
    ensures Effect(q, MoveGroup(q, t, background), t)
  {
    var n := q.tasks[t].(background := background);
    assert TaskOk(n);
    hide Settled, Rework, TaskOk, Effect;
    ReworkEffect(q, t, n);
  }

  lemma WakeBothEffect(q: Rq, t: nat)
    requires Ok(q) && t < |q.tasks| && !q.tasks[t].onRq
    ensures Effect(q, Wake(q, t), t) && Effect(q, WakeNew(q, t), t)
  {
    var p := q.tasks[t];
    assert TaskOk(p) && q.unit >= 1;
    hide Settled, Enqueue, Effect;
    WeightedOk(p, q.unit);
    WakeEffect(q, t, p.(onRq := true));
    var n := p.(weight := UpdatedWeight(p));
    var r := if n.policy == WRR then n.(slice := n.weight * q.unit) else n;
    WakeEffect(q, t, r.(onRq := true, newborn := false));
  }

  lemma StepEffect(q: Rq, step: Dispatch.Step)
    requires Ok(q) && CanStep(q, step) && !step.DoTick? && !step.DoYield?
    requires step.DoSetPrio? ==> step.prio <= q.tasks[step.t].prio
    ensures Effect(q, Dispatch.Apply(q, step), Subject(step))
  {
    hide Ok, Fork, WakeNew, Wake, Sleep, SetScheduler, SetPrio, SetNice, MoveGroup, Effect;
    match step
    case DoFork(t) => ForkEffect(q, t); EffectNone(q, Fork(q, t), t);
    case DoWakeNew(t) => WakeBothEffect(q, t);
    case DoWake(t) => WakeBothEffect(q, t);
    case DoSleep(t) => SleepEffect(q, t);
    case DoSetScheduler(t, r, prio, boost, checks) => SetSchedulerEffect(q, t, r, prio, boost, checks);
    case DoSetPrio(t, prio) => SetPrioEffect(q, t, prio);
    case DoSetNice(t, nice) => SetNiceEffect(q, t, nice);
    case DoMoveGroup(t, b) => MoveGroupEffect(q, t, b);
    case DoStop(_) => SameList(q, Dispatch.Apply(q, step)); EffectNone(q, Dispatch.Apply(q, step), 0);
  }

  lemma EffectNone(q: Rq, r: Rq, t: nat)
    requires View(r) == View(q)
    ensures Effect(q, r, t)
  {
  }

  // ---------------------------------------------------------------- refinement

  function Seen(s: State): R.State { R.State(View(s.q), s.curr, s.resched) }

  /** The step as the WRR class sees it. */
  function Image(s: State, step: Step): R.Step
    requires Enabled(s, step)
  {
    match step
    case Schedule(preempted, throttled) => R.Schedule(preempted, throttled)
    case WantResched => R.WantResched
    case OnQueue(d) =>
      match d
      case DoTick(_, throttled) => R.TickStep(throttled)
      case DoYield(_) => R.Yield
      case _ =>
        var r, t := Dispatch.Apply(s.q, d), Subject(d);
        if View(r) == View(s.q) then R.Elsewhere
        else if t in r.wrr && t < |r.tasks| then R.Arrive(t, NatOf(r.tasks[t].weight))
        else R.Depart(t)
  }

  ghost predicate Good(s: State) { Ok(s.q) && R.Ok(Seen(s), s.q.unit) }

  /** An effect is one step of the WRR class. */
  lemma EffectImage(s: R.State, q: Rq, r: Rq, t: nat)
    requires s.q == View(q) && Effect(q, r, t) && (t in q.wrr && t in r.wrr && View(r) != View(q) ==> s.curr != R.Wrr(t))
    ensures var step := if View(r) == View(q) then R.Elsewhere
                        else if t in r.wrr && t < |r.tasks| then R.Arrive(t, NatOf(r.tasks[t].weight)) else R.Depart(t);
            R.Enabled(s, step) && R.Apply(s, step, q.unit).q == View(r)
  {
    QueuedIs(q, t);
    hide View, Q.Queued, Q.Remove, Q.Enqueue;
  }

  lemma OnQueueImage(s: State, d: Dispatch.Step)
    requires Good(s) && Enabled(s, OnQueue(d)) && !d.DoTick? && !d.DoYield?
    ensures var m := Image(s, OnQueue(d));
            R.Enabled(Seen(s), m) && R.Apply(Seen(s), m, s.q.unit).q == View(Dispatch.Apply(s.q, d))
  {
    StepEffect(s.q, d);
    RunsNot(s, d);
    hide Ok, Dispatch.Apply, View, Effect, R.Enabled, R.Apply;
    EffectImage(Seen(s), s.q, Dispatch.Apply(s.q, d), Subject(d));
  }

  lemma TickImage(s: State, t: nat, throttled: bool)
    requires Good(s) && Enabled(s, OnQueue(DoTick(t, throttled)))
    ensures R.Enabled(Seen(s), R.TickStep(throttled))
    ensures R.Apply(Seen(s), R.TickStep(throttled), s.q.unit).q == View(Tick(s.q, t, throttled))
  {
    hide Ok, R.Ok, View, Tick, Q.Tick, Q.IndexOf, Q.Queued;
    TickRefines(s.q, t, throttled);
  }

  lemma YieldImage(s: State, t: nat)
    requires Good(s) && Enabled(s, OnQueue(DoYield(t)))
    ensures R.Enabled(Seen(s), R.Yield)
    ensures R.Apply(Seen(s), R.Yield, s.q.unit).q == View(Yield(s.q, t))
  {
    hide Ok, R.Ok, View, Yield, Q.Requeue, Q.IndexOf, Q.Queued;
    YieldRefines(s.q, t);
  }

  lemma RunningImage(s: State, d: Dispatch.Step)
    requires Good(s) && Enabled(s, OnQueue(d)) && (d.DoTick? || d.DoYield?)
    ensures var m := Image(s, OnQueue(d));
            R.Enabled(Seen(s), m) && R.Apply(Seen(s), m, s.q.unit).q == View(Dispatch.Apply(s.q, d))
  {
    hide Good, View, Tick, Yield, R.Enabled, R.Apply, Seen;
    if d.DoTick? { TickImage(s, d.t, d.throttled); } else { YieldImage(s, d.t); }
  }

  lemma ImageEnabled(s: State, step: Step)
    requires Good(s) && Enabled(s, step)
    ensures R.Enabled(Seen(s), Image(s, step))
    ensures var r := R.Apply(Seen(s), Image(s, step), s.q.unit);
            if step.OnQueue? then r.q == View(Dispatch.Apply(s.q, step.step)) && Dispatch.Apply(s.q, step.step).unit == s.q.unit
            else r.q == View(s.q)
  {
    if step.OnQueue? {
      var d := step.step;
      UnitKept(s.q, d);
      hide Good, Enabled, Image, View, R.Enabled, R.Apply, Dispatch.Apply;
      if d.DoTick? || d.DoYield? { RunningImage(s, d); } else { OnQueueImage(s, d); }
    }
  }

  lemma QueuedIs(q: Rq, t: nat)
    ensures Q.Queued(View(q), t) <==> t in q.wrr
  {
    ViewQueued(q.tasks, q.wrr, t);
  }

  lemma ReworkUnit(q: Rq, t: nat, p: Task, head: bool)
    requires t < |q.tasks|
    ensures Rework(q, t, p, head).unit == q.unit && Enqueue(SetTask(q, t, p), t, head).unit == q.unit && Dequeue(q, t).unit == q.unit
  {
    hide Without, Weighted;
  }

  lemma UnitKept(q: Rq, d: Dispatch.Step)
    requires CanStep(q, d)
    ensures Dispatch.Apply(q, d).unit == q.unit
  {
    forall t: nat, p, head | t < |q.tasks|
      ensures Rework(q, t, p, head).unit == q.unit && Enqueue(SetTask(q, t, p), t, head).unit == q.unit && Dequeue(q, t).unit == q.unit
    {
      ReworkUnit(q, t, p, head);
    }
    hide Without, Scheduled, Validate, Forked, Reniced, Weighted, Rework, Enqueue, Dequeue;
  }

  /** A task that arrives is not the one that runs. */
  lemma RunsNot(s: State, d: Dispatch.Step)
    requires Good(s) && Enabled(s, OnQueue(d)) && !d.DoTick? && !d.DoYield?
    ensures Subject(d) in s.q.wrr && Subject(d) in Dispatch.Apply(s.q, d).wrr && View(Dispatch.Apply(s.q, d)) != View(s.q)
            ==> s.curr != R.Wrr(Subject(d))
  {
    match d
    case DoFork(t) => ForkEffect(s.q, t);
    case DoWakeNew(t) => NotInWrr(s.q, t);
    case DoWake(t) => NotInWrr(s.q, t);
    case DoSleep(t) => DequeueEffect(s.q, t);
    case DoStop(_) => SameList(s.q, Dispatch.Apply(s.q, d));
    case _ =>
  }

  function Apply(s: State, step: Step): State
    requires Good(s) && Enabled(s, step)
  {
    ImageEnabled(s, step);
    var r := R.Apply(Seen(s), Image(s, step), s.q.unit);
    State(if step.OnQueue? then Dispatch.Apply(s.q, step.step) else s.q, r.curr, r.resched)
  }

  /** Each step of the run queue is the step of the WRR class that `Image` names. */
  lemma StepRefines(s: State, step: Step)
    requires Good(s) && Enabled(s, step)
    ensures R.Enabled(Seen(s), Image(s, step)) && Seen(Apply(s, step)) == R.Apply(Seen(s), Image(s, step), s.q.unit)
    ensures Good(Apply(s, step)) && Apply(s, step).q.unit == s.q.unit
  {
    hide R.Ok, Ok, R.Apply, Dispatch.Apply, View, Image;
    ImageEnabled(s, step);
    if step.OnQueue? { Dispatch.StepKeeps(s.q, step.step); }
    UnitPositive(s.q);
    R.StepKeepsOk(Seen(s), Image(s, step), s.q.unit);
  }

  lemma UnitPositive(q: Rq)
    requires Ok(q)
    ensures q.unit >= 1
  {
  }

  // ---------------------------------------------------------------- runs

  /** `Good` makes the steps meaningful; by StepRefines no step can leave it. */
  ghost predicate IsRun(states: seq<State>, steps: seq<Step>) {
    && |states| == |steps| + 1 && Good(states[0])
    && forall i :: 0 <= i < |steps| ==>
         Good(states[i]) && Enabled(states[i], steps[i]) && states[i + 1] == Apply(states[i], steps[i])
  }

  ghost function SeenAll(states: seq<State>): seq<R.State> {
    seq(|states|, i requires 0 <= i < |states| => Seen(states[i]))
  }

  ghost function Images(states: seq<State>, steps: seq<Step>): (r: seq<R.Step>)
    requires IsRun(states, steps)
    ensures |r| == |steps| && forall i :: 0 <= i < |steps| ==> r[i] == Image(states[i], steps[i])
  {
    seq(|steps|, i requires 0 <= i < |steps| => Image(states[i], steps[i]))
  }

  lemma {:induction false} UnitsAgree(states: seq<State>, steps: seq<Step>, i: nat)
    requires IsRun(states, steps) && i < |states|
    ensures states[i].q.unit == states[0].q.unit
  {
    hide Good, Enabled, Apply;
    if i > 0 {
      UnitsAgree(states, steps, i - 1);
      StepRefines(states[i - 1], steps[i - 1]);
    }
  }

  /** Every run of the run queue is a run of the WRR class. */
  lemma RunRefines(states: seq<State>, steps: seq<Step>)
    requires IsRun(states, steps)
    ensures R.IsRun(SeenAll(states), Images(states, steps), states[0].q.unit)
  {
    var unit := states[0].q.unit;
    assert R.Ok(Seen(states[0]), unit);
    hide Good, Enabled, Apply, R.Apply, R.Enabled, R.Ok, Image, Seen;
    forall i | 0 <= i < |steps|
      ensures R.Enabled(SeenAll(states)[i], Images(states, steps)[i])
              && SeenAll(states)[i + 1] == R.Apply(SeenAll(states)[i], Images(states, steps)[i], unit)
    {
      UnitsAgree(states, steps, i);
      StepRefines(states[i], steps[i]);
    }
  }

  /** Exact shares on the run queue: while no task of the class comes, goes, yields or changes, k whole rounds of
      ticks give each queued task exactly k full slices and restore the list, whatever else happens. */
  lemma ExactShares(states: seq<State>, steps: seq<Step>, i: nat, n: nat, k: nat)
    requires IsRun(states, steps) && n <= |steps| && R.Quiet(Images(states, steps))
    requires i < |states[0].q.wrr| && Q.Full(View(states[0].q), states[0].q.unit)
    requires R.TickCount(Images(states, steps), n) == k * (Q.WeightSum(View(states[0].q)) * states[0].q.unit)
    ensures View(states[n].q) == View(states[0].q)
    ensures var t := states[0].q.wrr[i];
            R.Served(SeenAll(states), Images(states, steps), t, n) == k * (View(states[0].q)[i].weight * states[0].q.unit)
  {
    RunRefines(states, steps);
    UnitPositive(states[0].q);
    R.RunExactShares(SeenAll(states), Images(states, steps), states[0].q.unit, i, n, k);
  }

  /** The step leaves task `t` itself alone, but for ticks. */
  predicate LeavesAlone(step: Step, t: nat) {
    step.OnQueue? && !step.step.DoTick? && !step.step.DoFork? && !step.step.DoStop? ==> Subject(step.step) != t
  }

  /** Freedom from starvation on the run queue: a queued WRR task that is left alone reaches the head by the time
      the class has had the ticks owed to the tasks ahead of it. */
  lemma NoStarvation(states: seq<State>, steps: seq<Step>, t: nat)
    requires IsRun(states, steps) && t in states[0].q.wrr && Q.Queued(View(states[0].q), t)
    requires forall i :: 0 <= i < |steps| ==> LeavesAlone(steps[i], t)
    requires R.TickCount(Images(states, steps), |steps|) >= R.Ahead(View(states[0].q), t)
    ensures exists i :: 0 <= i < |states| && states[i].q.wrr != [] && states[i].q.wrr[0] == t
  {
    RunRefines(states, steps);
    UnitPositive(states[0].q);
    var ss, ii := SeenAll(states), Images(states, steps);
    forall i | 0 <= i < |steps|
      ensures R.Spares(ss[i], ii[i], t)
    {
      ImageSpares(states[i], steps[i], t);
    }
    SeenHead(states, t);
    hide IsRun, R.IsRun, View, R.Spares, R.Ahead, Q.Queued, SeenAll;
    R.NoStarvation(ss, ii, t, states[0].q.unit);
  }

  /** The head that the WRR class sees is the head of the queue. */
  lemma SeenHead(states: seq<State>, t: nat)
    ensures forall i :: 0 <= i < |SeenAll(states)| && Q.Queued(SeenAll(states)[i].q, t) && SeenAll(states)[i].q[0].id == t ==>
              states[i].q.wrr != [] && states[i].q.wrr[0] == t
    ensures |SeenAll(states)| == |states| && forall i :: 0 <= i < |states| ==> SeenAll(states)[i] == Seen(states[i])
  {
  }

  lemma ImageSpares(s: State, step: Step, t: nat)
    requires Good(s) && Enabled(s, step) && LeavesAlone(step, t)
    ensures R.Spares(Seen(s), Image(s, step), t)
  {
    if step.OnQueue? {
      match step.step
      case DoFork(u) => ForkEffect(s.q, u);
      case DoStop(_) => SameList(s.q, Dispatch.Apply(s.q, step.step));
      case _ =>
    }
  }
}
