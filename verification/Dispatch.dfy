/** Which scheduling class and queue a task belongs to (core.c, with the WRR class's counters from wrr.c).
    One run queue; the stop class is a flag, the real-time and fair queues are sets. */
module Dispatch {
  import opened Arith
  import opened Kernel
  import opened Lists
  import WrrQueue

  const NORMAL: int := 0
  const FIFO: int := 1
  const RR: int := 2
  const BATCH: int := 3
  const IDLE: int := 5
  const WRR: int := 6
  const MAX_PRIO: int := 140

  datatype Class = RtClass | WrrClass | FairClass

  /** `background` is the test on the task's group path; `newborn` holds from fork to the first wakeup. */
  datatype Task = Task(policy: int, prio: int, staticPrio: int, normalPrio: int, rtPriority: int, cls: Class,
                       onRq: bool, newborn: bool, resetOnFork: bool, background: bool,
                       weight: int, custom: bool, slice: int)

  datatype Rq = Rq(tasks: seq<Task>, rt: set<nat>, fair: set<nat>, wrr: seq<nat>,
                   wrrNr: int, totalWeight: int, fairNr: int, nrRunning: int, stop: bool, unit: nat)

  // ---------------------------------------------------------------- priorities

  predicate RtPolicy(policy: int) { policy == FIFO || policy == RR }

  predicate RtPrio(prio: int) { prio < MAX_RT_PRIO }

  function NiceToPrio(nice: int): int { MAX_RT_PRIO + nice + 20 }

  function PrioToNice(prio: int): int { prio - MAX_RT_PRIO - 20 }

  /** normal_prio */
  function NormalPrio(policy: int, rtPriority: int, staticPrio: int): int {
    if RtPolicy(policy) then MAX_RT_PRIO - 1 - rtPriority else staticPrio
  }

  function ClassOf(prio: int, policy: int): Class {
    if RtPrio(prio) then RtClass else if policy == WRR then WrrClass else FairClass
  }

  // ---------------------------------------------------------------- queues

  /** update_weight, also the weight wrr_set_weight gives */
  function UpdatedWeight(p: Task): int {
    WrrQueue.UpdatedWeight(p.weight, p.custom, p.background)
  }

  function Weighted(p: Task, unit: nat): Task {
    p.(weight := UpdatedWeight(p), slice := UpdatedWeight(p) * unit)
  }

  /** Link `t` into the WRR list and count it. */
  function Link(q: Rq, t: nat, head: bool): Rq
    requires t < |q.tasks|
  {
    var others := Without(q.wrr, t);
    q.(wrr := if head then [t] + others else others + [t], wrrNr := q.wrrNr + 1,
       totalWeight := q.totalWeight + q.tasks[t].weight, nrRunning := q.nrRunning + 1)
  }

  /** enqueue_task; for WRR the weight is brought up to date and the slice filled first */
  function Enqueue(q: Rq, t: nat, head: bool): Rq
    requires t < |q.tasks|
  {
    var p := q.tasks[t];
    match p.cls
    case RtClass => q.(rt := q.rt + {t}, nrRunning := q.nrRunning + 1)
    case FairClass => q.(fair := q.fair + {t}, fairNr := q.fairNr + 1, nrRunning := q.nrRunning + 1)
    case WrrClass => Link(SetTask(q, t, Weighted(p, q.unit)), t, head)
  }

  /** dequeue_task */
  function Dequeue(q: Rq, t: nat): Rq
    requires t < |q.tasks|
  {
    match q.tasks[t].cls
    case RtClass => q.(rt := q.rt - {t}, nrRunning := q.nrRunning - 1)
    case FairClass => q.(fair := q.fair - {t}, fairNr := q.fairNr - 1, nrRunning := q.nrRunning - 1)
    case WrrClass =>
      q.(wrr := Without(q.wrr, t), wrrNr := q.wrrNr - 1,
         totalWeight := q.totalWeight - q.tasks[t].weight, nrRunning := q.nrRunning - 1)
  }

  function SetTask(q: Rq, t: nat, p: Task): Rq
    requires t < |q.tasks|
  {
    q.(tasks := q.tasks[t := p])
  }

  /** The pattern of every change to a task's scheduling fields: take it off its queue,
      change it, put it back on the queue of its (possibly new) class. */
  function Rework(q: Rq, t: nat, p: Task, head: bool): Rq
    requires t < |q.tasks|
  {
    if q.tasks[t].onRq then Enqueue(SetTask(Dequeue(q, t), t, p), t, head) else SetTask(q, t, p)
  }

  // ---------------------------------------------------------------- operations

  /** sched_fork: the child starts as a copy of its parent. */
  function Forked(parent: Task): Task {
    var c := parent.(onRq := false, newborn := true, prio := parent.normalPrio);
    var d := if !c.resetOnFork then c
             else
               var e := if RtPolicy(c.policy) then c.(policy := NORMAL, staticPrio := NiceToPrio(0), rtPriority := 0)
                        else if PrioToNice(c.staticPrio) < 0 then c.(staticPrio := NiceToPrio(0)) else c;
               e.(prio := e.staticPrio, normalPrio := e.staticPrio, resetOnFork := false);
    if RtPrio(d.prio) then d else d.(cls := if d.policy == WRR then WrrClass else FairClass)
  }

  function Fork(q: Rq, t: nat): Rq
    requires t < |q.tasks|
  {
    q.(tasks := q.tasks + [Forked(q.tasks[t])])
  }

  /** wake_up_new_task, with wrr_set_weight */
  function WakeNew(q: Rq, t: nat): Rq
    requires t < |q.tasks|
  {
    var p := q.tasks[t].(weight := UpdatedWeight(q.tasks[t]));
    var r := if p.policy == WRR then p.(slice := p.weight * q.unit) else p;
    Enqueue(SetTask(q, t, r.(onRq := true, newborn := false)), t, false)
  }

  /** try_to_wake_up, its activation part */
  function Wake(q: Rq, t: nat): Rq
    requires t < |q.tasks|
  {
    Enqueue(SetTask(q, t, q.tasks[t].(onRq := true)), t, false)
  }

  /** The deactivation in __schedule. */
  function Sleep(q: Rq, t: nat): Rq
    requires t < |q.tasks|
  {
    var d := Dequeue(q, t);
    SetTask(d, t, d.tasks[t].(onRq := false))
  }

  /** __setscheduler; `boost` is the best priority among the task's PI waiters, MAX_PRIO if it has none. */
  function Scheduled(p: Task, policy: int, prio: int, boost: int): Task {
    var rtPriority := if policy == WRR then 0 else prio;
    var normalPrio := NormalPrio(policy, rtPriority, p.staticPrio);
    var q := p.(policy := policy, rtPriority := rtPriority, normalPrio := normalPrio, prio := Min(boost, normalPrio),
                cls := if RtPrio(Min(boost, normalPrio)) then RtClass else if policy == WRR then WrrClass else FairClass);
    if policy != WRR then q else if prio != 0 then q.(weight := prio, custom := true) else q.(weight := 1, custom := false)
  }

  /** The policy asked for: the present one (sched_setparam), or a number with the reset-on-fork bit. */
  datatype Request = SamePolicy | NewPolicy(policy: int, reset: bool)

  predicate KnownPolicy(policy: int) {
    policy == FIFO || policy == RR || policy == WRR || policy == NORMAL || policy == BATCH || policy == IDLE
  }

  function Policy(p: Task, r: Request): int {
    if r.SamePolicy? then p.policy else r.policy
  }

  /** The validation of policy and priority in __sched_setscheduler. */
  function Validate(p: Task, r: Request, prio: int): int {
    if r.NewPolicy? && !KnownPolicy(r.policy) then -EINVAL
    else if prio < 0 || prio > MAX_RT_PRIO - 1 then -EINVAL
    else if RtPolicy(Policy(p, r)) != (prio != 0) && !(Policy(p, r) == WRR && prio > 0) then -EINVAL
    else 0
  }

  /** What the checks that are not modelled answer: the caller lacks permission, or the task's group
      has no real-time runtime. The former come before the test for an unchanged request. */
  datatype Checks = Checks(denied: bool, noRuntime: bool)

  /** __sched_setscheduler */
  function SetScheduler(q: Rq, t: nat, r: Request, prio: int, boost: int, checks: Checks): (Rq, int)
    requires t < |q.tasks|
  {
    var p := q.tasks[t];
    var policy := Policy(p, r);
    if Validate(p, r, prio) != 0 then (q, Validate(p, r, prio))
    else if checks.denied then (q, -EPERM)
    else if policy == p.policy && (!RtPolicy(policy) || prio == p.rtPriority) then (q, 0)
    else if RtPolicy(policy) && checks.noRuntime then (q, -EPERM)
    else
      var reset := if r.SamePolicy? then p.resetOnFork else r.reset;
      (Rework(q, t, Scheduled(p.(resetOnFork := reset), policy, prio, boost), false), 0)
  }

  /** rt_mutex_setprio */
  function SetPrio(q: Rq, t: nat, prio: int): Rq
    requires t < |q.tasks|
  {
    var p := q.tasks[t];
    var cls := if RtPrio(prio) then RtClass else if p.policy == WRR then WrrClass else FairClass;
    Rework(q, t, p.(cls := cls, prio := prio), p.prio < prio)
  }

  /** The new static priority, and effective_prio */
  function Reniced(p: Task, nice: int): Task {
    var normalPrio := NormalPrio(p.policy, p.rtPriority, NiceToPrio(nice));
    p.(staticPrio := NiceToPrio(nice), normalPrio := normalPrio, prio := if RtPrio(p.prio) then p.prio else normalPrio)
  }

  /** set_user_nice */
  function SetNice(q: Rq, t: nat, nice: int): Rq
    requires t < |q.tasks|
  {
    var p := q.tasks[t];
    if PrioToNice(p.staticPrio) == nice || nice < -20 || nice > 19 then q
    else if RtPolicy(p.policy) then SetTask(q, t, p.(staticPrio := NiceToPrio(nice)))
    else
      Rework(q, t, Reniced(p, nice), false)
  }

  /** sched_move_task */
  function MoveGroup(q: Rq, t: nat, background: bool): Rq
    requires t < |q.tasks|
  {
    Rework(q, t, q.tasks[t].(background := background), false)
  }

  /** task_tick_wrr for the running task `t`. */
  function Tick(q: Rq, t: nat, throttled: bool): Rq
    requires t < |q.tasks|
  {
    var p := q.tasks[t];
    var slice := if p.slice <= 0 then 1 else p.slice;
    if slice - 1 != 0 then SetTask(q, t, p.(slice := slice - 1))
    else
      var r := SetTask(q, t, p.(slice := p.weight * q.unit));
      if |q.wrr| > 1 || throttled then r.(wrr := Without(q.wrr, t) + [t]) else r
  }

  /** yield_task_wrr */
  function Yield(q: Rq, t: nat): Rq { q.(wrr := Without(q.wrr, t) + [t]) }

  // ---------------------------------------------------------------- invariant

  ghost predicate TaskOk(p: Task) {
    && p.cls == ClassOf(p.prio, p.policy)
    && p.normalPrio == NormalPrio(p.policy, p.rtPriority, p.staticPrio) && 0 <= p.prio <= p.normalPrio
    && MAX_RT_PRIO <= p.staticPrio < MAX_PRIO && KnownPolicy(p.policy)
    && (RtPolicy(p.policy) ==> 1 <= p.rtPriority < MAX_RT_PRIO)
    && (p.custom ==> 1 <= p.weight < 100)
  }

  /** `s` holds the tasks of class `c` that are on_rq, save the task `out` being worked on. */
  ghost predicate Holds(tasks: seq<Task>, s: set<nat>, c: Class, out: int) {
    forall t: nat :: t in s <==> t < |tasks| && tasks[t].onRq && t != out && tasks[t].cls == c
  }

  function Elems(l: seq<nat>): set<nat> { set x | x in l }

  ghost predicate Members(q: Rq, out: int) {
    && Holds(q.tasks, q.rt, RtClass, out)
    && Holds(q.tasks, q.fair, FairClass, out)
    && Holds(q.tasks, Elems(q.wrr), WrrClass, out)
  }

  ghost function WeightAt(tasks: seq<Task>, t: nat): int { if t < |tasks| then tasks[t].weight else 0 }

  ghost function QueuedWeight(tasks: seq<Task>, l: seq<nat>): int {
    if l == [] then 0 else WeightAt(tasks, l[0]) + QueuedWeight(tasks, l[1..])
  }

  ghost predicate Counters(q: Rq) {
    && Distinct(q.wrr)
    && q.wrrNr == |q.wrr| && q.totalWeight == QueuedWeight(q.tasks, q.wrr)
    && q.fairNr == |q.fair|
    && q.nrRunning == |q.rt| + |q.wrr| + |q.fair| + (if q.stop then 1 else 0)
  }

  ghost predicate SliceOk(p: Task, unit: nat) {
    1 <= p.weight < 100 && 1 <= p.slice <= p.weight * unit
  }

  ghost predicate SlicesOk(tasks: seq<Task>, l: seq<nat>, unit: nat) {
    forall t :: t in l && t < |tasks| ==> SliceOk(tasks[t], unit)
  }

  ghost predicate TasksOk(tasks: seq<Task>) {
    forall t :: 0 <= t < |tasks| ==> TaskOk(tasks[t])
  }

  ghost predicate Settled(q: Rq, out: int) {
    q.unit >= 1 && TasksOk(q.tasks) && Members(q, out) && Counters(q) && SlicesOk(q.tasks, q.wrr, q.unit)
  }

  ghost predicate Ok(q: Rq) { Settled(q, -1) }

  // ---------------------------------------------------------------- lists and sums

  /** A task's weight leaves the sum with it. */
  lemma {:induction false} SumWithout(tasks: seq<Task>, l: seq<nat>, t: nat)
    requires Distinct(l) && t in l
    ensures QueuedWeight(tasks, Without(l, t)) == QueuedWeight(tasks, l) - WeightAt(tasks, t)
  {
    DistinctTail(l);
    hide Distinct, WeightAt;
    if l[0] != t {
      SumWithout(tasks, l[1..], t);
      assert Without(l, t)[1..] == Without(l[1..], t);
    }
  }

  lemma {:induction false} SumConcat(tasks: seq<Task>, a: seq<nat>, b: seq<nat>)
    ensures QueuedWeight(tasks, a + b) == QueuedWeight(tasks, a) + QueuedWeight(tasks, b)
  {
    if a == [] {
      assert a + b == b;
    } else {
      assert (a + b)[1..] == a[1..] + b;
      SumConcat(tasks, a[1..], b);
    }
  }

  lemma {:induction false} SumFrame(tasks: seq<Task>, other: seq<Task>, l: seq<nat>)
    requires forall x :: x in l ==> WeightAt(tasks, x) == WeightAt(other, x)
    ensures QueuedWeight(tasks, l) == QueuedWeight(other, l)
  {
    if l != [] { SumFrame(tasks, other, l[1..]); }
  }

  /** Adding `t` at either end. */
  lemma PushOk(tasks: seq<Task>, l: seq<nat>, t: nat, head: bool)
    requires Distinct(l) && t !in l
    ensures var r := if head then [t] + l else l + [t];
            Distinct(r) && |r| == |l| + 1 && Elems(r) == Elems(l) + {t}
            && QueuedWeight(tasks, r) == QueuedWeight(tasks, l) + WeightAt(tasks, t)
  {
    assert forall k :: 0 <= k < |l| ==> l[k] in l;
    if head { SumConcat(tasks, [t], l); } else { SumConcat(tasks, l, [t]); }
    assert QueuedWeight(tasks, [t]) == WeightAt(tasks, t);
  }

  lemma MoveTailOk(tasks: seq<Task>, l: seq<nat>, t: nat)
    requires Distinct(l) && t in l
    ensures var r := Without(l, t) + [t];
            Distinct(r) && |r| == |l| && Elems(r) == Elems(l) && QueuedWeight(tasks, r) == QueuedWeight(tasks, l)
  {
    WithoutDistinct(l, t);
    SumWithout(tasks, l, t);
    PushOk(tasks, Without(l, t), t, false);
  }

  // ---------------------------------------------------------------- taking off, changing, putting back

  lemma Removed(tasks: seq<Task>, s: set<nat>, c: Class, t: nat)
    requires Holds(tasks, s, c, -1) && t < |tasks| && tasks[t].onRq
    ensures Holds(tasks, if tasks[t].cls == c then s - {t} else s, c, t)
    ensures t in s <==> tasks[t].cls == c
  {
  }

  lemma Added(tasks: seq<Task>, s: set<nat>, c: Class, t: nat)
    requires Holds(tasks, s, c, t) && t < |tasks| && tasks[t].onRq
    ensures Holds(tasks, if tasks[t].cls == c then s + {t} else s, c, -1)
    ensures t !in s
  {
  }

  lemma Unlinked(tasks: seq<Task>, l: seq<nat>, t: nat, unit: nat)
    requires Distinct(l) && t in l && SlicesOk(tasks, l, unit)
    ensures var r := Without(l, t);
            Distinct(r) && |r| == |l| - 1 && Elems(r) == Elems(l) - {t} && SlicesOk(tasks, r, unit)
            && QueuedWeight(tasks, r) == QueuedWeight(tasks, l) - WeightAt(tasks, t)
  {
    assert Elems(Without(l, t)) == Elems(l) - {t};
    hide SliceOk, Elems;
    WithoutDistinct(l, t);
    SumWithout(tasks, l, t);
  }

  lemma InElems(l: seq<nat>, t: nat)
    ensures t in l <==> t in Elems(l)
  {
  }

  lemma DequeueOk(q: Rq, t: nat)
    requires Settled(q, -1) && t < |q.tasks| && q.tasks[t].onRq
    ensures Settled(Dequeue(q, t), t) && Dequeue(q, t).tasks == q.tasks
  {
    hide TaskOk, SlicesOk, Holds, Distinct, Elems, Without, QueuedWeight;
    Removed(q.tasks, q.rt, RtClass, t);
    Removed(q.tasks, q.fair, FairClass, t);
    Removed(q.tasks, Elems(q.wrr), WrrClass, t);
    InElems(q.wrr, t);
    if q.tasks[t].cls == WrrClass { Unlinked(q.tasks, q.wrr, t, q.unit); }
  }

  lemma SetTaskOk(q: Rq, t: nat, p: Task)
    requires Settled(q, t) && t < |q.tasks| && TaskOk(p)
    ensures Settled(SetTask(q, t, p), t)
  {
    hide TaskOk, SliceOk;
    assert t !in Elems(q.wrr);
    SumFrame(q.tasks, SetTask(q, t, p).tasks, q.wrr);
  }

  lemma WeightedOk(p: Task, unit: nat)
    requires TaskOk(p) && unit >= 1
    ensures TaskOk(Weighted(p, unit)) && SliceOk(Weighted(p, unit), unit)
  {
    var w := UpdatedWeight(p);
    assert w * unit >= unit by { assert (w - 1) * unit >= 0; }
  }

  lemma SlicesGrow(tasks: seq<Task>, l: seq<nat>, r: seq<nat>, unit: nat, t: nat)
    requires SlicesOk(tasks, l, unit) && t < |tasks| && SliceOk(tasks[t], unit) && Elems(r) == Elems(l) + {t}
    ensures SlicesOk(tasks, r, unit)
  {
    assert forall x :: x in r ==> x in Elems(r);
  }

  lemma LinkMembers(q: Rq, t: nat, wrr: seq<nat>)
    requires Members(q, t) && t < |q.tasks| && q.tasks[t].onRq && q.tasks[t].cls == WrrClass
    requires Elems(wrr) == Elems(q.wrr) + {t}
    ensures Holds(q.tasks, q.rt, RtClass, -1) && Holds(q.tasks, q.fair, FairClass, -1) && Holds(q.tasks, Elems(wrr), WrrClass, -1)
  {
    hide Holds, Elems;
    Added(q.tasks, q.rt, RtClass, t);
    Added(q.tasks, q.fair, FairClass, t);
    Added(q.tasks, Elems(q.wrr), WrrClass, t);
  }

  lemma LinkOk(q: Rq, t: nat, head: bool)
    requires Settled(q, t) && t < |q.tasks| && q.tasks[t].onRq && q.tasks[t].cls == WrrClass && SliceOk(q.tasks[t], q.unit)
    ensures Settled(Link(q, t, head), -1)
  {
    hide TaskOk, SliceOk, Distinct, SlicesOk, TasksOk, Holds, Elems, QueuedWeight, Without;
    NotLinked(q, t);
    var wrr := if head then [t] + q.wrr else q.wrr + [t];
    PushOk(q.tasks, q.wrr, t, head);
    LinkMembers(q, t, wrr);
    SlicesGrow(q.tasks, q.wrr, wrr, q.unit, t);
    assert Link(q, t, head).wrr == wrr;
  }

  lemma NotLinked(q: Rq, t: nat)
    requires Members(q, t)
    ensures t !in q.wrr
  {
    assert t !in Elems(q.wrr);
  }

  lemma EnqueueWrrOk(q: Rq, t: nat, head: bool)
    requires Settled(q, t) && t < |q.tasks| && q.tasks[t].onRq && q.tasks[t].cls == WrrClass
    ensures Settled(Enqueue(q, t, head), -1)
  {
    var p := Weighted(q.tasks[t], q.unit);
    TaskAt(q, t);
    WeightedOk(q.tasks[t], q.unit);
    SetTaskOk(q, t, p);
    hide TaskOk, SliceOk, Link, Settled;
    LinkOk(SetTask(q, t, p), t, head);
  }

  lemma TaskAt(q: Rq, t: nat)
    requires Settled(q, -1) || Settled(q, t)
    ensures q.unit >= 1 && (t < |q.tasks| ==> TaskOk(q.tasks[t]))
  {
    hide TaskOk;
  }

  lemma EnqueueOk(q: Rq, t: nat, head: bool)
    requires Settled(q, t) && t < |q.tasks| && q.tasks[t].onRq
    ensures Settled(Enqueue(q, t, head), -1)
  {
    hide TaskOk, SliceOk, Link, Elems, Distinct, Holds, SlicesOk;
    if q.tasks[t].cls == WrrClass {
      EnqueueWrrOk(q, t, head);
    } else {
      Added(q.tasks, q.rt, RtClass, t);
      Added(q.tasks, q.fair, FairClass, t);
      Added(q.tasks, Elems(q.wrr), WrrClass, t);
    }
  }

  /** A task that is off its queue may be left out of account or not. */
  lemma OffQueue(q: Rq, t: nat)
    requires t < |q.tasks| && !q.tasks[t].onRq
    ensures Settled(q, -1) <==> Settled(q, t)
  {
  }

  lemma ReworkOk(q: Rq, t: nat, p: Task, head: bool)
    requires Ok(q) && t < |q.tasks| && TaskOk(p) && p.onRq == q.tasks[t].onRq
    ensures Ok(Rework(q, t, p, head))
  {
    hide Settled, TaskOk;
    if p.onRq {
      DequeueOk(q, t);
      var d := Dequeue(q, t);
      SetTaskOk(d, t, p);
      EnqueueOk(SetTask(d, t, p), t, head);
    } else {
      OffQueue(q, t);
      SetTaskOk(q, t, p);
      OffQueue(SetTask(q, t, p), t);
    }
  }

  /** What a change to one task leaves alone: every other task, and the order of the others. */
  ghost predicate OthersSame(q: Rq, r: Rq, t: nat) {
    && |r.tasks| == |q.tasks| && (forall u :: 0 <= u < |q.tasks| && u != t ==> r.tasks[u] == q.tasks[u])
    && Without(r.wrr, t) == Without(q.wrr, t) && r.rt - {t} == q.rt - {t} && r.fair - {t} == q.fair - {t}
    && r.stop == q.stop && r.unit == q.unit
  }

  lemma DequeueFrame(q: Rq, t: nat)
    requires t < |q.tasks|
    ensures OthersSame(q, Dequeue(q, t), t)
  {
  }

  lemma EnqueueFrame(q: Rq, t: nat, head: bool)
    requires t < |q.tasks|
    ensures OthersSame(q, Enqueue(q, t, head), t)
  {
    WithoutEnds(Without(q.wrr, t), t);
  }

  lemma ReworkFrame(q: Rq, t: nat, p: Task, head: bool)
    requires t < |q.tasks|
    ensures OthersSame(q, Rework(q, t, p, head), t)
  {
    hide Enqueue, Dequeue;
    if q.tasks[t].onRq {
      DequeueFrame(q, t);
      EnqueueFrame(SetTask(Dequeue(q, t), t, p), t, head);
    }
  }

  /** Where task `t` is after an operation: on the queue of its class, for WRR at the given end with its
      weight and a full slice; nowhere else; and if it is not runnable no queue has changed. */
  ghost predicate PutWhere(q: Rq, r: Rq, t: nat, head: bool)
    requires t < |r.tasks|
  {
    var n, others := r.tasks[t], Without(q.wrr, t);
    if n.onRq then
      && r.rt == (if n.cls == RtClass then q.rt + {t} else q.rt - {t})
      && r.fair == (if n.cls == FairClass then q.fair + {t} else q.fair - {t})
      && r.wrr == (if n.cls != WrrClass then others else if head then [t] + others else others + [t])
      && (n.cls == WrrClass ==> n.slice == n.weight * q.unit && (!n.custom ==> n.weight == if n.background then 1 else 10))
    else
      r.rt == q.rt && r.fair == q.fair && r.wrr == q.wrr
  }

  lemma EnqueuePuts(q: Rq, t: nat, head: bool)
    requires t < |q.tasks| && q.tasks[t].onRq && t !in q.rt && t !in q.fair && t !in q.wrr
    ensures var r := Enqueue(q, t, head); |r.tasks| == |q.tasks| && PutWhere(q, r, t, head)
  {
    assert q.rt - {t} == q.rt && q.fair - {t} == q.fair;
  }

  lemma OffAllQueues(q: Rq, t: nat)
    requires Settled(q, t) || (Settled(q, -1) && t < |q.tasks| && !q.tasks[t].onRq)
    ensures t !in q.rt && t !in q.fair && t !in q.wrr
  {
    InElems(q.wrr, t);
  }

  lemma DequeueLists(q: Rq, t: nat)
    requires Ok(q) && t < |q.tasks| && q.tasks[t].onRq
    ensures var d := Dequeue(q, t);
            d.rt == q.rt - {t} && d.fair == q.fair - {t} && d.wrr == Without(q.wrr, t) && d.unit == q.unit
  {
    InElems(q.wrr, t);
    assert q.tasks[t].cls != RtClass ==> q.rt - {t} == q.rt;
    assert q.tasks[t].cls != FairClass ==> q.fair - {t} == q.fair;
  }

  lemma PutAfter(q: Rq, d: Rq, r: Rq, t: nat, head: bool)
    requires t < |r.tasks| && r.tasks[t].onRq && PutWhere(d, r, t, head) && d.unit == q.unit
    requires d.rt == q.rt - {t} && d.fair == q.fair - {t} && d.wrr == Without(q.wrr, t)
    ensures PutWhere(q, r, t, head)
  {
    assert q.rt - {t} + {t} == q.rt + {t} && q.fair - {t} + {t} == q.fair + {t};
    assert q.rt - {t} - {t} == q.rt - {t} && q.fair - {t} - {t} == q.fair - {t};
    assert Without(Without(q.wrr, t), t) == Without(q.wrr, t);
  }

  lemma ReworkPuts(q: Rq, t: nat, p: Task, head: bool)
    requires Ok(q) && t < |q.tasks| && TaskOk(p) && p.onRq == q.tasks[t].onRq
    ensures var r := Rework(q, t, p, head); |r.tasks| == |q.tasks| && PutWhere(q, r, t, head)
  {
    hide Settled, TaskOk, Enqueue, Dequeue, PutWhere;
    if p.onRq {
      DequeueOk(q, t);
      DequeueLists(q, t);
      var d := SetTask(Dequeue(q, t), t, p);
      SetTaskOk(Dequeue(q, t), t, p);
      OffAllQueues(d, t);
      EnqueuePuts(d, t, head);
      ReworkTask(q, t, p, head);
      PutAfter(q, d, Rework(q, t, p, head), t, head);
    } else {
      NotRunnable(q, SetTask(q, t, p), t, head);
    }
  }

  lemma NotRunnable(q: Rq, r: Rq, t: nat, head: bool)
    requires t < |r.tasks| && !r.tasks[t].onRq && r.rt == q.rt && r.fair == q.fair && r.wrr == q.wrr
    ensures PutWhere(q, r, t, head)
  {
  }

  // ---------------------------------------------------------------- each operation keeps the invariant

  lemma ForkKeeps(q: Rq, t: nat)
    requires Ok(q) && t < |q.tasks|
    ensures Ok(Fork(q, t)) && Fork(q, t).(tasks := q.tasks) == q
    ensures |Fork(q, t).tasks| == |q.tasks| + 1 && Fork(q, t).tasks[..|q.tasks|] == q.tasks && ForkOf(q.tasks[t], Fork(q, t).tasks[|q.tasks|])
  {
    var r := Fork(q, t);
    ForkedOk(q.tasks[t]);
    hide TaskOk, SliceOk, Forked, ForkOf;
    assert forall x :: x in q.wrr ==> x in Elems(q.wrr);
    SumFrame(q.tasks, r.tasks, q.wrr);
  }

  /** A child gets the class its own priority and policy call for, whatever its parent was boosted to. */
  ghost predicate ForkOf(p: Task, c: Task) {
    && !c.onRq && c.newborn && !c.resetOnFork && c.prio == c.normalPrio
    && c.weight == p.weight && c.custom == p.custom && c.slice == p.slice && c.background == p.background
    && (!p.resetOnFork ==>
          c.policy == p.policy && c.rtPriority == p.rtPriority && c.staticPrio == p.staticPrio && c.normalPrio == p.normalPrio)
    && (p.resetOnFork ==>
          && c.policy == (if p.policy in {FIFO, RR} then NORMAL else p.policy)
          && c.rtPriority == (if p.policy in {FIFO, RR} then 0 else p.rtPriority)
          && c.staticPrio == (if p.policy in {FIFO, RR} || p.staticPrio < 120 then 120 else p.staticPrio)
          && c.normalPrio == c.staticPrio)
    && c.cls == (if c.prio < 100 then RtClass else if c.policy == WRR then WrrClass else FairClass)
  }

  lemma ForkedOk(p: Task)
    requires TaskOk(p)
    ensures TaskOk(Forked(p)) && ForkOf(p, Forked(p))
  {
  }

  /** The task is runnable and on its queue, for WRR at the tail; its policy, priorities, class and group are its old ones. */
  ghost predicate Woken(q: Rq, r: Rq, t: nat)
    requires t < |q.tasks|
  {
    && |r.tasks| == |q.tasks| && PutWhere(q, r, t, false) && r.tasks[t].onRq
    && r.tasks[t].(onRq := false, newborn := q.tasks[t].newborn, weight := q.tasks[t].weight, slice := q.tasks[t].slice) == q.tasks[t]
  }

  lemma WakeTaskKeeps(q: Rq, t: nat, p: Task)
    requires Ok(q) && t < |q.tasks| && !q.tasks[t].onRq && TaskOk(p) && p.onRq
    ensures var r := Enqueue(SetTask(q, t, p), t, false);
            && Ok(r) && |r.tasks| == |q.tasks| && PutWhere(q, r, t, false)
            && r.tasks[t] == (if p.cls == WrrClass then Weighted(p, q.unit) else p)
  {
    hide TaskOk, Settled;
    OffQueue(q, t);
    SetTaskOk(q, t, p);
    EnqueueOk(SetTask(q, t, p), t, false);
    OffAllQueues(SetTask(q, t, p), t);
    EnqueuePuts(SetTask(q, t, p), t, false);
  }

  lemma WakeNewKeeps(q: Rq, t: nat)
    requires Ok(q) && t < |q.tasks| && !q.tasks[t].onRq
    ensures Ok(WakeNew(q, t)) && Woken(q, WakeNew(q, t), t) && !WakeNew(q, t).tasks[t].newborn
    ensures WakeNew(q, t).tasks[t].weight == if q.tasks[t].custom then q.tasks[t].weight else if q.tasks[t].background then 1 else 10
  {
    hide Enqueue, Members, Counters, SlicesOk;
    var p := q.tasks[t].(weight := UpdatedWeight(q.tasks[t]));
    var r := (if p.policy == WRR then p.(slice := p.weight * q.unit) else p).(onRq := true, newborn := false);
    WeightedOk(q.tasks[t], q.unit);
    WakeTaskKeeps(q, t, r);
  }

  lemma WakeKeeps(q: Rq, t: nat)
    requires Ok(q) && t < |q.tasks| && !q.tasks[t].onRq
    ensures Ok(Wake(q, t)) && Woken(q, Wake(q, t), t) && Wake(q, t).tasks[t].newborn == q.tasks[t].newborn
  {
    hide Enqueue, Members, Counters, SlicesOk;
    WakeTaskKeeps(q, t, q.tasks[t].(onRq := true));
  }

  lemma SleepKeeps(q: Rq, t: nat)
    requires Ok(q) && t < |q.tasks| && q.tasks[t].onRq
    ensures Ok(Sleep(q, t)) && Sleep(q, t).tasks == q.tasks[t := q.tasks[t].(onRq := false)]
    ensures Sleep(q, t).rt == q.rt - {t} && Sleep(q, t).fair == q.fair - {t} && Sleep(q, t).wrr == Without(q.wrr, t)
  {
    hide Members, Counters, SlicesOk;
    var r := q.tasks[t].(onRq := false);
    assert TaskOk(r);
    DequeueLists(q, t);
    hide TaskOk, Settled;
    DequeueOk(q, t);
    var d := Dequeue(q, t);
    SetTaskOk(d, t, r);
    OffQueue(SetTask(d, t, r), t);
  }

  lemma ScheduledOk(p: Task, r: Request, prio: int, boost: int)
    requires TaskOk(p) && Validate(p, r, prio) == 0 && 0 <= boost <= MAX_PRIO
    ensures TaskOk(Scheduled(p, Policy(p, r), prio, boost)) && Scheduled(p, Policy(p, r), prio, boost).onRq == p.onRq
  {
    assert !RtPolicy(WRR);
    hide KnownPolicy, RtPolicy;
  }

  lemma SetSchedulerKeeps(q: Rq, t: nat, r: Request, prio: int, boost: int, checks: Checks)
    requires Ok(q) && t < |q.tasks| && 0 <= boost <= MAX_PRIO
    ensures Ok(SetScheduler(q, t, r, prio, boost, checks).0)
    ensures SetScheduler(q, t, r, prio, boost, checks).1 != 0 ==> SetScheduler(q, t, r, prio, boost, checks).0 == q
  {
    hide Members, Counters, SlicesOk;
    var p := q.tasks[t];
    if Validate(p, r, prio) == 0 {
      var reset := if r.SamePolicy? then p.resetOnFork else r.reset;
      assert TaskOk(p.(resetOnFork := reset)) && Validate(p.(resetOnFork := reset), r, prio) == 0;
      hide TaskOk, Settled, Scheduled, Rework;
      ScheduledOk(p.(resetOnFork := reset), r, prio, boost);
      ReworkOk(q, t, Scheduled(p.(resetOnFork := reset), Policy(p, r), prio, boost), false);
    }
  }

  /** The task has the priority lent or taken back, and is on the queue that it calls for, in the WRR queue
      at the head iff the priority got worse; nothing else about it changes. */
  ghost predicate Lent(q: Rq, r: Rq, t: nat, prio: int)
    requires t < |q.tasks|
  {
    && |r.tasks| == |q.tasks| && PutWhere(q, r, t, q.tasks[t].prio < prio)
    && var p, n := q.tasks[t], r.tasks[t];
       && n.prio == prio && n.cls == (if prio < 100 then RtClass else if p.policy == WRR then WrrClass else FairClass)
       && n.(prio := p.prio, cls := p.cls, weight := p.weight, slice := p.slice) == p
       && (n.cls != WrrClass || !p.onRq || p.custom ==> n.weight == p.weight)
  }

  lemma SetPrioKeeps(q: Rq, t: nat, prio: int)
    requires Ok(q) && t < |q.tasks| && 0 <= prio <= q.tasks[t].normalPrio
    ensures Ok(SetPrio(q, t, prio)) && Lent(q, SetPrio(q, t, prio), t, prio)
  {
    hide Members, Counters, SlicesOk;
    var p := q.tasks[t];
    var r := p.(cls := ClassOf(prio, p.policy), prio := prio);
    assert TaskOk(r);
    hide TaskOk, Settled, Rework, PutWhere;
    ReworkOk(q, t, r, p.prio < prio);
    ReworkPuts(q, t, r, p.prio < prio);
    ReworkTask(q, t, r, p.prio < prio);
  }

  lemma RenicedOk(p: Task, nice: int)
    requires TaskOk(p) && -20 <= nice <= 19
    ensures !RtPolicy(p.policy) ==> TaskOk(Reniced(p, nice))
    ensures RtPolicy(p.policy) ==> TaskOk(p.(staticPrio := NiceToPrio(nice)))
  {
  }

  /** A change that touches neither the queue nor the fields the queues rest on. */
  lemma QuietSetOk(q: Rq, t: nat, p: Task)
    requires Ok(q) && t < |q.tasks| && TaskOk(p)
    requires p.onRq == q.tasks[t].onRq && p.cls == q.tasks[t].cls && p.weight == q.tasks[t].weight
    requires t in q.wrr ==> SliceOk(p, q.unit)
    ensures Ok(SetTask(q, t, p))
  {
    hide TaskOk, SliceOk;
    SumFrame(q.tasks, q.tasks[t := p], q.wrr);
  }

  lemma SetNiceKeeps(q: Rq, t: nat, nice: int)
    requires Ok(q) && t < |q.tasks|
    ensures Ok(SetNice(q, t, nice))
  {
    hide Members, Counters, TaskOk, Rework;
    var p := q.tasks[t];
    if -20 <= nice <= 19 {
      RenicedOk(p, nice);
      if RtPolicy(p.policy) {
        assert t in q.wrr ==> SliceOk(p, q.unit);
        QuietSetOk(q, t, p.(staticPrio := NiceToPrio(nice)));
      } else {
        ReworkOk(q, t, Reniced(p, nice), false);
      }
    }
  }

  lemma MoveGroupKeeps(q: Rq, t: nat, background: bool)
    requires Ok(q) && t < |q.tasks|
    ensures Ok(MoveGroup(q, t, background))
  {
    hide Members, Counters, SlicesOk;
    var r := q.tasks[t].(background := background);
    assert TaskOk(r);
    hide TaskOk, Settled, Rework;
    ReworkOk(q, t, r, false);
  }

  lemma MoveTailKeeps(q: Rq, t: nat)
    requires Ok(q) && t < |q.tasks| && q.tasks[t].onRq && q.tasks[t].cls == WrrClass
    ensures Ok(q.(wrr := Without(q.wrr, t) + [t]))
  {
    hide TaskOk, SliceOk, Distinct;
    var r := q.(wrr := Without(q.wrr, t) + [t]);
    assert t in Elems(q.wrr);
    MoveTailOk(q.tasks, q.wrr, t);
    assert forall x :: x in r.wrr ==> x in Elems(q.wrr);
  }

  lemma TickKeeps(q: Rq, t: nat, throttled: bool)
    requires Ok(q) && t < |q.tasks| && q.tasks[t].onRq && q.tasks[t].cls == WrrClass
    ensures Ok(Tick(q, t, throttled))
    ensures Tick(q, t, throttled).tasks[t].slice == if q.tasks[t].slice > 1 then q.tasks[t].slice - 1 else q.tasks[t].weight * q.unit
  {
    hide Counters;
    var p := q.tasks[t];
    assert t in Elems(q.wrr);
    assert SliceOk(p, q.unit);
    var r := p.(slice := if p.slice > 1 then p.slice - 1 else p.weight * q.unit);
    assert TaskOk(r);
    hide Members, SlicesOk, TaskOk, TasksOk;
    QuietSetOk(q, t, r);
    MoveTailKeeps(SetTask(q, t, r), t);
  }

  lemma YieldKeeps(q: Rq, t: nat)
    requires Ok(q) && t < |q.tasks| && q.tasks[t].onRq && q.tasks[t].cls == WrrClass
    ensures Ok(Yield(q, t))
  {
    hide Settled;
    MoveTailKeeps(q, t);
  }

  // ---------------------------------------------------------------- runs

  datatype Step =
    | DoFork(t: nat)
    | DoWakeNew(t: nat)
    | DoWake(t: nat)
    | DoSleep(t: nat)
    | DoSetScheduler(t: nat, r: Request, prio: int, boost: int, checks: Checks)
    | DoSetPrio(t: nat, prio: int)
    | DoSetNice(t: nat, nice: int)
    | DoMoveGroup(t: nat, background: bool)
    | DoTick(t: nat, throttled: bool)
    | DoYield(t: nat)
    | DoStop(running: bool)               // the stop task comes or goes

  /** A PI boost only ever raises a priority above the task's own; ticks and yields concern a queued WRR task. */
  predicate CanStep(q: Rq, step: Step) {
    match step
    case DoFork(t) => t < |q.tasks|
    case DoWakeNew(t) => t < |q.tasks| && !q.tasks[t].onRq && q.tasks[t].newborn
    case DoWake(t) => t < |q.tasks| && !q.tasks[t].onRq && !q.tasks[t].newborn
    case DoSleep(t) => t < |q.tasks| && q.tasks[t].onRq
    case DoSetScheduler(t, _, _, boost, _) => t < |q.tasks| && 0 <= boost <= MAX_PRIO
    case DoSetPrio(t, prio) => t < |q.tasks| && 0 <= prio <= q.tasks[t].normalPrio
    case DoSetNice(t, _) => t < |q.tasks|
    case DoMoveGroup(t, _) => t < |q.tasks|
    case DoTick(t, _) => t < |q.tasks| && q.tasks[t].onRq && q.tasks[t].cls == WrrClass
    case DoYield(t) => t < |q.tasks| && q.tasks[t].onRq && q.tasks[t].cls == WrrClass
    case DoStop(running) => running != q.stop
  }

  function Apply(q: Rq, step: Step): Rq
    requires CanStep(q, step)
  {
    match step
    case DoFork(t) => Fork(q, t)
    case DoWakeNew(t) => WakeNew(q, t)
    case DoWake(t) => Wake(q, t)
    case DoSleep(t) => Sleep(q, t)
    case DoSetScheduler(t, r, prio, boost, checks) => SetScheduler(q, t, r, prio, boost, checks).0
    case DoSetPrio(t, prio) => SetPrio(q, t, prio)
    case DoSetNice(t, nice) => SetNice(q, t, nice)
    case DoMoveGroup(t, b) => MoveGroup(q, t, b)
    case DoTick(t, throttled) => Tick(q, t, throttled)
    case DoYield(t) => Yield(q, t)
    case DoStop(running) => q.(stop := running, nrRunning := q.nrRunning + (if running then 1 else -1))
  }

  lemma StopKeeps(q: Rq, running: bool)
    requires Ok(q) && running != q.stop
    ensures Ok(Apply(q, DoStop(running)))
  {
    hide TaskOk, SliceOk, Holds;
  }

  lemma StepKeeps(q: Rq, step: Step)
    requires Ok(q) && CanStep(q, step)
    ensures Ok(Apply(q, step))
  {
    hide Ok, Fork, WakeNew, Wake, Sleep, SetScheduler, SetPrio, SetNice, MoveGroup, Tick, Yield;
    match step
    case DoFork(t) => ForkKeeps(q, t);
    case DoWakeNew(t) => WakeNewKeeps(q, t);
    case DoWake(t) => WakeKeeps(q, t);
    case DoSleep(t) => SleepKeeps(q, t);
    case DoSetScheduler(t, r, prio, boost, checks) => SetSchedulerKeeps(q, t, r, prio, boost, checks);
    case DoSetPrio(t, prio) => SetPrioKeeps(q, t, prio);
    case DoSetNice(t, nice) => SetNiceKeeps(q, t, nice);
    case DoMoveGroup(t, b) => MoveGroupKeeps(q, t, b);
    case DoTick(t, throttled) => TickKeeps(q, t, throttled);
    case DoYield(t) => YieldKeeps(q, t);
    case DoStop(running) => StopKeeps(q, running);
  }

  /** One ordinary sleeping task and empty queues. */
  ghost predicate Start(q: Rq) {
    && q.unit >= 1
    && q == Rq([Task(NORMAL, 120, 120, 120, 0, FairClass, false, false, false, false, 0, false, 0)], {}, {}, [], 0, 0, 0, 0, false, q.unit)
  }

  ghost predicate IsRun(states: seq<Rq>, steps: seq<Step>) {
    && |states| == |steps| + 1 && Start(states[0])
    && forall i :: 0 <= i < |steps| ==> CanStep(states[i], steps[i]) && states[i + 1] == Apply(states[i], steps[i])
  }

  /** In every reachable state: the class follows from priority and policy, a task is on exactly
      its class's queue when on_rq and on none otherwise, the counters match the queues, and
      queued WRR tasks have a weight in 1..99 and a slice in 1..weight * unit. */
  lemma {:induction false} RunsKeepOk(states: seq<Rq>, steps: seq<Step>, i: nat)
    requires IsRun(states, steps) && i < |states|
    ensures Ok(states[i])
  {
    if i > 0 {
      RunsKeepOk(states, steps, i - 1);
      StepKeeps(states[i - 1], steps[i - 1]);
    }
  }

  /** Spelled out for one task: a runnable task is on the queue of its class and on no other, any other task on none. */
  lemma OnExactlyOneQueue(states: seq<Rq>, steps: seq<Step>, i: nat, t: nat)
    requires IsRun(states, steps) && i < |states| && t < |states[i].tasks|
    ensures var q, p := states[i], states[i].tasks[t];
            var c := if p.prio < 100 then RtClass else if p.policy == WRR then WrrClass else FairClass;
            && p.cls == c
            && (t in q.rt <==> p.onRq && c == RtClass)
            && (t in q.wrr <==> p.onRq && c == WrrClass)
            && (t in q.fair <==> p.onRq && c == FairClass)
  {
    RunsKeepOk(states, steps, i);
    var q := states[i];
    assert TaskOk(q.tasks[t]);
    assert t in q.wrr <==> t in Elems(q.wrr);
  }

  // ---------------------------------------------------------------- priority inheritance

  lemma Boosted(q: Rq, t: nat, high: int)
    requires t < |q.tasks| && q.tasks[t].onRq && q.tasks[t].cls == WrrClass && RtPrio(high)
    ensures var p := q.tasks[t];
            SetPrio(q, t, high) == q.(tasks := q.tasks[t := p.(cls := RtClass, prio := high)], wrr := Without(q.wrr, t),
                                      rt := q.rt + {t}, wrrNr := q.wrrNr - 1, totalWeight := q.totalWeight - p.weight)
  {
  }

  lemma Deboosted(q: Rq, t: nat, prio: int)
    requires t < |q.tasks| && q.tasks[t].onRq && q.tasks[t].cls == RtClass && q.tasks[t].policy == WRR
    requires RtPrio(q.tasks[t].prio) && !RtPrio(prio) && t !in q.wrr
    ensures var p := Weighted(q.tasks[t].(cls := WrrClass, prio := prio), q.unit);
            SetPrio(q, t, prio) == q.(tasks := q.tasks[t := p], wrr := [t] + q.wrr, rt := q.rt - {t},
                                      wrrNr := q.wrrNr + 1, totalWeight := q.totalWeight + p.weight)
  {
  }

  lemma WrrTaskFacts(q: Rq, t: nat)
    requires Ok(q) && t < |q.tasks| && q.tasks[t].cls == WrrClass
    ensures q.tasks[t].policy == WRR && !RtPrio(q.tasks[t].prio) && t !in q.rt
  {
    assert TaskOk(q.tasks[t]);
  }

  lemma LowIsRt(prio: int)
    requires prio < MAX_RT_PRIO
    ensures RtPrio(prio)
  {
  }

  /** Lending a queued WRR task a real-time priority and taking it back puts it at the head
      of the WRR queue with a full slice, and changes nothing else. */
  lemma BoostRoundTrip(q: Rq, t: nat, high: int)
    requires Ok(q) && t < |q.tasks| && q.tasks[t].onRq && q.tasks[t].cls == WrrClass && 0 <= high < MAX_RT_PRIO
    ensures var r := SetPrio(SetPrio(q, t, high), t, q.tasks[t].prio);
            var p := Weighted(q.tasks[t], q.unit);
            r == q.(tasks := q.tasks[t := p], wrr := [t] + Without(q.wrr, t), totalWeight := q.totalWeight - q.tasks[t].weight + p.weight)
  {
    hide Settled, SetPrio, Without, Weighted, TaskOk, UpdatedWeight, RtPrio;
    WrrTaskFacts(q, t);
    LowIsRt(high);
    var p, b := q.tasks[t], SetPrio(q, t, high);
    Boosted(q, t, high);
    assert b.tasks[t].(cls := WrrClass, prio := p.prio) == p;
    Deboosted(b, t, p.prio);
    assert q.rt + {t} - {t} == q.rt;
    assert b.tasks[t := Weighted(p, q.unit)] == q.tasks[t := Weighted(p, q.unit)];
  }

  // ---------------------------------------------------------------- setting WRR

  /** Which requests are valid: a known policy with priority 1..99 for the real-time ones,
      0..99 for WRR and 0 for the rest. */
  predicate Accepted(policy: int, prio: int) {
    && policy in {NORMAL, FIFO, RR, BATCH, IDLE, WRR}
    && (if policy in {FIFO, RR} then 1 <= prio <= 99 else if policy == WRR then 0 <= prio <= 99 else prio == 0)
  }

  lemma ValidIff(p: Task, r: Request, prio: int)
    requires TaskOk(p)
    ensures Validate(p, r, prio) == 0 <==> Accepted(Policy(p, r), prio)
  {
    var policy := Policy(p, r);
    if prio == 0 || RtPolicy(policy) || policy == WRR {
      assert RtPolicy(policy) <==> policy in {FIFO, RR};
    }
  }

  /** What a successful change leaves in the task: the policy asked for, its own priority from
      it, and the better of that and what its waiters lend it. */
  lemma SetSchedulerMeaning(q: Rq, t: nat, r: Request, prio: int, boost: int, checks: Checks)
    requires t < |q.tasks|
    ensures var p, policy := q.tasks[t], Policy(q.tasks[t], r);
            var same := policy == p.policy && (!RtPolicy(policy) || prio == p.rtPriority);
            var (s, err) := SetScheduler(q, t, r, prio, boost, checks);
            && |s.tasks| == |q.tasks|
            && (err == 0 <==> Validate(p, r, prio) == 0 && !checks.denied && (same || !(RtPolicy(policy) && checks.noRuntime)))
            && (TaskOk(p) ==>
                  (err == 0 <==> Accepted(policy, prio) && !checks.denied && (same || !(RtPolicy(policy) && checks.noRuntime))))
            && (err == 0 && !same ==>
                  && Becomes(p, s.tasks[t], if r.SamePolicy? then p.resetOnFork else r.reset, policy, prio, boost)
                  && (Ok(q) && 0 <= boost <= MAX_PRIO ==> PutWhere(q, s, t, false)))
            && ((err != 0 || same) ==> s == q)
  {
    var p := q.tasks[t];
    if TaskOk(p) { ValidIff(p, r, prio); }
    var reset := if r.SamePolicy? then p.resetOnFork else r.reset;
    var n := Scheduled(p.(resetOnFork := reset), Policy(p, r), prio, boost);
    if Validate(p, r, prio) == 0 {
      ScheduledBecomes(p, reset, Policy(p, r), prio, boost, q.unit);
      if Ok(q) && 0 <= boost <= MAX_PRIO { ScheduledPuts(q, t, r, reset, prio, boost); }
    }
    hide Ok, PutWhere, Rework, Weighted, Scheduled, Becomes, Validate, Accepted, TaskOk;
    ReworkTask(q, t, n, false);
  }

  lemma ScheduledPuts(q: Rq, t: nat, r: Request, reset: bool, prio: int, boost: int)
    requires Ok(q) && t < |q.tasks| && 0 <= boost <= MAX_PRIO && Validate(q.tasks[t], r, prio) == 0
    ensures var n := Scheduled(q.tasks[t].(resetOnFork := reset), Policy(q.tasks[t], r), prio, boost);
            var s := Rework(q, t, n, false);
            |s.tasks| == |q.tasks| && PutWhere(q, s, t, false)
  {
    var p := q.tasks[t].(resetOnFork := reset);
    assert TaskOk(q.tasks[t]);
    assert TaskOk(p) && Validate(p, r, prio) == 0 && Policy(p, r) == Policy(q.tasks[t], r);
    hide Settled, TaskOk, Scheduled, Rework, Validate, PutWhere;
    ScheduledOk(p, r, prio, boost);
    ReworkPuts(q, t, Scheduled(p, Policy(p, r), prio, boost), false);
  }

  ghost predicate Becomes(p: Task, n: Task, reset: bool, policy: int, prio: int, boost: int) {
    && n.resetOnFork == reset && n.background == p.background && n.newborn == p.newborn
    && n.rtPriority == (if policy == WRR then 0 else prio) && (policy == WRR && prio != 0 ==> n.weight == prio)
    && n.cls == (if n.prio < 100 then RtClass else if policy == WRR then WrrClass else FairClass)
    && n.policy == policy && n.onRq == p.onRq && n.staticPrio == p.staticPrio
    && n.normalPrio == (if RtPolicy(policy) then 99 - prio else p.staticPrio)
    && n.prio <= n.normalPrio && n.prio <= boost && (n.prio == n.normalPrio || n.prio == boost)
    && (n.custom <==> if policy == WRR then prio != 0 else p.custom)
  }

  lemma ScheduledBecomes(p: Task, reset: bool, policy: int, prio: int, boost: int, unit: nat)
    ensures var n := Scheduled(p.(resetOnFork := reset), policy, prio, boost);
            Becomes(p, n, reset, policy, prio, boost) && Becomes(p, Weighted(n, unit), reset, policy, prio, boost)
  {
    assert !RtPolicy(WRR);
    hide RtPolicy, UpdatedWeight;
  }

  /** Only the weight and slice of the reworked task are not its caller's. */
  lemma ReworkTask(q: Rq, t: nat, p: Task, head: bool)
    requires t < |q.tasks|
    ensures var r := Rework(q, t, p, head);
            |r.tasks| == |q.tasks| && r.tasks[t] == if q.tasks[t].onRq && p.cls == WrrClass then Weighted(p, q.unit) else p
  {
    hide Without;
  }

  /** A nice value in range is taken over; an RT priority, own or lent, is not disturbed by it. */
  lemma SetNiceMeaning(q: Rq, t: nat, nice: int)
    requires Ok(q) && t < |q.tasks|
    ensures Niced(q, SetNice(q, t, nice), t, nice)
  {
    var p := q.tasks[t];
    assert TaskOk(p);
    if PrioToNice(p.staticPrio) == nice || nice < -20 || nice > 19 || RtPolicy(p.policy) {
      hide Settled, Rework, PutWhere, TaskOk;
    } else {
      RenicedOk(p, nice);
      hide Settled, Rework, PutWhere, TaskOk;
      ReworkTask(q, t, Reniced(p, nice), false);
      ReworkPuts(q, t, Reniced(p, nice), false);
    }
  }

  /** Out of range or no change: nothing. A real-time policy: the static priority is stored. Else the task goes
      to its queue anew, with its own priority unless a real-time one has been lent to it. */
  ghost predicate Niced(q: Rq, r: Rq, t: nat, nice: int)
    requires t < |q.tasks|
  {
    var p := q.tasks[t];
    if nice < -20 || nice > 19 || nice == PrioToNice(p.staticPrio) then r == q
    else if p.policy in {FIFO, RR} then r == q.(tasks := q.tasks[t := p.(staticPrio := 120 + nice)])
    else
      && |r.tasks| == |q.tasks| && PutWhere(q, r, t, false)
      && var n := r.tasks[t];
         && n.staticPrio == n.normalPrio == 120 + nice && n.prio == (if p.prio < 100 then p.prio else 120 + nice)
         && n.(staticPrio := p.staticPrio, normalPrio := p.normalPrio, prio := p.prio, weight := p.weight, slice := p.slice) == p
  }

  /** A queued WRR task without a weight of its own takes on its new group's, with a full slice, at the tail. */
  lemma MoveGroupReweighs(q: Rq, t: nat, background: bool)
    requires Ok(q) && t < |q.tasks|
    ensures var p, r := q.tasks[t], MoveGroup(q, t, background);
            && |r.tasks| == |q.tasks| && PutWhere(q, r, t, false)
            && r.tasks[t].(weight := p.weight, slice := p.slice, background := p.background) == p && r.tasks[t].background == background
            && (p.onRq && p.cls == WrrClass ==> r.tasks[t].weight == if p.custom then p.weight else if background then 1 else 10)
  {
    var n := q.tasks[t].(background := background);
    assert TaskOk(n);
    ReworkTask(q, t, n, false);
    hide Settled, TaskOk, Rework, PutWhere;
    ReworkPuts(q, t, n, false);
  }

  /** A task that is WRR already keeps its weight: the call does nothing, and succeeds unless permission is denied. */
  lemma WrrAgainIsNoop(q: Rq, t: nat, r: Request, prio: int, boost: int, checks: Checks)
    requires t < |q.tasks| && q.tasks[t].policy == WRR && Policy(q.tasks[t], r) == WRR && 0 <= prio < 100
    ensures SetScheduler(q, t, r, prio, boost, checks) == (q, if checks.denied then -EPERM else 0)
  {
  }

  /** Any other task that is not boosted goes to the tail of the WRR queue with the weight asked
      for (or, for 0, the weight of its group) and a full slice. */
  lemma BecomesWrr(q: Rq, t: nat, prio: int, reset: bool, noRuntime: bool)
    requires Ok(q) && t < |q.tasks| && q.tasks[t].onRq && q.tasks[t].policy != WRR && 0 <= prio < 100
    ensures var (r, err) := SetScheduler(q, t, NewPolicy(WRR, reset), prio, MAX_PRIO, Checks(false, noRuntime));
            && err == 0 && r.wrr == q.wrr + [t]
            && |r.tasks| == |q.tasks| && r.tasks[t].cls == WrrClass
            && r.tasks[t].weight == (if prio > 0 then prio else if q.tasks[t].background then 1 else 10)
            && r.tasks[t].slice == r.tasks[t].weight * q.unit
  {
    assert TaskOk(q.tasks[t]);
    assert t !in Elems(q.wrr);
    hide Members, Counters, SlicesOk, TasksOk;
    var d := Dequeue(q, t);
    var p := Scheduled(q.tasks[t].(resetOnFork := reset), WRR, prio, MAX_PRIO);
    assert p.cls == WrrClass && d.wrr == q.wrr && d.tasks == q.tasks && d.unit == q.unit;
    LinkedAtTail(SetTask(d, t, p), t);
  }

  lemma LinkedAtTail(q: Rq, t: nat)
    requires t < |q.tasks| && q.tasks[t].cls == WrrClass && t !in q.wrr
    ensures var r := Enqueue(q, t, false);
            r.wrr == q.wrr + [t] && r.tasks == q.tasks[t := Weighted(q.tasks[t], q.unit)]
  {
  }

  // ---------------------------------------------------------------- picking

  datatype Pick = Nobody | StopTask | Chosen(t: nat)

  /** What the classes answer: the fair and real-time picks are theirs to make (a throttled
      real-time queue answers nobody), but none offers a task it does not have, and the fair
      class offers one whenever it has one. */
  ghost predicate Answers(q: Rq, rt: Pick, fair: Pick) {
    && (rt == Nobody || (rt.Chosen? && rt.t in q.rt))
    && (if q.fair == {} then fair == Nobody else fair.Chosen? && fair.t in q.fair)
  }

  /** pick_next_task_wrr */
  function PickWrr(q: Rq, throttled: bool): Pick {
    if q.wrrNr == 0 || throttled || q.wrr == [] then Nobody else Chosen(q.wrr[0])
  }

  /** The walk over the classes; Nobody stands for the idle task. */
  function PickWalk(q: Rq, rt: Pick, fair: Pick, throttled: bool): Pick {
    if q.stop then StopTask
    else if rt != Nobody then rt
    else if PickWrr(q, throttled) != Nobody then PickWrr(q, throttled)
    else fair
  }

  /** pick_next_task */
  function PickNext(q: Rq, rt: Pick, fair: Pick, throttled: bool): Pick {
    if q.nrRunning == q.fairNr && fair != Nobody then fair else PickWalk(q, rt, fair, throttled)
  }

  /** The shortcut gives the task the walk would have found. */
  lemma ShortcutAgrees(q: Rq, rt: Pick, fair: Pick, throttled: bool)
    requires Ok(q) && Answers(q, rt, fair)
    ensures PickNext(q, rt, fair, throttled) == PickWalk(q, rt, fair, throttled)
  {
    if q.nrRunning == q.fairNr {
      assert |q.rt| == 0 && |q.wrr| == 0 && !q.stop;
      assert q.rt == {};
    }
  }

  /** Whom it picks, class by class: the stop task, else the real-time class's answer, else the WRR head
      unless that class is empty or throttled, else the fair class's answer. */
  ghost predicate RightPick(q: Rq, rt: Pick, fair: Pick, throttled: bool, p: Pick) {
    && (q.stop ==> p == StopTask)
    && (!q.stop && rt != Nobody ==> p == rt)
    && (!q.stop && rt == Nobody && q.wrr != [] && !throttled ==> p == Chosen(q.wrr[0]))
    && (!q.stop && rt == Nobody && (q.wrr == [] || throttled) ==> p == fair)
  }

  /** So a picked task is runnable, and nobody is picked only if all classes are empty or throttled. */
  lemma PickMeaning(q: Rq, rt: Pick, fair: Pick, throttled: bool)
    requires Ok(q) && Answers(q, rt, fair)
    ensures var p := PickNext(q, rt, fair, throttled);
            && RightPick(q, rt, fair, throttled, p)
            && (p.Chosen? ==> p.t < |q.tasks| && q.tasks[p.t].onRq)
            && (p == Nobody <==> !q.stop && rt == Nobody && q.fair == {} && (q.wrr == [] || throttled))
  {
    ShortcutAgrees(q, rt, fair, throttled);
    assert q.wrr != [] ==> q.wrr[0] in Elems(q.wrr);
  }
}
