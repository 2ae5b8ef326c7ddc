/** Whole runs of the real-time run queue, and the task it picks in every reachable state. */
module RtRuns {
  import opened Kernel
  import opened Lists
  import opened RtQueue
  import opened RtQueueProofs

  // ---------------------------------------------------------------- requeueing

  /** The counters and flags that other run queues depend on. */
  ghost predicate SameCounters(s: Cpu, r: Cpu) {
    && SameFrame(s, r)
    && forall h :: 0 <= h < |s.rqs| ==>
         && r.rqs[h].nrRunning == s.rqs[h].nrRunning && r.rqs[h].highest == s.rqs[h].highest
         && r.rqs[h].nrBoosted == s.rqs[h].nrBoosted && r.rqs[h].throttled == s.rqs[h].throttled
  }

  ghost predicate SameQueued(s: Cpu, r: Cpu)
    requires Shaped(s) && Shaped(r) && SameFrame(s, r)
  {
    forall x :: Known(s, x) ==> (On(r, x) <==> On(s, x))
  }

  lemma RequeuedPlaced(s: Cpu, e: Entity, head: bool)
    requires Consistent(s) && Known(s, e) && On(s, e)
    ensures var g := RqOf(s, e); var r := RequeueRaw(s, e, head);
            && Placed(r, g) && Indexed(r.rqs[g]) && Members(r.rqs[g].queue) == Members(s.rqs[g].queue)
  {
    hide PlacedIn, Boosted, BoostedOf;
    var g := RqOf(s, e);
    var q := s.rqs[g];
    var p := Prio(s, e);
    var r := RequeueRaw(s, e, head);
    HeldAtPrio(s, e);
    assert LocalOk(s, g);
    var out := RemoveEverywhere(q.queue, e);
    RemovePlaced(s, g, q.queue, e);
    AddPlaced(s, g, out, e, head);
    PlacedTransfer(s, r, g, r.rqs[g].queue);
    RequeuedIndexed(s, e, head);
    RemovedMembers(q.queue, e);
    AddedMembers(out, p, e, head);
    MemberOf(q.queue, p, e);
  }

  lemma RequeuedIndexed(s: Cpu, e: Entity, head: bool)
    requires Consistent(s) && Known(s, e) && On(s, e)
    ensures Indexed(RequeueRaw(s, e, head).rqs[RqOf(s, e)])
  {
    hide Boosted, BoostedOf, Members, RemoveEverywhere, Without, Distinct;
    var g := RqOf(s, e);
    var q, p := s.rqs[g], Prio(s, e);
    HeldAtPrio(s, e);
    assert LocalOk(s, g);
    assert Indexed(q) && forall i :: 0 <= i < MAX_RT_PRIO && i != p ==> e !in q.queue[i];
    hide LocalOk, Placed, PlacedIn;
    RemovedBits(q, p, e);
    assert q.queue[p] != [];
  }

  lemma RequeueOk(s: Cpu, e: Entity, head: bool)
    requires Consistent(s) && Known(s, e)
    ensures var r := RequeueRaw(s, e, head);
            Consistent(r) && SameCounters(s, r) && SameQueued(s, r)
  {
    hide PlacedIn, Indexed, BoostedOf, Members, RemoveEverywhere, AddTo;
    if On(s, e) {
      var g := RqOf(s, e);
      var r := RequeueRaw(s, e, head);
      RequeuedPlaced(s, e, head);
      HeldAtPrio(s, e);
      forall k | 0 <= k < |s.rqs|
        ensures LocalOk(r, k)
      {
        assert LocalOk(s, k);
        if k == g {
          MembersPlaced(s, k);
          BoostedFrame(s, r, Members(s.rqs[k].queue));
        } else {
          LocalOkFrame(s, r, k);
        }
      }
      forall x | Known(s, x)
        ensures On(r, x) <==> On(s, x)
      {
        OnIsMember(s, x);
        OnIsMember(r, x);
      }
    }
  }

  lemma {:induction false} RequeueStackOk(s: Cpu, e: Entity, head: bool)
    requires Consistent(s) && Known(s, e)
    ensures var r := RequeueStack(s, e, head);
            Consistent(r) && SameCounters(s, r) && SameQueued(s, r)
    decreases RqOf(s, e)
  {
    hide LocalOk, Shaped, On, RequeueRaw;
    RequeueOk(s, e, head);
    var g := RqOf(s, e);
    if g != 0 { RequeueStackOk(RequeueRaw(s, e, head), Group(g), head); }
  }

  /** requeue_task_rt moves entities inside their lists and nothing else. */
  lemma RequeueKeeps(s: Cpu, e: Entity, head: bool)
    requires Inv(s) && Known(s, e)
    ensures Inv(RequeueStack(s, e, head)) && SameQueued(s, RequeueStack(s, e, head))
  {
    hide LocalOk, Shaped, On;
    RequeueStackOk(s, e, head);
    var r := RequeueStack(s, e, head);
    forall h | 0 < h < |s.rqs|
      ensures Linked(r, h)
    {
      assert Linked(s, h) && Known(s, Group(h));
    }
  }

  // ---------------------------------------------------------------- throttling

  lemma ThrottleKeeps(s: Cpu, g: nat)
    requires Inv(s) && g < |s.rqs|
    ensures var r := Throttle(s, g);
            Inv(r) && r.rqs[g].throttled && SameTasksOn(s, r)
            && forall h :: 0 <= h < |s.rqs| && h != g ==> r.rqs[h].throttled == s.rqs[h].throttled
  {
    hide LocalOk, Shaped, On, Boosted, Prio, DequeueEntity;
    SetThrottledOk(s, g, true);
    var s1 := SetThrottled(s, g, true);
    if EffThrottled(s1.rqs[g]) && g != 0 && On(s1, Group(g)) {
      DequeueKeeps(s1, Group(g));
    } else if g != 0 {
      assert Linked(s, g) && Known(s, Group(g));
    }
  }

  lemma RqEnqueueKeeps(s: Cpu, g: nat)
    requires Consistent(s) && g < |s.rqs| && LinkedBut(s, g) && !EffThrottled(s.rqs[g])
    ensures var r := RqEnqueue(s, g);
            Inv(r) && SameTasksOn(s, r) && forall h :: 0 <= h < |s.rqs| ==> r.rqs[h].throttled == s.rqs[h].throttled
  {
    hide LocalOk, Shaped, Boosted, Prio, EnqueueEntity;
    if g != 0 {
      if s.rqs[g].nrRunning != 0 && !On(s, Group(g)) {
        EnqueueKeeps(s, Group(g), false);
      } else if On(s, Group(g)) && s.rqs[g].nrRunning == 0 {
        EmptyNotQueued(s, g);
      }
    }
  }

  /** A group with nothing queued has priority 100, which is no list of its parent. */
  lemma EmptyNotQueued(s: Cpu, g: nat)
    requires Consistent(s) && 0 < g < |s.rqs| && s.rqs[g].nrRunning == 0
    ensures !On(s, Group(g))
  {
    EmptyIffNoMembers(s, g);
    if On(s, Group(g)) { HeldAtPrio(s, Group(g)); }
  }

  ghost predicate SameTasksOn(s: Cpu, r: Cpu)
    requires Shaped(s) && Shaped(r) && SameFrame(s, r)
  {
    forall t :: t in s.tasks ==> (On(r, Task(t)) <==> On(s, Task(t)))
  }

  lemma UnthrottleKeeps(s: Cpu, g: nat)
    requires Inv(s) && g < |s.rqs|
    ensures var r := Unthrottle(s, g);
            Inv(r) && !r.rqs[g].throttled && SameTasksOn(s, r)
            && forall h :: 0 <= h < |s.rqs| && h != g ==> r.rqs[h].throttled == s.rqs[h].throttled
  {
    hide LocalOk, Shaped, On, Boosted, Prio, RqEnqueue;
    SetThrottledOk(s, g, false);
    RqEnqueueKeeps(SetThrottled(s, g, false), g);
  }

  /** What __enable_runtime does to the run queues of a CPU: every flag is cleared, nothing is queued. */
  function EnableAll(s: Cpu): Cpu {
    s.(rqs := seq(|s.rqs|, g requires 0 <= g < |s.rqs| => s.rqs[g].(throttled := false)))
  }

  /** The invariant survives exactly when no group with something to run was held back by its flag. */
  lemma EnableKeepsIff(s: Cpu)
    requires Inv(s)
    ensures Inv(EnableAll(s)) <==> forall g :: 0 < g < |s.rqs| ==> s.rqs[g].nrRunning == 0 || !EffThrottled(s.rqs[g])
  {
    hide LocalOk, On, Boosted, Prio;
    var r := EnableAll(s);
    FlagsFrame(s, r);
    forall g | 0 < g < |s.rqs|
      ensures Linked(r, g) <==> s.rqs[g].nrRunning == 0 || !EffThrottled(s.rqs[g])
    {
      assert Linked(s, g) && Known(s, Group(g));
    }
  }

  // ---------------------------------------------------------------- runs

  function EmptyRq(): (q: RtRq)
    ensures ShapedRq(q)
  {
    RtRq(seq(MAX_RT_PRIO, _ => []), seq(MAX_RT_PRIO + 1, i => i == MAX_RT_PRIO), 0, MAX_RT_PRIO, 0, false)
  }

  /** init_rt_rq and init_tg_rt_entry for the root group. */
  function InitCpu(): Cpu {
    Cpu([0], [EmptyRq()], map[])
  }

  datatype Step =
    | EnqueueTask(tid: nat, head: bool)
    | DequeueTask(tid: nat)
    | RequeueTask(tid: nat, head: bool)
    | ChangeTask(tid: nat, attr: TaskAttr)
    | ThrottleGroup(gid: nat)
    | UnthrottleGroup(gid: nat)
    | KickGroup(gid: nat)
    | NewGroup(within: nat)

  /** Callers change a task's priority, normal priority or group only while it is not queued. */
  ghost predicate Enabled(s: Cpu, step: Step)
    requires Shaped(s)
  {
    match step
    case EnqueueTask(t, _) => t in s.tasks
    case DequeueTask(t) => t in s.tasks
    case RequeueTask(t, _) => t in s.tasks
    case ChangeTask(t, a) =>
      && a.prio < MAX_RT_PRIO && a.group < |s.rqs|
      && (t in s.tasks ==> !On(s, Task(t)))
    case ThrottleGroup(g) => g < |s.rqs|
    case UnthrottleGroup(g) => g < |s.rqs|
    case KickGroup(g) => g < |s.rqs| && !EffThrottled(s.rqs[g])
    case NewGroup(p) => p < |s.rqs|
  }

  function Apply(s: Cpu, step: Step): Cpu
    requires Shaped(s) && Enabled(s, step)
  {
    match step
    case EnqueueTask(t, head) => EnqueueEntity(s, Task(t), head)
    case DequeueTask(t) => DequeueEntity(s, Task(t))
    case RequeueTask(t, head) => RequeueStack(s, Task(t), head)
    case ChangeTask(t, a) => s.(tasks := s.tasks[t := a])
    case ThrottleGroup(g) => Throttle(s, g)
    case UnthrottleGroup(g) => Unthrottle(s, g)
    case KickGroup(g) => RqEnqueue(s, g)
    case NewGroup(p) => s.(parent := s.parent + [p], rqs := s.rqs + [EmptyRq()])
  }

  lemma InitOk()
    ensures Inv(InitCpu())
  {
    var q := EmptyRq();
    assert Members(q.queue) == {};
    assert LocalOk(InitCpu(), 0);
  }

  lemma ChangeTaskLocal(s: Cpu, t: nat, a: TaskAttr, k: nat)
    requires Inv(s) && Enabled(s, ChangeTask(t, a)) && k < |s.rqs|
    ensures LocalOk(s.(tasks := s.tasks[t := a]), k)
  {
    hide Linked, Indexed, BoostedOf, FirstNonEmpty;
    var r := s.(tasks := s.tasks[t := a]);
    assert LocalOk(s, k);
    var queue := s.rqs[k].queue;
    forall i, x | 0 <= i < MAX_RT_PRIO && x in queue[i]
      ensures x != Task(t) && Known(r, x) && RqOf(r, x) == k && Prio(r, x) == i
    {
      PlacedAt(s, k, i, x);
      MemberOf(queue, i, x);
      OnIsMember(s, x);
    }
    MembersPlaced(s, k);
    BoostedFrame(s, r, Members(queue));
  }

  lemma ChangeTaskKeeps(s: Cpu, t: nat, a: TaskAttr)
    requires Inv(s) && Enabled(s, ChangeTask(t, a))
    ensures Inv(Apply(s, ChangeTask(t, a)))
  {
    hide LocalOk, Boosted, Prio;
    var r := Apply(s, ChangeTask(t, a));
    forall k | 0 <= k < |s.rqs|
      ensures LocalOk(r, k)
    {
      ChangeTaskLocal(s, t, a, k);
    }
    forall h | 0 < h < |s.rqs|
      ensures Linked(r, h)
    {
      assert Linked(s, h);
    }
  }

  lemma NewGroupLocal(s: Cpu, p: nat, k: nat)
    requires Inv(s) && p < |s.rqs| && k < |s.rqs|
    ensures var r := s.(parent := s.parent + [p], rqs := s.rqs + [EmptyRq()]); Shaped(r) && LocalOk(r, k)
  {
    hide Linked, Indexed, BoostedOf, FirstNonEmpty;
    var r := s.(parent := s.parent + [p], rqs := s.rqs + [EmptyRq()]);
    var n := |s.rqs|;
    assert LocalOk(s, k);
    var queue := s.rqs[k].queue;
    forall i, x | 0 <= i < MAX_RT_PRIO && x in queue[i]
      ensures x != Group(n) && Known(r, x) && RqOf(r, x) == k && Prio(r, x) == i
    {
      PlacedAt(s, k, i, x);
    }
    MembersPlaced(s, k);
    BoostedFrame(s, r, Members(queue));
  }

  lemma EmptyRqOk(s: Cpu, g: nat)
    requires Shaped(s) && g < |s.rqs| && s.rqs[g] == EmptyRq()
    ensures LocalOk(s, g)
  {
    assert Members(EmptyRq().queue) == {};
  }

  lemma NewGroupKeeps(s: Cpu, p: nat)
    requires Inv(s) && Enabled(s, NewGroup(p))
    ensures Inv(Apply(s, NewGroup(p)))
  {
    hide LocalOk, Boosted, Prio;
    var r := Apply(s, NewGroup(p));
    var n := |s.rqs|;
    forall k | 0 <= k < n
      ensures LocalOk(r, k)
    {
      NewGroupLocal(s, p, k);
    }
    EmptyRqOk(r, n);
    EmptyNotQueued(r, n);
    forall h | 0 < h < n
      ensures Linked(r, h)
    {
      assert Linked(s, h);
      assert r.rqs[RqOf(r, Group(h))] == s.rqs[RqOf(s, Group(h))];
    }
  }

  lemma StepKeeps(s: Cpu, step: Step)
    requires Inv(s) && Enabled(s, step)
    ensures Inv(Apply(s, step))
  {
    hide LocalOk, Shaped, Linked, EnqueueEntity, DequeueEntity, RequeueStack, Throttle, Unthrottle, RqEnqueue;
    match step
    case EnqueueTask(t, head) => EnqueueKeeps(s, Task(t), head);
    case DequeueTask(t) => DequeueKeeps(s, Task(t));
    case RequeueTask(t, head) => RequeueKeeps(s, Task(t), head);
    case ChangeTask(t, a) => ChangeTaskKeeps(s, t, a);
    case ThrottleGroup(g) => ThrottleKeeps(s, g);
    case UnthrottleGroup(g) => UnthrottleKeeps(s, g);
    case KickGroup(g) => RqEnqueueKeeps(s, g);
    case NewGroup(p) => NewGroupKeeps(s, p);
  }

  ghost predicate IsRun(states: seq<Cpu>, steps: seq<Step>) {
    && |states| == |steps| + 1
    && states[0] == InitCpu()
    && forall i :: 0 <= i < |steps| ==>
         Shaped(states[i]) && Enabled(states[i], steps[i]) && states[i + 1] == Apply(states[i], steps[i])
  }

  /** The invariant holds in every state of every run. */
  lemma {:induction false} RunsKeepInv(states: seq<Cpu>, steps: seq<Step>, i: nat)
    requires IsRun(states, steps) && i < |states|
    ensures Inv(states[i])
  {
    hide Inv, Apply, Enabled, Shaped;
    if i == 0 {
      InitOk();
    } else {
      RunsKeepInv(states, steps, i - 1);
      StepKeeps(states[i - 1], steps[i - 1]);
    }
  }

  /** Four steps after which enabling the CPU's queues breaks the invariant: a new group, a task placed
      in it and queued, and the group throttled. */
  lemma EnableBreaks() returns (states: seq<Cpu>, steps: seq<Step>)
    ensures IsRun(states, steps) && |steps| == 4
    ensures Inv(states[4]) && !Inv(EnableAll(states[4]))
  {
    hide LocalOk, Linked, EnqueueEntity, Throttle, SetThrottled, On, EmptyRq;
    var attr := TaskAttr(50, 50, 1);
    steps := [NewGroup(0), ChangeTask(0, attr), EnqueueTask(0, false), ThrottleGroup(1)];
    var s0 := InitCpu();
    InitOk();
    var s1 := Apply(s0, steps[0]);
    StepKeeps(s0, steps[0]);
    var s2 := Apply(s1, steps[1]);
    StepKeeps(s1, steps[1]);
    var s3 := Apply(s2, steps[2]);
    EnqueueKeeps(s2, Task(0), false);
    var s4 := Apply(s3, steps[3]);
    ThrottleKeeps(s3, 1);
    states := [s0, s1, s2, s3, s4];
    HeldAtPrio(s4, Task(0));
    Unboosted(s4, 1);
    EnableKeepsIff(s4);
  }

  /** Without boosted tasks no run queue counts a boosted entity. */
  lemma {:induction false} Unboosted(s: Cpu, g: nat)
    requires Consistent(s) && g < |s.rqs|
    requires forall t :: t in s.tasks ==> s.tasks[t].prio == s.tasks[t].normalPrio
    ensures s.rqs[g].nrBoosted == 0
    decreases |s.rqs| - g
  {
    hide Indexed, Members;
    assert LocalOk(s, g);
    MembersPlaced(s, g);
    var m := Members(s.rqs[g].queue);
    forall x | x in m
      ensures !Boosted(s, x)
    {
      if x.Group? { Unboosted(s, x.gid); }
    }
    assert BoostedOf(s, m) == {};
  }

  // ---------------------------------------------------------------- counting

  function TotalLength(queue: seq<seq<Entity>>): nat {
    if queue == [] then 0 else |queue[0]| + TotalLength(queue[1..])
  }

  ghost function Elements(l: seq<Entity>): set<Entity> {
    set e | e in l
  }

  lemma {:induction false} ElementsCount(l: seq<Entity>)
    requires Distinct(l)
    ensures |Elements(l)| == |l|
  {
    if l != [] {
      var last := l[|l| - 1];
      ElementsCount(l[..|l| - 1]);
      assert Elements(l) == Elements(l[..|l| - 1]) + {last};
    }
  }

  /** Duplicate-free lists without a common entity: the members are as many as the list lengths say. */
  lemma {:induction false} MembersCount(queue: seq<seq<Entity>>)
    requires forall i :: 0 <= i < |queue| ==> Distinct(queue[i])
    requires forall i, j, e :: 0 <= i < |queue| && 0 <= j < |queue| && e in queue[i] && e in queue[j] ==> i == j
    ensures |Members(queue)| == TotalLength(queue)
  {
    if queue != [] {
      var rest := queue[1..];
      assert forall i :: 0 <= i < |rest| ==> rest[i] == queue[i + 1];
      MembersCount(rest);
      ElementsCount(queue[0]);
      forall e | e in Members(rest)
        ensures e in Members(queue) && e !in queue[0]
      {
        var i :| 0 <= i < |rest| && e in rest[i];
        assert e in queue[i + 1];
      }
      forall e | e in Members(queue)
        ensures e in queue[0] || e in Members(rest)
      {
        var i :| 0 <= i < |queue| && e in queue[i];
        if i > 0 { assert e in rest[i - 1]; }
      }
      assert Members(queue) == Elements(queue[0]) + Members(rest);
    }
  }

  /** rt_nr_running is the number of entities on the lists. */
  lemma RunningIsTotalLength(s: Cpu, g: nat)
    requires Inv(s) && g < |s.rqs|
    ensures s.rqs[g].nrRunning == TotalLength(s.rqs[g].queue)
  {
    hide Boosted, BoostedOf, Indexed;
    assert LocalOk(s, g);
    var queue := s.rqs[g].queue;
    forall i, j, e | 0 <= i < |queue| && 0 <= j < |queue| && e in queue[i] && e in queue[j]
      ensures i == j
    {
      PlacedAt(s, g, i, e);
      PlacedAt(s, g, j, e);
    }
    MembersCount(queue);
  }

  // ---------------------------------------------------------------- picking

  /** What pick_next_rt_entity finds in a non-empty run queue. */
  lemma PickHeadOk(s: Cpu, g: nat)
    requires Inv(s) && g < |s.rqs| && s.rqs[g].nrRunning != 0
    ensures var q := s.rqs[g]; var i := FirstSet(q.bitmap, 0);
            && i < MAX_RT_PRIO && i == q.highest && q.queue[i] != []
            && var e := q.queue[i][0];
               && Known(s, e) && RqOf(s, e) == g && Prio(s, e) == i && On(s, e)
               && (e.Group? ==> s.rqs[e.gid].nrRunning != 0 && !EffThrottled(s.rqs[e.gid]))
  {
    hide Boosted, BoostedOf, Members;
    var q := s.rqs[g];
    assert LocalOk(s, g);
    EmptyIffNoMembers(s, g);
    var i := q.highest;
    var e := q.queue[i][0];
    assert e in q.queue[i];
    PlacedAt(s, g, i, e);
    if e.Group? { assert Linked(s, e.gid); }
  }

  /** The descent of _pick_next_task_rt. */
  function PickFrom(s: Cpu, g: nat): (t: nat)
    requires Inv(s) && g < |s.rqs| && s.rqs[g].nrRunning != 0
    decreases |s.rqs| - g
  {
    PickHeadOk(s, g);
    var q := s.rqs[g];
    match q.queue[FirstSet(q.bitmap, 0)][0]
    case Task(t) => t
    case Group(h) => PickFrom(s, h)
  }

  datatype Pick = Nothing | Picked(tid: nat)

  function PickNext(s: Cpu): Pick
    requires Inv(s)
  {
    if s.rqs[0].nrRunning == 0 || EffThrottled(s.rqs[0]) then Nothing else Picked(PickFrom(s, 0))
  }

  /** A queued task none of whose enclosing groups, the root included, is effectively throttled. */
  ghost predicate Eligible(s: Cpu, t: nat)
    requires Shaped(s)
  {
    && t in s.tasks && On(s, Task(t))
    && !EffThrottled(s.rqs[0])
    && forall a :: a in Enclosing(s, s.tasks[t].group) ==> !EffThrottled(s.rqs[a])
  }

  lemma {:induction false} PickFromOk(s: Cpu, g: nat)
    requires Inv(s) && g < |s.rqs| && s.rqs[g].nrRunning != 0
    ensures var t := PickFrom(s, g);
            && t in s.tasks && On(s, Task(t))
            && s.tasks[t].prio == s.rqs[g].highest
            && (var l := s.rqs[s.tasks[t].group].queue[s.tasks[t].prio]; l != [] && l[0] == Task(t))
            && (forall a :: a in Enclosing(s, s.tasks[t].group) - Enclosing(s, g) ==> !EffThrottled(s.rqs[a]))
            && (g == 0 || g in Enclosing(s, s.tasks[t].group))
    decreases |s.rqs| - g
  {
    hide LocalOk, Boosted;
    PickHeadOk(s, g);
    var e := s.rqs[g].queue[FirstSet(s.rqs[g].bitmap, 0)][0];
    if e.Group? {
      PickFromOk(s, e.gid);
      EnclosingUp(s, s.tasks[PickFrom(s, g)].group, e.gid);
    }
  }

  /** With a group, the group around it. */
  lemma {:induction false} EnclosingUp(s: Cpu, k: nat, h: nat)
    requires Shaped(s) && k < |s.rqs| && h in Enclosing(s, k)
    ensures s.parent[h] == 0 || s.parent[h] in Enclosing(s, k)
    decreases k
  {
    if h != k { EnclosingUp(s, s.parent[k], h); }
  }

  /** A group's best priority is visible from every group around it that is reached without throttling. */
  lemma {:induction false} Visible(s: Cpu, h: nat, g: nat)
    requires Inv(s) && h < |s.rqs| && s.rqs[h].nrRunning != 0 && g < |s.rqs| && (g == 0 || g in Enclosing(s, h))
    requires forall a :: a in Enclosing(s, h) - Enclosing(s, g) ==> !EffThrottled(s.rqs[a])
    ensures s.rqs[g].nrRunning != 0 && s.rqs[g].highest <= s.rqs[h].highest
    decreases h
  {
    hide Boosted, BoostedOf;
    if h != g {
      var p := s.parent[h];
      assert Linked(s, h);
      HeldAtPrio(s, Group(h));
      assert LocalOk(s, p);
      Visible(s, p, g);
    }
  }

  /** _pick_next_task_rt returns a task iff one is eligible; the task is eligible, no eligible
      task has a smaller prio value, and it is the first of its list. */
  lemma PickIsBest(s: Cpu)
    requires Inv(s)
    ensures PickNext(s).Nothing? <==> forall t :: !Eligible(s, t)
    ensures PickNext(s).Picked? ==>
              var p := PickNext(s).tid;
              && Eligible(s, p)
              && (var l := s.rqs[s.tasks[p].group].queue[s.tasks[p].prio]; l != [] && l[0] == Task(p))
              && forall t :: Eligible(s, t) ==> s.tasks[p].prio <= s.tasks[t].prio
  {
    hide Boosted, BoostedOf;
    forall t | Eligible(s, t)
      ensures s.rqs[0].nrRunning != 0 && s.rqs[0].highest <= s.tasks[t].prio
    {
      HeldAtPrio(s, Task(t));
      assert LocalOk(s, s.tasks[t].group);
      Visible(s, s.tasks[t].group, 0);
    }
    if PickNext(s).Picked? {
      PickFromOk(s, 0);
      assert Eligible(s, PickNext(s).tid);
    }
  }
}
