/** The hierarchical real-time run queue of one CPU (rt.c with CONFIG_RT_GROUP_SCHED).

    Every task group owns one `RtRq`: 100 priority lists and a bitmap.  The entity of a
    non-root group is queued in the array of its parent group, at the best priority found
    inside the group.  Groups are numbered in the order of their creation, so the parent
    of group `g > 0` has a smaller number, and group 0 is the root, which has no entity. */
module RtQueue {
  import opened Kernel
  import opened Lists

  datatype Entity = Task(tid: nat) | Group(gid: nat)

  /** The fields of task_struct that the real-time class reads. */
  datatype TaskAttr = TaskAttr(prio: nat, normalPrio: nat, group: nat)

  /** struct rt_rq with its struct rt_prio_array. */
  datatype RtRq = RtRq(
    queue: seq<seq<Entity>>,
    bitmap: seq<bool>,
    nrRunning: int,
    highest: int,
    nrBoosted: int,
    throttled: bool)

  datatype Cpu = Cpu(parent: seq<nat>, rqs: seq<RtRq>, tasks: map<nat, TaskAttr>)

  // ---------------------------------------------------------------- shape

  predicate ShapedRq(q: RtRq) {
    && |q.queue| == MAX_RT_PRIO
    && |q.bitmap| == MAX_RT_PRIO + 1
    && q.bitmap[MAX_RT_PRIO]        // delimiter for the bit search
  }

  ghost predicate Shaped(s: Cpu) {
    && 0 < |s.rqs| == |s.parent|
    && (forall g :: 0 < g < |s.parent| ==> s.parent[g] < g)
    && (forall g :: 0 <= g < |s.rqs| ==> ShapedRq(s.rqs[g]))
    && (forall t :: t in s.tasks ==> s.tasks[t].group < |s.rqs| && s.tasks[t].prio < MAX_RT_PRIO)
  }

  /** `b` differs from `a` at most in what its run queues hold. */
  predicate SameFrame(a: Cpu, b: Cpu) {
    b.parent == a.parent && b.tasks == a.tasks && |b.rqs| == |a.rqs|
  }

  predicate Known(s: Cpu, e: Entity) {
    match e
    case Task(t) => t in s.tasks
    case Group(g) => 0 < g < |s.rqs|
  }

  /** rt_rq_of_se */
  function RqOf(s: Cpu, e: Entity): (g: nat)
    requires Shaped(s) && Known(s, e)
    ensures g < |s.rqs|
    ensures e.Group? ==> g < e.gid
  {
    match e
    case Task(t) => s.tasks[t].group
    case Group(h) => s.parent[h]
  }

  /** rt_se_prio */
  function Prio(s: Cpu, e: Entity): int
    requires Known(s, e)
  {
    match e
    case Task(t) => s.tasks[t].prio
    case Group(h) => s.rqs[h].highest
  }

  /** rt_se_boosted */
  predicate Boosted(s: Cpu, e: Entity)
    requires Known(s, e)
  {
    match e
    case Task(t) => s.tasks[t].prio != s.tasks[t].normalPrio
    case Group(h) => s.rqs[h].nrBoosted != 0
  }

  /** rt_rq_throttled */
  predicate EffThrottled(q: RtRq) {
    q.throttled && q.nrBoosted == 0
  }

  predicate InLists(queue: seq<seq<Entity>>, e: Entity) {
    exists i :: 0 <= i < |queue| && e in queue[i]
  }

  /** on_rt_rq */
  predicate On(s: Cpu, e: Entity)
    requires Shaped(s) && Known(s, e)
  {
    InLists(s.rqs[RqOf(s, e)].queue, e)
  }

  // ---------------------------------------------------------------- list and bitmap operations

  function RemoveEverywhere(queue: seq<seq<Entity>>, e: Entity): (r: seq<seq<Entity>>)
    ensures |r| == |queue|
    ensures forall i :: 0 <= i < |queue| ==> r[i] == Without(queue[i], e)
  {
    seq(|queue|, i requires 0 <= i < |queue| => Without(queue[i], e))
  }

  function AddTo(l: seq<Entity>, e: Entity, head: bool): seq<Entity> {
    if head then [e] + l else l + [e]
  }

  /** sched_find_first_bit from position `from`. */
  function FirstSet(bitmap: seq<bool>, from: nat): (i: nat)
    requires from < |bitmap| && bitmap[|bitmap| - 1]
    ensures from <= i < |bitmap| && bitmap[i]
    ensures forall j :: from <= j < i ==> !bitmap[j]
    decreases |bitmap| - from
  {
    if bitmap[from] then from else FirstSet(bitmap, from + 1)
  }

  // ---------------------------------------------------------------- single-entity operations

  /** __dequeue_rt_entity, with dec_rt_tasks, dec_rt_prio and dec_rt_group. */
  function DequeueRaw(s: Cpu, e: Entity): (r: Cpu)
    requires Shaped(s) && Known(s, e)
    ensures Shaped(r) && SameFrame(s, r)
  {
    var g := RqOf(s, e);
    var q := s.rqs[g];
    var p := Prio(s, e);
    var queue := RemoveEverywhere(q.queue, e);
    var bitmap := if 0 <= p < MAX_RT_PRIO && queue[p] == [] then q.bitmap[p := false] else q.bitmap;
    var nr := q.nrRunning - 1;
    var highest :=
      if nr == 0 then MAX_RT_PRIO
      else if p == q.highest then FirstSet(bitmap, 0)
      else q.highest;
    var boosted := if Boosted(s, e) then q.nrBoosted - 1 else q.nrBoosted;
    s.(rqs := s.rqs[g := RtRq(queue, bitmap, nr, highest, boosted, q.throttled)])
  }

  /** The guard of __enqueue_rt_entity: a throttled or empty group is not queued. */
  predicate Enqueueable(s: Cpu, e: Entity)
    requires Known(s, e)
  {
    e.Group? ==> !EffThrottled(s.rqs[e.gid]) && s.rqs[e.gid].nrRunning != 0
  }

  /** __enqueue_rt_entity, with inc_rt_tasks, inc_rt_prio and inc_rt_group.
      A priority outside the array would be an out-of-bounds access in C;
      `AttachOk` shows that it does not arise in a consistent state. */
  function EnqueueRaw(s: Cpu, e: Entity, head: bool): (r: Cpu)
    requires Shaped(s) && Known(s, e)
    ensures Shaped(r) && SameFrame(s, r)
  {
    var g := RqOf(s, e);
    var q := s.rqs[g];
    var p := Prio(s, e);
    if !Enqueueable(s, e) || !(0 <= p < MAX_RT_PRIO) then s
    else
      var queue := q.queue[p := AddTo(q.queue[p], e, head)];
      var highest := if p < q.highest then p else q.highest;
      var boosted := if Boosted(s, e) then q.nrBoosted + 1 else q.nrBoosted;
      s.(rqs := s.rqs[g := RtRq(queue, q.bitmap[p := true], q.nrRunning + 1, highest, boosted, q.throttled)])
  }

  /** requeue_rt_entity */
  function RequeueRaw(s: Cpu, e: Entity, head: bool): (r: Cpu)
    requires Shaped(s) && Known(s, e)
    ensures Shaped(r) && SameFrame(s, r)
  {
    var g := RqOf(s, e);
    var q := s.rqs[g];
    var p := Prio(s, e);
    if !On(s, e) || !(0 <= p < MAX_RT_PRIO) then s
    else
      var queue := RemoveEverywhere(q.queue, e);
      s.(rqs := s.rqs[g := q.(queue := queue[p := AddTo(queue[p], e, head)])])
  }

  // ---------------------------------------------------------------- stack operations

  /** dequeue_rt_stack: the entity of the outermost group leaves first. */
  function TakeDown(s: Cpu, e: Entity): (r: Cpu)
    requires Shaped(s) && Known(s, e)
    ensures Shaped(r) && SameFrame(s, r)
    decreases RqOf(s, e)
  {
    var g := RqOf(s, e);
    var above := if g == 0 then s else TakeDown(s, Group(g));
    if On(above, e) then DequeueRaw(above, e) else above
  }

  /** The rebuilding loop of enqueue_rt_entity. */
  function BuildUp(s: Cpu, e: Entity, head: bool): (r: Cpu)
    requires Shaped(s) && Known(s, e)
    ensures Shaped(r) && SameFrame(s, r)
    decreases RqOf(s, e)
  {
    var s1 := EnqueueRaw(s, e, head);
    var g := RqOf(s, e);
    if g == 0 then s1 else BuildUp(s1, Group(g), head)
  }

  /** The rebuilding loop of dequeue_rt_entity. */
  function Reattach(s: Cpu, e: Entity): (r: Cpu)
    requires Shaped(s) && Known(s, e)
    ensures Shaped(r) && SameFrame(s, r)
    decreases RqOf(s, e)
  {
    var s1 := if e.Group? && s.rqs[e.gid].nrRunning != 0 then EnqueueRaw(s, e, false) else s;
    var g := RqOf(s, e);
    if g == 0 then s1 else Reattach(s1, Group(g))
  }

  function EnqueueEntity(s: Cpu, e: Entity, head: bool): (r: Cpu)
    requires Shaped(s) && Known(s, e)
    ensures Shaped(r) && SameFrame(s, r)
  {
    BuildUp(TakeDown(s, e), e, head)
  }

  function DequeueEntity(s: Cpu, e: Entity): (r: Cpu)
    requires Shaped(s) && Known(s, e)
    ensures Shaped(r) && SameFrame(s, r)
  {
    Reattach(TakeDown(s, e), e)
  }

  /** requeue_task_rt */
  function RequeueStack(s: Cpu, e: Entity, head: bool): (r: Cpu)
    requires Shaped(s) && Known(s, e)
    ensures Shaped(r) && SameFrame(s, r)
    decreases RqOf(s, e)
  {
    var s1 := RequeueRaw(s, e, head);
    var g := RqOf(s, e);
    if g == 0 then s1 else RequeueStack(s1, Group(g), head)
  }

  function SetThrottled(s: Cpu, g: nat, on: bool): (r: Cpu)
    requires Shaped(s) && g < |s.rqs|
    ensures Shaped(r) && SameFrame(s, r)
  {
    s.(rqs := s.rqs[g := s.rqs[g].(throttled := on)])
  }

  /** The throttling branch of sched_rt_runtime_exceeded with sched_rt_rq_dequeue. */
  function Throttle(s: Cpu, g: nat): (r: Cpu)
    requires Shaped(s) && g < |s.rqs|
    ensures Shaped(r) && SameFrame(s, r)
  {
    var s1 := SetThrottled(s, g, true);
    if EffThrottled(s1.rqs[g]) && g != 0 && On(s1, Group(g)) then DequeueEntity(s1, Group(g)) else s1
  }

  /** sched_rt_rq_enqueue */
  function RqEnqueue(s: Cpu, g: nat): (r: Cpu)
    requires Shaped(s) && g < |s.rqs|
    ensures Shaped(r) && SameFrame(s, r)
  {
    if s.rqs[g].nrRunning != 0 && g != 0 && !On(s, Group(g)) then EnqueueEntity(s, Group(g), false) else s
  }

  /** The unthrottling branch of do_sched_rt_period_timer. */
  function Unthrottle(s: Cpu, g: nat): (r: Cpu)
    requires Shaped(s) && g < |s.rqs|
    ensures Shaped(r) && SameFrame(s, r)
  {
    RqEnqueue(SetThrottled(s, g, false), g)
  }

  // ---------------------------------------------------------------- invariant

  ghost function Members(queue: seq<seq<Entity>>): set<Entity> {
    set i, e | 0 <= i < |queue| && e in queue[i] :: e
  }

  ghost function BoostedOf(s: Cpu, m: set<Entity>): set<Entity> {
    set e | e in m && Known(s, e) && Boosted(s, e)
  }

  /** Every listed entity belongs to run queue `g` and sits at the index of its priority. */
  ghost predicate PlacedIn(s: Cpu, g: nat, queue: seq<seq<Entity>>)
    requires Shaped(s) && |queue| == MAX_RT_PRIO
  {
    && (forall i, e :: 0 <= i < MAX_RT_PRIO && e in queue[i] ==> Known(s, e) && RqOf(s, e) == g && Prio(s, e) == i)
    && (forall i :: 0 <= i < MAX_RT_PRIO ==> Distinct(queue[i]))
  }

  ghost predicate Placed(s: Cpu, g: nat)
    requires Shaped(s) && g < |s.rqs|
  {
    PlacedIn(s, g, s.rqs[g].queue)
  }

  ghost predicate FirstNonEmpty(queue: seq<seq<Entity>>, h: int)
    requires |queue| == MAX_RT_PRIO
  {
    && 0 <= h <= MAX_RT_PRIO
    && (h < MAX_RT_PRIO ==> queue[h] != [])
    && (forall i :: 0 <= i < h ==> queue[i] == [])
  }

  ghost predicate Indexed(q: RtRq)
    requires ShapedRq(q)
  {
    && (forall i :: 0 <= i < MAX_RT_PRIO ==> (q.bitmap[i] <==> q.queue[i] != []))
    && FirstNonEmpty(q.queue, q.highest)
  }

  ghost predicate Counted(s: Cpu, g: nat)
    requires Shaped(s) && g < |s.rqs|
  {
    var q := s.rqs[g];
    && q.nrRunning == |Members(q.queue)|
    && q.nrBoosted == |BoostedOf(s, Members(q.queue))|
  }

  ghost predicate LocalOk(s: Cpu, g: nat)
    requires Shaped(s) && g < |s.rqs|
  {
    Placed(s, g) && Indexed(s.rqs[g]) && Counted(s, g)
  }

  ghost predicate Consistent(s: Cpu) {
    Shaped(s) && forall g :: 0 <= g < |s.rqs| ==> LocalOk(s, g)
  }

  /** A group is queued in its parent exactly when it has something to run and may run it. */
  ghost predicate Linked(s: Cpu, g: nat)
    requires Shaped(s) && 0 < g < |s.rqs|
  {
    On(s, Group(g)) <==> s.rqs[g].nrRunning != 0 && !EffThrottled(s.rqs[g])
  }

  ghost predicate Inv(s: Cpu) {
    Consistent(s) && forall g :: 0 < g < |s.rqs| ==> Linked(s, g)
  }

  /** Group `g` and the groups around it, without the root. */
  ghost function Enclosing(s: Cpu, g: nat): (r: set<nat>)
    requires Shaped(s) && g < |s.rqs|
    ensures forall a :: a in r ==> 0 < a <= g
    ensures g > 0 ==> g in r
    decreases g
  {
    if g == 0 then {} else {g} + Enclosing(s, s.parent[g])
  }
}
