/** The run queue and the accounts together: groups are throttled by their own accounts, and the
    task that is charged is the one that the run queue picked. No task is boosted. */
module RtJoint {
  import opened Kernel
  import opened Lists
  import opened RtQueue
  import Proofs = RtQueueProofs
  import Runs = RtRuns
  import Acct = RtThrottle

  /** One account for each run queue. */
  datatype Joint = Joint(rt: Cpu, acct: Acct.Cpu)

  /** The run queues that update_curr_rt charges for a task of group `g`. */
  function PathOf(s: Cpu, g: nat): (r: seq<nat>)
    requires Shaped(s) && g < |s.rqs|
    ensures forall i :: 0 <= i < |r| ==> r[i] <= g
    decreases g
  {
    if g == 0 then [0] else [g] + PathOf(s, s.parent[g])
  }

  /** sched_rt_rq_dequeue for every queue that a charge has throttled. */
  function ThrottleNew(s: Cpu, path: seq<nat>, was: seq<Acct.Queue>, now: seq<Acct.Queue>): (r: Cpu)
    requires Shaped(s) && |was| == |now| == |s.rqs| && forall i :: 0 <= i < |path| ==> path[i] < |s.rqs|
    ensures Shaped(r) && SameFrame(s, r)
    decreases |path|
  {
    if path == [] then s
    else
      var g := path[0];
      var s1 := if now[g].throttled && !was[g].throttled then Throttle(s, g) else s;
      ThrottleNew(s1, path[1..], was, now)
  }

  datatype Step =
    | Queueing(step: Runs.Step)     // tasks come, go, yield or change while off the queue
    | Pick                          // _pick_next_task_rt and the switch to its task
    | Charge(delta: nat)
    | Timer(g: nat, overrun: nat)

  ghost predicate Enabled(j: Joint, step: Step, d: nat)
    requires Agree(j)
  {
    match step
    case Queueing(q) =>
      && Runs.Enabled(j.rt, q)
      && (q.EnqueueTask? || q.DequeueTask? || q.RequeueTask? || (q.ChangeTask? && q.attr.prio == q.attr.normalPrio))
    case Pick => true
    case Charge(delta) => delta <= d && forall i :: 0 <= i < |j.acct.path| ==> !j.acct.queues[j.acct.path[i]].graced
    case Timer(g, _) => g < |j.acct.queues|
  }

  /** The accounts and the run queues agree on who is throttled. */
  ghost predicate Agree(j: Joint) {
    && Inv(j.rt) && |j.acct.queues| == |j.rt.rqs| && Acct.PathOk(j.acct.queues, j.acct.path)
    && (forall t :: t in j.rt.tasks ==> j.rt.tasks[t].prio == j.rt.tasks[t].normalPrio)
    && SameFlags(j.rt, j.acct.queues)
  }

  ghost predicate SameFlags(s: Cpu, qs: seq<Acct.Queue>)
    requires |qs| == |s.rqs|
  {
    forall g :: 0 <= g < |qs| ==> s.rqs[g].throttled == qs[g].throttled
  }

  ghost function PickedPath(s: Cpu): seq<nat>
    requires Inv(s)
  {
    match Runs.PickNext(s)
    case Nothing => []
    case Picked(t) =>
      Runs.PickIsBest(s);
      PathOf(s, s.tasks[t].group)
  }

  /** The step that the accounts see. */
  ghost function Seen(j: Joint, step: Step): Acct.Step
    requires Agree(j) && !step.Queueing?
  {
    match step
    case Pick => Acct.SwitchTo(PickedPath(j.rt))
    case Charge(delta) => Acct.Charge(delta)
    case Timer(g, overrun) => Acct.Timer(g, overrun)
  }

  ghost function Apply(j: Joint, step: Step, d: nat): Joint
    requires Agree(j) && Enabled(j, step, d)
  {
    match step
    case Queueing(q) => j.(rt := Runs.Apply(j.rt, q))
    case Pick => j.(acct := j.acct.(path := PickedPath(j.rt)))
    case Charge(delta) =>
      ChargeLength(j.acct.queues, j.acct.path, delta);
      var now := Acct.ChargePath(j.acct.queues, j.acct.path, delta).0;
      Joint(ThrottleNew(j.rt, j.acct.path, j.acct.queues, now), j.acct.(queues := now))
    case Timer(g, overrun) =>
      var now := Acct.Replenish(j.acct.queues[g], overrun);
      var freed := j.acct.queues[g].throttled && !now.throttled;
      Joint(if freed then Unthrottle(j.rt, g) else j.rt, j.acct.(queues := j.acct.queues[g := now]))
  }

  // ---------------------------------------------------------------- each step keeps the agreement

  lemma ChargeLength(qs: seq<Acct.Queue>, path: seq<nat>, delta: nat)
    requires Acct.PathOk(qs, path)
    ensures |Acct.ChargePath(qs, path, delta).0| == |qs|
  {
    Acct.ChargeSignals(qs, path, delta);
  }

  lemma {:induction false} PathFalls(s: Cpu, g: nat)
    requires Shaped(s) && g < |s.rqs|
    ensures Distinct(PathOf(s, g))
    ensures forall h :: h in PathOf(s, g) ==> h == 0 || h in Enclosing(s, g)
    decreases g
  {
    if g > 0 {
      var rest := PathOf(s, s.parent[g]);
      PathFalls(s, s.parent[g]);
      assert g !in rest;
      DistinctCons(g, rest);
    }
  }

  /** A pick enters no throttled queue: what the accounts take for granted. */
  lemma PickIsClear(j: Joint)
    requires Agree(j)
    ensures Acct.CanStep(j.acct, Acct.SwitchTo(PickedPath(j.rt)), 0)
  {
    hide Inv, On, Shaped, Runs.PickNext;
    var s := j.rt;
    Proofs.ShapedInv(s);
    Runs.PickIsBest(s);
    var path := PickedPath(s);
    if Runs.PickNext(s).Picked? {
      var g := s.tasks[Runs.PickNext(s).tid].group;
      PathFalls(s, g);
      forall i | 0 <= i < |path|
        ensures !j.acct.queues[path[i]].throttled
      {
        assert path[i] in PathOf(s, g);
        Runs.Unboosted(s, path[i]);
      }
    }
  }

  /** Which flags a round of throttling sets. */
  lemma {:induction false} ThrottleNewOk(s: Cpu, path: seq<nat>, was: seq<Acct.Queue>, now: seq<Acct.Queue>)
    requires Inv(s) && |was| == |now| == |s.rqs| && forall i :: 0 <= i < |path| ==> path[i] < |s.rqs|
    ensures var r := ThrottleNew(s, path, was, now);
            && Inv(r)
            && forall h :: 0 <= h < |s.rqs| ==>
                 r.rqs[h].throttled == (s.rqs[h].throttled || (h in path && now[h].throttled && !was[h].throttled))
    decreases |path|
  {
    hide Inv, Throttle;
    Proofs.ShapedInv(s);
    hide Consistent;
    if path != [] {
      var g := path[0];
      var s1 := if now[g].throttled && !was[g].throttled then Throttle(s, g) else s;
      Runs.ThrottleKeeps(s, g);
      ThrottleNewOk(s1, path[1..], was, now);
      forall h | 0 <= h < |s.rqs|
        ensures h in path <==> h == g || h in path[1..]
      {
      }
    }
  }

  lemma ChargeOneFlag(q: Acct.Queue, delta: nat)
    ensures q.throttled ==> Acct.ChargeOne(q, delta).0.throttled
  {
  }

  lemma ChargeAgrees(j: Joint, delta: nat, d: nat)
    requires Agree(j) && Enabled(j, Charge(delta), d)
    ensures Agree(Apply(j, Charge(delta), d))
  {
    hide Inv, ThrottleNew, Acct.ChargePath, Acct.ChargeOne;
    var was, path := j.acct.queues, j.acct.path;
    ChargeLength(was, path, delta);
    var now := Acct.ChargePath(was, path, delta).0;
    ThrottleNewOk(j.rt, path, was, now);
    forall g | 0 <= g < |was|
      ensures now[g].throttled == (was[g].throttled || (g in path && now[g].throttled && !was[g].throttled))
    {
      Acct.ChargePathAt(was, path, delta, g);
      ChargeOneFlag(was[g], delta);
    }
  }

  lemma TimerAgrees(j: Joint, g: nat, overrun: nat, d: nat)
    requires Agree(j) && Enabled(j, Timer(g, overrun), d)
    ensures Agree(Apply(j, Timer(g, overrun), d))
  {
    hide Inv, Unthrottle;
    Runs.UnthrottleKeeps(j.rt, g);
    var q := j.acct.queues[g];
    assert Acct.Replenish(q, overrun).throttled ==> q.throttled;
  }

  lemma QueueingAgrees(j: Joint, q: Runs.Step, d: nat)
    requires Agree(j) && Enabled(j, Queueing(q), d)
    ensures Agree(Apply(j, Queueing(q), d))
  {
    hide Consistent, Linked, EnqueueEntity, DequeueEntity, RequeueStack;
    Runs.StepKeeps(j.rt, q);
    match q
    case EnqueueTask(t, head) => Proofs.EnqueueKeeps(j.rt, Task(t), head);
    case DequeueTask(t) => Proofs.DequeueKeeps(j.rt, Task(t));
    case RequeueTask(t, head) => Runs.RequeueStackOk(j.rt, Task(t), head);
    case ChangeTask(t, a) =>
    case ThrottleGroup(_) =>
    case UnthrottleGroup(_) =>
    case KickGroup(_) =>
    case NewGroup(_) =>
  }

  lemma StepAgrees(j: Joint, step: Step, d: nat)
    requires Agree(j) && Enabled(j, step, d)
    ensures Agree(Apply(j, step, d))
    ensures !step.Queueing? ==> Acct.CanStep(j.acct, Seen(j, step), d) && Apply(j, step, d).acct == Acct.Apply(j.acct, Seen(j, step), d)
    ensures step.Queueing? ==> Apply(j, step, d).acct == j.acct
  {
    hide Inv, PickedPath, SameFlags, Unthrottle, ThrottleNew, Acct.ChargePath, Acct.Replenish;
    match step
    case Queueing(q) => QueueingAgrees(j, q, d);
    case Pick => PickIsClear(j);
    case Charge(delta) => ChargeAgrees(j, delta, d);
    case Timer(g, overrun) => TimerAgrees(j, g, overrun, d);
  }

  // ---------------------------------------------------------------- runs

  /** `Agree` is there to make the steps meaningful; by StepAgrees no step can leave it. */
  ghost predicate IsRun(states: seq<Joint>, steps: seq<Step>, d: nat) {
    && |states| == |steps| + 1 && Agree(states[0])
    && (forall g :: 0 <= g < |states[0].acct.queues| ==> Acct.Initial(states[0].acct.queues[g]))
    && forall i :: 0 <= i < |steps| ==>
         Agree(states[i]) && Enabled(states[i], steps[i], d) && states[i + 1] == Apply(states[i], steps[i], d)
  }

  lemma StepFollows(j: Joint, step: Step, d: nat, g: nat)
    requires Agree(j) && Enabled(j, step, d) && g < |j.acct.queues| && Acct.Bounded(j.acct.queues[g], d)
    ensures var r := Apply(j, step, d).acct;
            |r.queues| == |j.acct.queues| && Acct.Bounded(r.queues[g], d) && Acct.Follows(j.acct.queues[g], r.queues[g])
  {
    hide Agree, Apply, Acct.Bounded, Acct.Follows, Acct.CanStep, Acct.Apply;
    StepAgrees(j, step, d);
    if step.Queueing? {
      Acct.FollowsItself(j.acct.queues[g]);
    } else {
      Acct.StepKeeps(j.acct, Seen(j, step), d, g);
    }
  }

  lemma {:induction false} RunsFollow(states: seq<Joint>, steps: seq<Step>, d: nat, g: nat, i: nat, k: nat)
    requires IsRun(states, steps, d) && g < |states[0].acct.queues| && i <= k < |states|
    requires |states[i].acct.queues| == |states[0].acct.queues| && Acct.Bounded(states[i].acct.queues[g], d)
    ensures |states[k].acct.queues| == |states[0].acct.queues| && Acct.Bounded(states[k].acct.queues[g], d)
    ensures Acct.Follows(states[i].acct.queues[g], states[k].acct.queues[g])
    decreases k - i
  {
    hide Agree, Enabled, Apply, Acct.Bounded, Acct.Follows;
    if i == k {
      Acct.FollowsItself(states[i].acct.queues[g]);
    } else {
      RunsFollow(states, steps, d, g, i, k - 1);
      StepFollows(states[k - 1], steps[k - 1], d, g);
      Acct.FollowsCompose(states[i].acct.queues[g], states[k - 1].acct.queues[g], states[k].acct.queues[g]);
    }
  }

  lemma InitiallyBounded(q: Acct.Queue, d: nat)
    requires Acct.Initial(q)
    ensures Acct.Bounded(q, d)
  {
  }

  /** The throttling bound with the run queue in the loop: whatever the tree of groups, whoever comes,
      goes or is picked, a limited queue's account stays at or below R + 2d, and between any two moments
      N periods apart at most (N + 1) R + 2d is charged to it. */
  lemma ThrottlingBound(states: seq<Joint>, steps: seq<Step>, d: nat, g: nat, i: nat, k: nat)
    requires IsRun(states, steps, d) && g < |states[0].acct.queues| && i <= k < |states|
    requires Acct.Limited(states[0].acct.queues[g])
    ensures |states[i].acct.queues| == |states[k].acct.queues| == |states[0].acct.queues|
    ensures var r := states[0].acct.queues[g].runtime;
            var a, b := states[i].acct.queues[g], states[k].acct.queues[g];
            && b.time <= r + 2 * d && b.periods >= a.periods
            && b.charged - a.charged <= (b.periods - a.periods + 1) * r + 2 * d
  {
    hide Agree, Enabled, Apply, Acct.Bounded;
    InitiallyBounded(states[0].acct.queues[g], d);
    RunsFollow(states, steps, d, g, 0, i);
    RunsFollow(states, steps, d, g, i, k);
    Acct.ChargedBound(states[i].acct.queues[g], states[k].acct.queues[g], d);
  }
}
