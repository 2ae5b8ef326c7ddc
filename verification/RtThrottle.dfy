/** Charging, throttling and replenishing real-time runtime (rt.c), for the queues of one CPU.
    No boosting and no borrowing: `runtime` is both the queue's and its group's setting. */
module RtThrottle {
  import opened Kernel
  import opened Arith
  import opened Lists

  /** `charged`, `credited` and `periods` are totals kept for the bounds: time added by
      update_curr_rt, time taken off by the period timer, and periods the timer reported.
      `graced` is set once the queue has been charged while throttled. */
  datatype Queue = Queue(runtime: nat, period: nat, time: nat, throttled: bool,
                         graced: bool, charged: nat, credited: nat, periods: nat)

  /** `path` are the queues the current real-time task is charged to, empty if none runs. */
  datatype Cpu = Cpu(queues: seq<Queue>, path: seq<nat>)

  // ---------------------------------------------------------------- operations

  /** sched_rt_runtime_exceeded */
  function Exceeded(q: Queue): (Queue, bool) {
    if q.throttled then (q, true)
    else if q.runtime >= q.period || q.runtime == RUNTIME_INF then (q, false)
    else if q.time > q.runtime then
      if q.runtime != 0 then (q.(throttled := true), true) else (q.(time := 0), false)
    else (q, false)
  }

  /** The body of the loop in update_curr_rt, for one queue. */
  function ChargeOne(q: Queue, delta: nat): (Queue, bool) {
    if q.runtime == RUNTIME_INF then (q, false)
    else Exceeded(q.(time := q.time + delta, charged := q.charged + delta, graced := q.throttled))
  }

  function ChargePath(qs: seq<Queue>, path: seq<nat>, delta: nat): (seq<Queue>, bool)
    requires forall i :: 0 <= i < |path| ==> path[i] < |qs|
    decreases |path|
  {
    if path == [] then (qs, false)
    else
      var (q, hit) := ChargeOne(qs[path[0]], delta);
      var (rest, more) := ChargePath(qs[path[0] := q], path[1..], delta);
      (rest, hit || more)
  }

  /** do_sched_rt_period_timer, for one queue. */
  function Replenish(q: Queue, overrun: nat): Queue {
    var p := q.(periods := q.periods + overrun);
    if p.time == 0 then p
    else
      var off := Min(p.time, overrun * p.runtime);
      var r := p.(time := p.time - off, credited := p.credited + off);
      if r.throttled && r.time < r.runtime then r.(throttled := false, graced := false) else r
  }

  // ---------------------------------------------------------------- runs

  datatype Step =
    | SwitchTo(path: seq<nat>)      // _pick_next_task_rt chose a task of these queues, or none
    | Charge(delta: nat)            // update_curr_rt
    | Timer(g: nat, overrun: nat)   // the period timer of queue g's group

  ghost predicate PathOk(qs: seq<Queue>, path: seq<nat>) {
    Distinct(path) && forall i :: 0 <= i < |path| ==> path[i] < |qs|
  }

  /** A pick never enters a throttled queue; a charge is at most `d`, and a task whose queue
      has been throttled under it is charged at most once more before it is switched out. */
  ghost predicate CanStep(c: Cpu, step: Step, d: nat) {
    && PathOk(c.queues, c.path)
    && match step
       case SwitchTo(path) => PathOk(c.queues, path) && forall i :: 0 <= i < |path| ==> !c.queues[path[i]].throttled
       case Charge(delta) => delta <= d && forall i :: 0 <= i < |c.path| ==> !c.queues[c.path[i]].graced
       case Timer(g, _) => g < |c.queues|
  }

  function Apply(c: Cpu, step: Step, d: nat): Cpu
    requires CanStep(c, step, d)
  {
    match step
    case SwitchTo(path) => c.(path := path)
    case Charge(delta) => c.(queues := ChargePath(c.queues, c.path, delta).0)
    case Timer(g, overrun) => c.(queues := c.queues[g := Replenish(c.queues[g], overrun)])
  }

  ghost predicate IsRun(states: seq<Cpu>, steps: seq<Step>, d: nat) {
    && |states| == |steps| + 1 && PathOk(states[0].queues, states[0].path)
    && (forall g :: 0 <= g < |states[0].queues| ==> Initial(states[0].queues[g]))
    && forall i :: 0 <= i < |steps| ==> CanStep(states[i], steps[i], d) && states[i + 1] == Apply(states[i], steps[i], d)
  }

  /** init_rt_rq */
  ghost predicate Initial(q: Queue) {
    q.time == 0 && !q.throttled && !q.graced && q.charged == 0 && q.credited == 0 && q.periods == 0
  }

  // ---------------------------------------------------------------- invariant

  /** A real limit is set. */
  predicate Limited(q: Queue) { 0 < q.runtime < q.period && q.runtime < RUNTIME_INF }

  ghost predicate Bounded(q: Queue, d: nat) {
    && (q.graced ==> q.throttled)
    && (Limited(q) ==>
          && q.charged == q.time + q.credited
          && (q.throttled ==> q.time >= q.runtime)
          && q.time <= q.runtime + (if q.throttled then d else 0) + (if q.graced then d else 0))
  }

  /** How a queue changes over a stretch of a run. */
  ghost predicate Follows(q: Queue, r: Queue) {
    && r.runtime == q.runtime && r.period == q.period
    && r.periods >= q.periods && r.charged >= q.charged && r.credited >= q.credited
    && r.credited - q.credited <= (r.periods - q.periods) * q.runtime
  }

  lemma ChargeKeeps(q: Queue, delta: nat, d: nat)
    requires Bounded(q, d) && delta <= d && !q.graced
    ensures Bounded(ChargeOne(q, delta).0, d) && Follows(q, ChargeOne(q, delta).0)
  {
    assert 0 * q.runtime == 0;
  }

  lemma ReplenishKeeps(q: Queue, overrun: nat, d: nat)
    requires Bounded(q, d)
    ensures Bounded(Replenish(q, overrun), d) && Follows(q, Replenish(q, overrun))
  {
    var r := Replenish(q, overrun);
    assert r.periods - q.periods == overrun;
    assert overrun * q.runtime >= 0;
  }

  /** What the timer does to any account: for each elapsed period it takes off one runtime, down to
      nothing, and it ends throttling iff less than one runtime is left. */
  ghost predicate Credited(q: Queue, r: Queue, overrun: nat) {
    var lifted := q.throttled && q.time > 0 && 0 < q.runtime && q.time < (overrun + 1) * q.runtime;
    && r.time == (if q.time < overrun * q.runtime then 0 else q.time - overrun * q.runtime)
    && r.credited == q.credited + (q.time - r.time) && r.periods == q.periods + overrun
    && r.charged == q.charged && r.runtime == q.runtime && r.period == q.period
    && (r.throttled <==> q.throttled && !lifted) && (r.graced <==> q.graced && !lifted)
  }

  lemma ReplenishIs(q: Queue, overrun: nat)
    ensures Credited(q, Replenish(q, overrun), overrun)
  {
    assert (overrun + 1) * q.runtime == overrun * q.runtime + q.runtime;
    assert q.runtime == 0 ==> overrun * q.runtime == 0;
    assert overrun * q.runtime >= 0;
  }

  /** What a charge does to any account with a finite runtime. */
  ghost predicate ChargedBy(q: Queue, r: Queue, delta: nat) {
    var over := !q.throttled && q.runtime < q.period && q.time + delta > q.runtime;
    && r.charged == q.charged + delta && (r.graced <==> q.throttled)
    && r.time == (if over && q.runtime == 0 then 0 else q.time + delta)
    && (r.throttled <==> q.throttled || (over && q.runtime != 0))
    && r.runtime == q.runtime && r.period == q.period && r.credited == q.credited && r.periods == q.periods
  }

  lemma ChargeIs(q: Queue, delta: nat)
    ensures q.runtime != RUNTIME_INF ==> ChargedBy(q, ChargeOne(q, delta).0, delta)
    ensures q.runtime == RUNTIME_INF ==> ChargeOne(q, delta).0 == q
  {
  }

  lemma {:induction false} ChargePathAt(qs: seq<Queue>, path: seq<nat>, delta: nat, g: nat)
    requires PathOk(qs, path) && g < |qs|
    ensures |ChargePath(qs, path, delta).0| == |qs|
    ensures ChargePath(qs, path, delta).0[g] == if g in path then ChargeOne(qs[g], delta).0 else qs[g]
    decreases |path|
  {
    if path != [] {
      var q := ChargeOne(qs[path[0]], delta).0;
      var rest := path[1..];
      DistinctTail(path);
      assert forall i :: 0 <= i < |rest| ==> rest[i] == path[i + 1];
      assert g in path <==> g == path[0] || g in rest;
      ChargePathAt(qs[path[0] := q], rest, delta, g);
    }
  }

  /** The current task is told to yield the CPU iff one of its queues is left throttled. */
  lemma {:induction false} ChargeSignals(qs: seq<Queue>, path: seq<nat>, delta: nat)
    requires PathOk(qs, path)
    ensures |ChargePath(qs, path, delta).0| == |qs|
    ensures ChargePath(qs, path, delta).1 <==>
            exists i :: 0 <= i < |path| && qs[path[i]].runtime != RUNTIME_INF && ChargePath(qs, path, delta).0[path[i]].throttled
    decreases |path|
  {
    if path != [] {
      var g := path[0];
      var (q, hit) := ChargeOne(qs[g], delta);
      var rest := path[1..];
      var mid := qs[g := q];
      DistinctTail(path);
      assert forall i :: 0 <= i < |rest| ==> rest[i] == path[i + 1];
      ChargeSignals(mid, rest, delta);
      ChargePathAt(qs, path, delta, g);
      var out := ChargePath(qs, path, delta).0;
      assert out == ChargePath(mid, rest, delta).0;
      assert hit <==> qs[path[0]].runtime != RUNTIME_INF && out[path[0]].throttled;
      if i :| 0 <= i < |rest| && mid[rest[i]].runtime != RUNTIME_INF && out[rest[i]].throttled {
        assert qs[path[i + 1]].runtime != RUNTIME_INF && out[path[i + 1]].throttled;
      }
      if i :| 0 <= i < |path| && qs[path[i]].runtime != RUNTIME_INF && out[path[i]].throttled {
        if i > 0 { assert mid[rest[i - 1]].runtime != RUNTIME_INF && out[rest[i - 1]].throttled; }
      }
    }
  }

  lemma StepKeeps(c: Cpu, step: Step, d: nat, g: nat)
    requires CanStep(c, step, d) && g < |c.queues| && Bounded(c.queues[g], d)
    ensures |Apply(c, step, d).queues| == |c.queues|
    ensures Bounded(Apply(c, step, d).queues[g], d) && Follows(c.queues[g], Apply(c, step, d).queues[g])
  {
    hide ChargeOne, Replenish, Bounded, Follows;
    match step
    case SwitchTo(path) => FollowsItself(c.queues[g]);
    case Charge(delta) =>
      ChargePathAt(c.queues, c.path, delta, g);
      if g in c.path { ChargeKeeps(c.queues[g], delta, d); } else { FollowsItself(c.queues[g]); }
    case Timer(h, overrun) =>
      if h == g { ReplenishKeeps(c.queues[g], overrun, d); } else { FollowsItself(c.queues[g]); }
  }

  lemma FollowsItself(q: Queue)
    ensures Follows(q, q)
  {
    assert 0 * q.runtime == 0;
  }

  lemma FollowsCompose(q: Queue, r: Queue, s: Queue)
    requires Follows(q, r) && Follows(r, s)
    ensures Follows(q, s)
  {
    var a, b := r.periods - q.periods, s.periods - r.periods;
    assert (a + b) * q.runtime == a * q.runtime + b * q.runtime;
  }

  lemma {:induction false} RunsBounded(states: seq<Cpu>, steps: seq<Step>, d: nat, g: nat, i: nat)
    requires IsRun(states, steps, d) && g < |states[0].queues| && i < |states|
    ensures |states[i].queues| == |states[0].queues| && Bounded(states[i].queues[g], d)
  {
    if i > 0 {
      RunsBounded(states, steps, d, g, i - 1);
      StepKeeps(states[i - 1], steps[i - 1], d, g);
    }
  }

  lemma {:induction false} RunsFollow(states: seq<Cpu>, steps: seq<Step>, d: nat, g: nat, i: nat, j: nat)
    requires IsRun(states, steps, d) && g < |states[0].queues| && i <= j < |states|
    ensures |states[i].queues| == |states[j].queues| == |states[0].queues|
    ensures Follows(states[i].queues[g], states[j].queues[g])
    decreases j - i
  {
    RunsBounded(states, steps, d, g, i);
    if i == j {
      FollowsItself(states[i].queues[g]);
    } else {
      RunsFollow(states, steps, d, g, i, j - 1);
      RunsBounded(states, steps, d, g, j - 1);
      StepKeeps(states[j - 1], steps[j - 1], d, g);
      FollowsCompose(states[i].queues[g], states[j - 1].queues[g], states[j].queues[g]);
    }
  }

  /** rt_time never exceeds R + 2d, and between any two moments with N periods elapsed
      the queue is charged at most (N + 1) R + 2d. */
  lemma ThrottlingBound(states: seq<Cpu>, steps: seq<Step>, d: nat, g: nat, i: nat, j: nat)
    requires IsRun(states, steps, d) && g < |states[0].queues| && i <= j < |states|
    requires Limited(states[0].queues[g])
    ensures |states[i].queues| == |states[j].queues| == |states[0].queues|
    ensures states[j].queues[g].time <= states[0].queues[g].runtime + 2 * d
    ensures states[j].queues[g].throttled ==> states[j].queues[g].time >= states[0].queues[g].runtime
    ensures var n := states[j].queues[g].periods - states[i].queues[g].periods;
            n >= 0 && states[j].queues[g].charged - states[i].queues[g].charged <= (n + 1) * states[0].queues[g].runtime + 2 * d
  {
    RunsFollow(states, steps, d, g, 0, i);
    RunsFollow(states, steps, d, g, i, j);
    RunsBounded(states, steps, d, g, i);
    RunsBounded(states, steps, d, g, j);
    ChargedBound(states[i].queues[g], states[j].queues[g], d);
  }

  lemma ChargedBound(q: Queue, r: Queue, d: nat)
    requires Limited(q) && Bounded(q, d) && Bounded(r, d) && Follows(q, r)
    ensures r.time <= q.runtime + 2 * d && (r.throttled ==> r.time >= q.runtime)
    ensures r.charged - q.charged <= (r.periods - q.periods + 1) * q.runtime + 2 * d
  {
    var n := r.periods - q.periods;
    assert (n + 1) * q.runtime == n * q.runtime + q.runtime;
  }

  // ---------------------------------------------------------------- within the budget

  /** The state after the last expiry of queue `g`'s timer within the first `i` steps, or the first state. */
  ghost function LastTimer(steps: seq<Step>, g: nat, i: nat): (k: nat)
    requires i <= |steps|
    ensures k <= i
  {
    if i == 0 || (steps[i - 1].Timer? && steps[i - 1].g == g && steps[i - 1].overrun >= 1) then i else LastTimer(steps, g, i - 1)
  }

  /** Since that expiry queue `g` has been charged at most its runtime. */
  ghost predicate WithinRuntime(states: seq<Cpu>, steps: seq<Step>, g: nat, i: nat)
    requires i <= |steps| < |states|
  {
    var k := LastTimer(steps, g, i);
    g < |states[0].queues| && g < |states[i].queues| && g < |states[k].queues|
    && states[i].queues[g].charged - states[k].queues[g].charged <= states[0].queues[g].runtime
  }

  ghost predicate Frugal(states: seq<Cpu>, steps: seq<Step>, g: nat, n: nat)
    requires n <= |steps| < |states|
  {
    forall i :: 0 <= i <= n ==> WithinRuntime(states, steps, g, i)
  }

  /** A queue charged at most its runtime from each expiry of its timer to the next is never throttled, and
      each period starts with a clean account. */
  lemma {:induction false} FrugalNeverThrottled(states: seq<Cpu>, steps: seq<Step>, d: nat, g: nat, n: nat)
    requires IsRun(states, steps, d) && n <= |steps| && g < |states[0].queues| && Limited(states[0].queues[g])
    requires Frugal(states, steps, g, n)
    ensures g < |states[n].queues| && !states[n].queues[g].throttled
    ensures var k := LastTimer(steps, g, n);
            g < |states[k].queues| && states[n].queues[g].time == states[n].queues[g].charged - states[k].queues[g].charged
  {
    if n > 0 {
      hide Initial;
      FrugalNeverThrottled(states, steps, d, g, n - 1);
      RunsFollow(states, steps, d, g, 0, n - 1);
      FollowsRuntime(states[0].queues[g], states[n - 1].queues[g]);
      AssertStep(states, steps, d, n - 1);
      assert WithinRuntime(states, steps, g, n - 1) && WithinRuntime(states, steps, g, n);
      hide IsRun, ChargeOne, Replenish, Follows, Frugal, CanStep, Apply;
      FrugalStep(states[n - 1], steps[n - 1], d, g);
    }
  }

  lemma FollowsRuntime(q: Queue, r: Queue)
    requires Follows(q, r)
    ensures r.runtime == q.runtime && (Limited(q) ==> Limited(r))
  {
  }

  lemma AssertStep(states: seq<Cpu>, steps: seq<Step>, d: nat, i: nat)
    requires IsRun(states, steps, d) && i < |steps|
    ensures CanStep(states[i], steps[i], d) && states[i + 1] == Apply(states[i], steps[i], d)
  {
  }

  /** One step of a queue that is not throttled. */
  lemma FrugalStep(c: Cpu, step: Step, d: nat, g: nat)
    requires CanStep(c, step, d) && g < |c.queues| && Limited(c.queues[g]) && !c.queues[g].throttled
    ensures var q := c.queues[g]; var s := Apply(c, step, d);
            && |s.queues| == |c.queues|
            && var r := s.queues[g];
               if step.Timer? && step.g == g && step.overrun >= 1 then
                 r.charged == q.charged && !r.throttled && (q.time <= q.runtime ==> r.time == 0)
               else
                 r.charged >= q.charged && r.time == q.time + (r.charged - q.charged) && (r.throttled ==> r.time > q.runtime)
  {
    match step
    case SwitchTo(_) =>
    case Charge(delta) =>
      ChargePathAt(c.queues, c.path, delta, g);
      ChargeIs(c.queues[g], delta);
      hide ChargeOne;
    case Timer(h, overrun) =>
      ReplenishIs(c.queues[h], overrun);
      hide Replenish;
      if h == g { OneRuntime(overrun, c.queues[g].runtime); }
  }

  lemma OneRuntime(n: nat, runtime: nat)
    ensures n >= 1 ==> n * runtime >= runtime
    ensures n == 0 ==> n * runtime == 0
  {
  }

  // ---------------------------------------------------------------- without a limit

  /** `n` charges of one unit each, with no period elapsing. */
  ghost function Busy(q: Queue, n: nat): seq<Cpu> {
    seq(n + 1, (i: int) requires 0 <= i <= n => Cpu([Charged(q, i)], [0]))
  }

  ghost function Charged(q: Queue, n: nat): Queue {
    if n == 0 then q else ChargeOne(Charged(q, n - 1), 1).0
  }

  lemma {:induction false} ChargedFreely(q: Queue, n: nat)
    requires Initial(q) && !Limited(q) && q.runtime < RUNTIME_INF
    ensures Charged(q, n).charged == n && !Charged(q, n).throttled && !Charged(q, n).graced && Charged(q, n).periods == 0
    ensures Charged(q, n).runtime == q.runtime && Charged(q, n).period == q.period
  {
    if n > 0 { ChargedFreely(q, n - 1); }
  }

  lemma BusyStep(q: Queue, i: nat)
    requires Initial(q) && !Limited(q) && q.runtime < RUNTIME_INF
    ensures CanStep(Cpu([Charged(q, i)], [0]), Charge(1), 1)
    ensures Apply(Cpu([Charged(q, i)], [0]), Charge(1), 1) == Cpu([Charged(q, i + 1)], [0])
  {
    ChargedFreely(q, i);
    hide ChargeOne;
    ChargePathAt([Charged(q, i)], [0], 1, 0);
    assert ChargePath([Charged(q, i)], [0], 1).0 == [Charged(q, i + 1)];
  }

  lemma BusyRun(q: Queue, n: nat)
    requires Initial(q) && !Limited(q) && q.runtime < RUNTIME_INF
    ensures IsRun(Busy(q, n), seq(n, i => Charge(1)), 1)
    ensures Busy(q, n)[0] == Cpu([q], [0]) && Busy(q, n)[n] == Cpu([Charged(q, n)], [0])
  {
    assert Charged(q, 0) == q;
    hide ChargeOne, Charged, CanStep, Apply, Initial;
    var states, steps := Busy(q, n), seq(n, i => Charge(1));
    forall i | 0 <= i < |steps|
      ensures CanStep(states[i], steps[i], 1) && states[i + 1] == Apply(states[i], steps[i], 1)
    {
      BusyStep(q, i);
    }
  }

  /** The condition is exact: a finite runtime of zero, or of a period or more, lets any
      amount be charged within one period. */
  lemma UnlimitedIsUnbounded(q: Queue, bound: nat)
    requires Initial(q) && !Limited(q) && q.runtime < RUNTIME_INF
    ensures exists states: seq<Cpu>, steps: seq<Step> :: IsRun(states, steps, 1) && states[0] == Cpu([q], [0])
              && var last := states[|states| - 1]; |last.queues| == 1 && last.queues[0].charged > bound && last.queues[0].periods == 0
  {
    hide IsRun, Charged, Initial;
    var n := bound + 1;
    BusyRun(q, n);
    ChargedFreely(q, n);
    assert |Busy(q, n)| == n + 1;
  }

  // ---------------------------------------------------------------- as written

  lemma ChargeFirst(qs: seq<Queue>, path: seq<nat>, i: nat, delta: nat)
    requires i < |path| && forall k :: 0 <= k < |path| ==> path[k] < |qs|
    ensures var (q, hit) := ChargeOne(qs[path[i]], delta);
            var rest := ChargePath(qs[path[i] := q], path[i + 1..], delta);
            ChargePath(qs, path[i..], delta) == (rest.0, hit || rest.1)
  {
    hide ChargeOne;
    assert path[i..][1..] == path[i + 1..];
  }

  /** The body of update_curr_rt's loop. */
  method ChargeQueue(q: Queue, delta: nat) returns (r: Queue, hit: bool)
    ensures (r, hit) == ChargeOne(q, delta)
    ensures if q.runtime == RUNTIME_INF then r == q else ChargedBy(q, r, delta)
  {
    ChargeIs(q, delta);
    r, hit := q, false;
    if q.runtime != RUNTIME_INF {
      r := r.(time := r.time + delta, charged := r.charged + delta, graced := r.throttled);
      if r.throttled { return r, true; }
      if r.runtime >= r.period { return; }
      if r.time > r.runtime {
        if r.runtime != 0 {
          r := r.(throttled := true);
        } else {
          r := r.(time := 0);
        }
        hit := r.throttled;
      }
    }
  }

  /** update_curr_rt's walk over the enclosing queues. */
  method UpdateCurrRt(a: array<Queue>, path: seq<nat>, delta: nat) returns (resched: bool)
    requires PathOk(a[..], path)
    modifies a
    ensures (a[..], resched) == ChargePath(old(a[..]), path, delta)
    ensures resched <==> exists i :: 0 <= i < |path| && old(a[path[i]].runtime) != RUNTIME_INF && a[path[i]].throttled
  {
    ChargeSignals(a[..], path, delta);
    ghost var goal := ChargePath(a[..], path, delta);
    hide ChargeOne;
    resched := false;
    var i: nat := 0;
    assert path[0..] == path;
    while i < |path|
      invariant i <= |path|
      invariant ChargePath(a[..], path[i..], delta).0 == goal.0
      invariant (resched || ChargePath(a[..], path[i..], delta).1) == goal.1
    {
      var g := path[i];
      ghost var before := a[..];
      ChargeFirst(before, path, i, delta);
      var r, hit := ChargeQueue(a[g], delta);
      a[g] := r;
      assert a[..] == before[g := r];
      if hit { resched := true; }
      i := i + 1;
    }
  }

  /** One queue's part of do_sched_rt_period_timer; `kick` asks for sched_rt_rq_enqueue. */
  method TimerQueue(was: Queue, nrRunning: nat, overrun: nat) returns (q: Queue, kick: bool)
    ensures q == Replenish(was, overrun)
    ensures kick <==> Kicked(was, q, nrRunning)
    ensures Credited(was, q, overrun)
    ensures was.throttled && was.time > 0 ==> (kick <==> 0 < was.runtime && was.time < (overrun + 1) * was.runtime)
  {
    ReplenishIs(was, overrun);
    kick := false;
    q := was.(periods := was.periods + overrun);
    if q.time != 0 {
      var off := Min(q.time, overrun * q.runtime);
      q := q.(time := q.time - off, credited := q.credited + off);
      if q.throttled && q.time < q.runtime {
        q := q.(throttled := false, graced := false);
        kick := true;
      }
    } else if nrRunning != 0 && !q.throttled {
      kick := true;
    }
  }

  /** A queue is put back when its throttling ends, or when it has tasks and nothing to pay off. */
  predicate Kicked(was: Queue, now: Queue, nrRunning: nat) {
    (was.throttled && !now.throttled) || (was.time == 0 && nrRunning != 0 && !was.throttled)
  }

  /** do_sched_rt_period_timer's loop over a group's queues, one for each CPU. The timer stops
      when every queue is empty with a clean account, or when no limit is in force (`noLimit`)
      and nothing is throttled. `kick` are the queues handed to sched_rt_rq_enqueue. */
  method PeriodTimer(a: array<Queue>, nrRunning: seq<nat>, overrun: nat, noLimit: bool) returns (stop: bool, kick: seq<bool>)
    requires |nrRunning| == a.Length
    modifies a
    ensures forall g :: 0 <= g < a.Length ==> a[g] == Replenish(old(a[g]), overrun) && Credited(old(a[g]), a[g], overrun)
    ensures |kick| == a.Length && forall g :: 0 <= g < a.Length ==> (kick[g] <==> Kicked(old(a[g]), a[g], nrRunning[g]))
    ensures stop <==> || (noLimit && forall g :: 0 <= g < a.Length ==> !a[g].throttled)
                      || (forall g :: 0 <= g < a.Length ==> a[g].time == 0 && nrRunning[g] == 0)
  {
    hide Replenish, Kicked, Credited;
    var idle, throttled := true, false;
    kick := [];
    for i := 0 to a.Length
      invariant forall g :: 0 <= g < i ==> a[g] == Replenish(old(a[g]), overrun) && Credited(old(a[g]), a[g], overrun)
      invariant forall g :: i <= g < a.Length ==> a[g] == old(a[g])
      invariant |kick| == i && forall g :: 0 <= g < i ==> (kick[g] <==> Kicked(old(a[g]), a[g], nrRunning[g]))
      invariant idle <==> forall g :: 0 <= g < i ==> a[g].time == 0 && nrRunning[g] == 0
      invariant throttled <==> exists g :: 0 <= g < i && a[g].throttled
    {
      var q, k := TimerQueue(a[i], nrRunning[i], overrun);
      if q.time != 0 || nrRunning[i] != 0 { idle := false; }
      if q.throttled { throttled := true; }
      a[i] := q;
      kick := kick + [k];
    }
    stop := if !throttled && noLimit then true else idle;
  }
}
