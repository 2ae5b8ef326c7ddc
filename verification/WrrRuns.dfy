/** Runs of one CPU as the weighted round-robin class sees them: ticks, scheduling decisions with
    any outcome of the throttle, arrivals, departures and yields. */
module WrrRuns {
  import opened Lists
  import opened WrrQueue

  /** Who has the CPU: a task of this class, or somebody of another class. */
  datatype Running = Other | Wrr(id: nat)

  datatype State = State(q: seq<Ent<nat>>, curr: Running, resched: bool)

  datatype Step =
    | TickStep(throttled: bool)                 // the timer tick while a task of this class runs
    | Schedule(preempted: bool, throttled: bool) // pick_next_task; a higher class may win
    | WantResched                               // TIF_NEED_RESCHED from elsewhere
    | Elsewhere                                 // something that does not concern this class
    | Arrive(id: nat, weight: nat)              // enqueue at the tail, of a queued task after its dequeue
    | Depart(id: nat)                           // dequeue: sleep, exit, change of class
    | Yield                                     // yield_task_wrr

  /** A pending reschedule is carried out before the next tick. */
  predicate Enabled(s: State, step: Step) {
    match step
    case TickStep(_) => s.curr.Wrr? && !s.resched && Queued(s.q, s.curr.id)
    case Schedule(_, _) => true
    case WantResched => true
    case Elsewhere => true
    case Arrive(id, weight) => weight >= 1 && (Queued(s.q, id) ==> s.curr != Wrr(id))
    case Depart(id) => Queued(s.q, id)
    case Yield => s.curr.Wrr? && Queued(s.q, s.curr.id)
  }

  function Apply(s: State, step: Step, unit: nat): State
    requires Enabled(s, step)
  {
    match step
    case TickStep(throttled) =>
      var i := IndexOf(s.q, s.curr.id);
      State(Tick(s.q, s.curr.id, throttled, unit), s.curr, s.q[i].slice <= 1 && (|s.q| > 1 || throttled))
    case Schedule(preempted, throttled) =>
      s.(curr := if preempted || s.q == [] || throttled then Other else Wrr(s.q[0].id), resched := false)
    case WantResched => s.(resched := true)
    case Elsewhere => s
    case Arrive(id, weight) => s.(q := Enqueue(s.q, id, weight, unit, false))
    case Depart(id) =>
      var gone := s.curr == Wrr(id);
      State(Remove(s.q, id), if gone then Other else s.curr, gone || s.resched)
    case Yield => s.(q := Requeue(s.q, s.curr.id, false), resched := true)
  }

  /** The task that runs is the head of the list unless a reschedule is pending. */
  ghost predicate Ok(s: State, unit: nat) {
    && DistinctIds(s.q) && Slices(s.q, unit)
    && (s.curr.Wrr? ==> Queued(s.q, s.curr.id))
    && (s.curr.Wrr? && !s.resched ==> s.q[0].id == s.curr.id)
  }

  // ---------------------------------------------------------------- lists

  lemma IndexIs<T>(q: seq<Ent<T>>, i: nat)
    requires DistinctIds(q) && i < |q|
    ensures Queued(q, q[i].id) && IndexOf(q, q[i].id) == i
  {
  }

  lemma RemoveAtOk<T>(q: seq<Ent<T>>, j: nat, unit: nat)
    requires DistinctIds(q) && Slices(q, unit) && j < |q|
    ensures DistinctIds(RemoveAt(q, j)) && Slices(RemoveAt(q, j), unit)
    ensures forall id :: Queued(RemoveAt(q, j), id) <==> Queued(q, id) && id != q[j].id
  {
    var r := RemoveAt(q, j);
    assert forall i :: 0 <= i < |r| ==> r[i] == if i < j then q[i] else q[i + 1];
    forall id | Queued(q, id) && id != q[j].id
      ensures Queued(r, id)
    {
      var i := IndexOf(q, id);
      assert r[if i < j then i else i - 1].id == id;
    }
  }

  lemma AppendOk<T>(q: seq<Ent<T>>, e: Ent<T>, unit: nat)
    requires DistinctIds(q) && Slices(q, unit) && !Queued(q, e.id)
    requires e.weight >= 1 && 1 <= e.slice <= e.weight * unit
    ensures DistinctIds(q + [e]) && Slices(q + [e], unit)
    ensures forall id :: Queued(q + [e], id) <==> Queued(q, id) || id == e.id
  {
    var r := q + [e];
    assert r[|q|] == e;
    forall id | Queued(q, id)
      ensures Queued(r, id)
    {
      var i := IndexOf(q, id);
      assert r[i].id == id;
    }
  }

  lemma TickHeadOk<T>(q: seq<Ent<T>>, unit: nat)
    requires q != [] && DistinctIds(q) && Slices(q, unit) && unit >= 1
    ensures DistinctIds(TickHead(q, unit)) && Slices(TickHead(q, unit), unit)
    ensures forall id :: Queued(TickHead(q, unit), id) <==> Queued(q, id)
  {
    var e := q[0];
    var r := TickHead(q, unit);
    if e.slice > 1 {
      assert forall i :: 0 < i < |q| ==> r[i] == q[i];
      assert forall i :: 0 <= i < |q| ==> r[i].id == q[i].id;
      forall id | Queued(q, id)
        ensures Queued(r, id)
      {
        assert r[IndexOf(q, id)].id == id;
      }
    } else {
      assert q[1..] == RemoveAt(q, 0);
      RemoveAtOk(q, 0, unit);
      assert e.weight * unit >= 1;
      AppendOk(q[1..], e.(slice := e.weight * unit), unit);
    }
  }

  // ---------------------------------------------------------------- invariant

  lemma StepKeepsOk(s: State, step: Step, unit: nat)
    requires Ok(s, unit) && Enabled(s, step) && unit >= 1
    ensures Ok(Apply(s, step, unit), unit)
  {
    match step
    case TickStep(throttled) =>
      TickOfHead(s.q, throttled, unit);
      TickHeadOk(s.q, unit);
    case Schedule(_, _) => if s.q != [] { IndexIs(s.q, 0); }
    case WantResched =>
    case Elsewhere =>
    case Arrive(id, weight) =>
      assert weight * unit >= 1;
      var q := Remove(s.q, id);
      if Queued(s.q, id) { RemoveAtOk(s.q, IndexOf(s.q, id), unit); }
      AppendOk(q, Ent(id, weight, weight * unit), unit);
      if s.curr.Wrr? && !s.resched { assert q[0] == s.q[0] && (q + [Ent(id, weight, weight * unit)])[0] == q[0]; }
    case Depart(id) =>
      RemoveAtOk(s.q, IndexOf(s.q, id), unit);
    case Yield =>
      var i := IndexOf(s.q, s.curr.id);
      RemoveAtOk(s.q, i, unit);
      AppendOk(RemoveAt(s.q, i), s.q[i], unit);
  }

  ghost predicate IsRun(states: seq<State>, steps: seq<Step>, unit: nat) {
    && |states| == |steps| + 1
    && Ok(states[0], unit)
    && forall i :: 0 <= i < |steps| ==>
         Enabled(states[i], steps[i]) && states[i + 1] == Apply(states[i], steps[i], unit)
  }

  lemma {:induction false} RunsKeepOk(states: seq<State>, steps: seq<Step>, unit: nat, i: nat)
    requires IsRun(states, steps, unit) && unit >= 1 && i < |states|
    ensures Ok(states[i], unit)
  {
    if i > 0 {
      RunsKeepOk(states, steps, unit, i - 1);
      StepKeepsOk(states[i - 1], steps[i - 1], unit);
    }
  }

  /** Ticks delivered to the class in the first `n` steps. */
  ghost function TickCount(steps: seq<Step>, n: nat): nat
    requires n <= |steps|
  {
    if n == 0 then 0 else TickCount(steps, n - 1) + if steps[n - 1].TickStep? then 1 else 0
  }

  /** Ticks delivered to task `id` in the first `n` steps. */
  ghost function Served(states: seq<State>, steps: seq<Step>, id: nat, n: nat): nat
    requires n <= |steps| && |states| == |steps| + 1
  {
    if n == 0 then 0
    else Served(states, steps, id, n - 1) +
         if steps[n - 1].TickStep? && states[n - 1].curr == Wrr(id) then 1 else 0
  }

  // ---------------------------------------------------------------- shares

  /** No arrivals, departures or yields; ticks and scheduling decisions in any order. */
  predicate Quiet(steps: seq<Step>) {
    forall i :: 0 <= i < |steps| ==> steps[i].TickStep? || steps[i].Schedule? || steps[i].WantResched? || steps[i].Elsewhere?
  }

  lemma QuietStep(s: State, step: Step, unit: nat)
    requires Ok(s, unit) && Enabled(s, step) && (step.TickStep? || step.Schedule? || step.WantResched? || step.Elsewhere?)
    ensures step.TickStep? ==> s.q != [] && s.curr == Wrr(s.q[0].id) && Apply(s, step, unit).q == TickHead(s.q, unit)
    ensures !step.TickStep? ==> Apply(s, step, unit).q == s.q
  {
    if step.TickStep? { TickOfHead(s.q, step.throttled, unit); }
  }

  /** In a quiet run only the number of ticks matters: the list is what that many head ticks make of it. */
  lemma {:induction false} QuietRun(states: seq<State>, steps: seq<Step>, unit: nat, id: nat, n: nat)
    requires IsRun(states, steps, unit) && unit >= 1 && n <= |steps| && Quiet(steps)
    requires states[0].q != []
    ensures states[n].q == Ticks(states[0].q, TickCount(steps, n), unit)
    ensures Served(states, steps, id, n) == Service(states[0].q, TickCount(steps, n), id, unit)
  {
    hide Ticks, Service, TickHead, Apply, Ok, Enabled;
    if n == 0 {
      NoTicks(states[0].q, id, unit);
    } else {
      QuietRun(states, steps, unit, id, n - 1);
      RunsKeepOk(states, steps, unit, n - 1);
      var s, q0, c := states[n - 1], states[0].q, TickCount(steps, n - 1);
      QuietStep(s, steps[n - 1], unit);
      if steps[n - 1].TickStep? {
        TicksAdd(q0, c, 1, id, unit);
        OneTick(s.q, id, unit);
      }
    }
  }

  lemma OneTick<T>(q: seq<Ent<T>>, id: T, unit: nat)
    requires q != []
    ensures Ticks(q, 1, unit) == TickHead(q, unit)
    ensures Service(q, 1, id, unit) == if q[0].id == id then 1 else 0
  {
    NoTicks(TickHead(q, unit), id, unit);
  }

  /** Exact shares in every quiet run from full slices: when the class has been given a whole number
      of rounds, each task has had exactly its part and the list is as at the start. */
  lemma RunExactShares(states: seq<State>, steps: seq<Step>, unit: nat, i: nat, n: nat, k: nat)
    requires IsRun(states, steps, unit) && unit >= 1 && n <= |steps| && Quiet(steps)
    requires i < |states[0].q| && Full(states[0].q, unit)
    requires TickCount(steps, n) == k * (WeightSum(states[0].q) * unit)
    ensures states[n].q == states[0].q
    ensures Served(states, steps, states[0].q[i].id, n) == k * (states[0].q[i].weight * unit)
  {
    var q := states[0].q;
    QuietRun(states, steps, unit, q[i].id, n);
    ExactShares(q, i, k, unit);
  }

  /** And at every moment of such a run the service is within one slice of the weighted share. */
  lemma RunShareBound(states: seq<State>, steps: seq<Step>, unit: nat, i: nat, n: nat)
    requires IsRun(states, steps, unit) && unit >= 1 && n <= |steps| && Quiet(steps)
    requires i < |states[0].q| && Full(states[0].q, unit)
    ensures var q := states[0].q; var w := WeightSum(q);
            var got := Served(states, steps, q[i].id, n);
            -(w * (q[i].weight * unit)) <= w * got - TickCount(steps, n) * q[i].weight <= w * (q[i].weight * unit)
  {
    QuietRun(states, steps, unit, states[0].q[i].id, n);
    ShareBound(states[0].q, i, TickCount(steps, n), unit);
  }

  // ---------------------------------------------------------------- no starvation

  /** The ticks still owed to the tasks ahead of `t`. */
  function Ahead<T(==)>(q: seq<Ent<T>>, t: T): nat
    requires Queued(q, t)
  {
    SliceSum(q[..IndexOf(q, t)])
  }

  /** The step is no departure, requeueing or yield of `t` itself. */
  predicate Spares(s: State, step: Step, t: nat) {
    match step
    case Depart(id) => id != t
    case Arrive(id, _) => id != t
    case Yield => s.curr != Wrr(t)
    case _ => true
  }

  /** The measure, given the position of `t`. */
  lemma AheadIs<T>(q: seq<Ent<T>>, k: nat, t: T)
    requires DistinctIds(q) && k < |q| && q[k].id == t
    ensures Queued(q, t) && IndexOf(q, t) == k && Ahead(q, t) == SliceSum(q[..k])
  {
    IndexIs(q, k);
  }

  lemma SumWithout<T>(q: seq<Ent<T>>, j: nat, k: nat)
    requires j < k <= |q|
    ensures SliceSum(q[..j] + q[j + 1..k]) <= SliceSum(q[..k])
  {
    hide SliceSum;
    assert q[..k] == q[..j] + ([q[j]] + q[j + 1..k]);
    SliceSumConcat(q[..j], q[j + 1..k]);
    SliceSumConcat(q[..j], [q[j]] + q[j + 1..k]);
    SliceSumConcat([q[j]], q[j + 1..k]);
  }

  lemma RemovePrefix<T>(q: seq<Ent<T>>, j: nat, k: nat)
    requires j < |q| && k < |q| && j != k
    ensures |RemoveAt(q, j)| == |q| - 1
    ensures j < k ==> RemoveAt(q, j)[k - 1] == q[k] && RemoveAt(q, j)[..k - 1] == q[..j] + q[j + 1..k]
    ensures k < j ==> RemoveAt(q, j)[k] == q[k] && RemoveAt(q, j)[..k] == q[..k]
  {
  }

  lemma AheadRemove<T>(q: seq<Ent<T>>, j: nat, t: T, unit: nat)
    requires DistinctIds(q) && Slices(q, unit) && j < |q| && Queued(q, t) && q[j].id != t
    ensures Queued(RemoveAt(q, j), t)
    ensures Ahead(RemoveAt(q, j), t) <= Ahead(q, t)
  {
    hide SliceSum, Slices, DistinctIds, Queued, Ahead, RemoveAt, IndexOf;
    RemoveAtOk(q, j, unit);
    var r, k := RemoveAt(q, j), IndexOf(q, t);
    RemovePrefix(q, j, k);
    AheadIs(q, k, t);
    if j < k {
      AheadIs(r, k - 1, t);
      SumWithout(q, j, k);
    } else {
      AheadIs(r, k, t);
    }
  }

  lemma AheadAppend<T>(q: seq<Ent<T>>, e: Ent<T>, t: T, unit: nat)
    requires DistinctIds(q) && Slices(q, unit) && Queued(q, t) && !Queued(q, e.id)
    requires e.weight >= 1 && 1 <= e.slice <= e.weight * unit
    ensures Queued(q + [e], t) && Ahead(q + [e], t) == Ahead(q, t)
  {
    AppendOk(q, e, unit);
    var k := IndexOf(q, t);
    IndexIs(q + [e], k);
    assert (q + [e])[..k] == q[..k];
  }

  /** An arrival at the head, as a deboost makes it, pushes every waiting task back by a full slice:
      this is why head arrivals are no part of the runs below. */
  lemma AheadPushedBack<T>(q: seq<Ent<T>>, id: T, weight: nat, t: T, unit: nat)
    requires DistinctIds(q) && Queued(q, t) && !Queued(q, id)
    ensures Queued(Enqueue(q, id, weight, unit, true), t)
    ensures Ahead(Enqueue(q, id, weight, unit, true), t) == weight * unit + Ahead(q, t)
  {
    var e := Ent(id, weight, weight * unit);
    assert Enqueue(q, id, weight, unit, true) == [e] + q;
    hide SliceSum, DistinctIds, IndexOf, Enqueue, Queued, Ahead;
    PrependDistinct(q, e);
    var r, k := [e] + q, IndexOf(q, t);
    PrependPrefix(q, e, k);
    AheadIs(q, k, t);
    AheadIs(r, k + 1, t);
    SliceSumConcat([e], q[..k]);
    OneSlice(e);
  }

  lemma PrependPrefix<T>(q: seq<Ent<T>>, e: Ent<T>, k: nat)
    requires k < |q|
    ensures ([e] + q)[k + 1] == q[k] && ([e] + q)[..k + 1] == [e] + q[..k]
  {
  }

  lemma OneSlice<T>(e: Ent<T>)
    ensures SliceSum([e]) == e.slice
  {
  }

  lemma PrependDistinct<T>(q: seq<Ent<T>>, e: Ent<T>)
    requires DistinctIds(q) && !Queued(q, e.id)
    ensures DistinctIds([e] + q)
  {
    var r := [e] + q;
    assert forall i :: 0 < i < |r| ==> r[i] == q[i - 1];
  }

  lemma AheadTick<T>(q: seq<Ent<T>>, t: T, unit: nat)
    requires unit >= 1 && DistinctIds(q) && Slices(q, unit) && Queued(q, t) && q[0].id != t
    ensures Queued(TickHead(q, unit), t) && Ahead(TickHead(q, unit), t) == Ahead(q, t) - 1
  {
    assert q[0].slice >= 1;
    hide SliceSum, Slices, DistinctIds, Queued, Ahead, TickHead, IndexOf;
    TickHeadOk(q, unit);
    var r, k := TickHead(q, unit), IndexOf(q, t);
    TickPrefix(q, k, unit);
    AheadIs(q, k, t);
    SliceSumConcat([q[0]], q[1..k]);
    OneSlice(q[0]);
    if q[0].slice > 1 {
      AheadIs(r, k, t);
      SliceSumConcat([r[0]], q[1..k]);
      OneSlice(r[0]);
    } else {
      AheadIs(r, k - 1, t);
    }
  }

  lemma TickPrefix<T>(q: seq<Ent<T>>, k: nat, unit: nat)
    requires 0 < k < |q|
    ensures q[..k] == [q[0]] + q[1..k]
    ensures var r := TickHead(q, unit);
            if q[0].slice > 1 then r[0].slice == q[0].slice - 1 && r[k] == q[k] && r[..k] == [r[0]] + q[1..k]
            else r[k - 1] == q[k] && r[..k - 1] == q[1..k]
  {
  }

  /** The measure never grows while `t` waits, and every tick of the class takes one from it. */
  lemma StepAhead(s: State, step: Step, t: nat, unit: nat)
    requires Ok(s, unit) && Enabled(s, step) && unit >= 1
    requires Queued(s.q, t) && s.q[0].id != t && Spares(s, step, t)
    ensures var r := Apply(s, step, unit);
            Queued(r.q, t) && Ahead(r.q, t) <= Ahead(s.q, t) - if step.TickStep? then 1 else 0
  {
    match step
    case TickStep(throttled) =>
      TickOfHead(s.q, throttled, unit);
      AheadTick(s.q, t, unit);
    case Schedule(_, _) =>
    case WantResched =>
    case Elsewhere =>
    case Arrive(id, weight) =>
      assert weight * unit >= 1;
      if Queued(s.q, id) {
        RemoveAtOk(s.q, IndexOf(s.q, id), unit);
        AheadRemove(s.q, IndexOf(s.q, id), t, unit);
      }
      AheadAppend(Remove(s.q, id), Ent(id, weight, weight * unit), t, unit);
    case Depart(id) =>
      AheadRemove(s.q, IndexOf(s.q, id), t, unit);
    case Yield =>
      var i := IndexOf(s.q, s.curr.id);
      RemoveAtOk(s.q, i, unit);
      AheadRemove(s.q, i, t, unit);
      AheadAppend(RemoveAt(s.q, i), s.q[i], t, unit);
  }

  lemma {:induction false} WaitingBound(states: seq<State>, steps: seq<Step>, t: nat, unit: nat, n: nat)
    requires IsRun(states, steps, unit) && unit >= 1 && n <= |steps|
    requires Queued(states[0].q, t)
    requires forall i :: 0 <= i < |steps| ==> Spares(states[i], steps[i], t)
    requires forall i :: 0 <= i < n && Queued(states[i].q, t) ==> states[i].q[0].id != t
    ensures Queued(states[n].q, t)
    ensures Ahead(states[n].q, t) + TickCount(steps, n) <= Ahead(states[0].q, t)
  {
    if n > 0 {
      WaitingBound(states, steps, t, unit, n - 1);
      RunsKeepOk(states, steps, unit, n - 1);
      StepAhead(states[n - 1], steps[n - 1], t, unit);
    }
  }

  lemma AheadPositive<T>(q: seq<Ent<T>>, t: T, unit: nat)
    requires Slices(q, unit) && Queued(q, t) && q[0].id != t
    ensures Ahead(q, t) >= 1
  {
    var k := IndexOf(q, t);
    assert q[..k][0] == q[0];
  }

  /** Freedom from starvation: by the time the class has been given the ticks owed to the tasks
      ahead of it, a queued task has been at the head, whoever arrives, leaves or yields meanwhile. */
  lemma NoStarvation(states: seq<State>, steps: seq<Step>, t: nat, unit: nat)
    requires IsRun(states, steps, unit) && unit >= 1
    requires Queued(states[0].q, t)
    requires forall i :: 0 <= i < |steps| ==> Spares(states[i], steps[i], t)
    requires TickCount(steps, |steps|) >= Ahead(states[0].q, t)
    ensures exists i :: 0 <= i < |states| && Queued(states[i].q, t) && states[i].q[0].id == t
  {
    if forall i :: 0 <= i < |states| && Queued(states[i].q, t) ==> states[i].q[0].id != t {
      WaitingBound(states, steps, t, unit, |steps|);
      RunsKeepOk(states, steps, unit, |steps|);
      AheadPositive(states[|steps|].q, t, unit);
    }
  }
}
