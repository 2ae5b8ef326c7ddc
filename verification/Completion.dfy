/** Completions and the wait-queue walk beneath them (core.c). */
module Completion {
  import opened Kernel
  import opened Lists

  const WRAP: nat := WORD               // `done` is an unsigned int
  const ALL: nat := 0x7FFF_FFFF         // UINT_MAX / 2

  /** A wait-queue entry; `awake` once its task has been made runnable since it last slept. */
  datatype Waiter = Waiter(task: nat, exclusive: bool, awake: bool, timeout: nat)

  /** A finished wait and the value it returned. */
  datatype Outcome = Outcome(task: nat, ret: int)

  /** `issued` totals what complete and complete_all added; `wraps` counts overflows of `done`. */
  datatype State = State(done: nat, queue: seq<Waiter>, issued: nat, wraps: nat, log: seq<Outcome>)

  // ---------------------------------------------------------------- waking a queue

  function WakeOne(w: Waiter): Waiter { w.(awake := true) }

  /** __wake_up_common: the walk stops once `nr` exclusive sleepers have been woken. */
  function WakeUp(q: seq<Waiter>, nr: int): seq<Waiter> {
    if q == [] then []
    else if !q[0].awake && q[0].exclusive then
      [WakeOne(q[0])] + (if nr - 1 == 0 then q[1..] else WakeUp(q[1..], nr - 1))
    else [WakeOne(q[0])] + WakeUp(q[1..], nr)
  }

  function Count(q: seq<Waiter>, f: Waiter -> bool): nat {
    if q == [] then 0 else (if f(q[0]) then 1 else 0) + Count(q[1..], f)
  }

  function Sleeper(w: Waiter): bool { !w.awake && w.exclusive }

  function Awake(w: Waiter): bool { w.awake }

  /** Entry `k` is reached iff fewer than `nr` exclusive sleepers stand before it
      (always, for a non-positive `nr`), and nothing else changes. */
  lemma {:induction false} WakeUpMeaning(q: seq<Waiter>, nr: int, k: nat)
    requires k < |q|
    ensures |WakeUp(q, nr)| == |q|
    ensures WakeUp(q, nr)[k] == AfterWake(q, nr, k)
  {
    WakeUpLength(q, nr);
    if k > 0 {
      assert q[..k][1..] == q[1..][..k - 1];
      if Sleeper(q[0]) {
        if nr - 1 != 0 { WakeUpMeaning(q[1..], nr - 1, k - 1); }
      } else {
        WakeUpMeaning(q[1..], nr, k - 1);
      }
    }
  }

  lemma {:induction false} WakeUpLength(q: seq<Waiter>, nr: int)
    ensures |WakeUp(q, nr)| == |q|
  {
    if q != [] {
      WakeUpLength(q[1..], nr - 1);
      WakeUpLength(q[1..], nr);
    }
  }

  lemma CountPrefix(q: seq<Waiter>, i: nat, j: nat)
    requires i <= j <= |q|
    ensures Count(q[..i], Sleeper) <= Count(q[..j], Sleeper)
    ensures j == i + 1 ==> Count(q[..j], Sleeper) == Count(q[..i], Sleeper) + (if Sleeper(q[i]) then 1 else 0)
  {
    assert q[..j] == q[..i] + q[i..j];
    CountConcat(q[..i], q[i..j], Sleeper);
    if j == i + 1 { assert q[i..j] == [q[i]]; }
  }

  /** Whether the walk gets to entry `k`. */
  predicate Reaches(q: seq<Waiter>, nr: int, k: nat)
    requires k <= |q|
  {
    nr <= 0 || Count(q[..k], Sleeper) < nr
  }

  function AfterWake(q: seq<Waiter>, nr: int, k: nat): Waiter
    requires k < |q|
  {
    if Reaches(q, nr, k) then WakeOne(q[k]) else q[k]
  }

  lemma WakeUpAll(q: seq<Waiter>, nr: int)
    ensures |WakeUp(q, nr)| == |q|
    ensures forall k :: 0 <= k < |q| ==>
              WakeUp(q, nr)[k] == AfterWake(q, nr, k)
  {
    WakeUpLength(q, nr);
    forall k | 0 <= k < |q|
      ensures WakeUp(q, nr)[k] == AfterWake(q, nr, k)
    {
      WakeUpMeaning(q, nr, k);
    }
  }

  /** The walk over the list. */
  method WakeUpCommon(q: seq<Waiter>, nrExclusive: int) returns (r: seq<Waiter>)
    ensures |r| == |q| && forall k :: 0 <= k < |q| ==> r[k] == AfterWake(q, nrExclusive, k)
    ensures r == WakeUp(q, nrExclusive)
  {
    assert Remaining(q, nrExclusive, 0, nrExclusive);
    hide WakeUp, Count, Reaches, AfterWake;
    WakeUpAll(q, nrExclusive);
    var nr := nrExclusive;
    r := q;
    var i: nat := 0;
    while i < |q|
      invariant i <= |q| == |r|
      invariant forall k :: i <= k < |q| ==> r[k] == q[k]
      invariant forall k :: 0 <= k < i ==> r[k] == AfterWake(q, nrExclusive, k)
      invariant Remaining(q, nrExclusive, i, nr)
    {
      WalkStep(q, nrExclusive, i, nr);
      var woken, exclusive := !r[i].awake, r[i].exclusive;
      r := r[i := WakeOne(r[i])];
      i := i + 1;
      if woken && exclusive {
        nr := nr - 1;
        if nr == 0 { break; }
      }
    }
  }

  /** The loop variable against the number of sleepers passed. */
  ghost predicate Remaining(q: seq<Waiter>, nr0: int, i: nat, nr: int)
    requires i <= |q|
  {
    nr == nr0 - Count(q[..i], Sleeper) && (nr0 <= 0 || nr > 0)
  }

  lemma WalkStep(q: seq<Waiter>, nr0: int, i: nat, nr: int)
    requires i < |q| && Remaining(q, nr0, i, nr)
    ensures AfterWake(q, nr0, i) == WakeOne(q[i])
    ensures if !Sleeper(q[i]) then Remaining(q, nr0, i + 1, nr)
            else if nr - 1 != 0 then Remaining(q, nr0, i + 1, nr - 1)
            else forall k :: i < k < |q| ==> AfterWake(q, nr0, k) == q[k]
  {
    CountPrefix(q, i, i + 1);
    if Sleeper(q[i]) && nr - 1 == 0 {
      forall k | i < k < |q|
        ensures AfterWake(q, nr0, k) == q[k]
      {
        CountPrefix(q, i + 1, k);
      }
    }
  }

  // ---------------------------------------------------------------- critical sections

  function Issue(s: State, n: nat, nr: int): State {
    State((s.done + n) % WRAP, WakeUp(s.queue, nr), s.issued + n,
          s.wraps + (if s.done + n >= WRAP then 1 else 0), s.log)
  }

  function Complete(s: State): State { Issue(s, 1, 1) }

  function CompleteAll(s: State): State { Issue(s, ALL, 0) }

  function Consume(s: State, task: nat, timeout: int): State
    requires s.done > 0
  {
    s.(done := s.done - 1, log := s.log + [Outcome(task, if timeout != 0 then timeout else 1)])
  }

  /** The end of do_wait_for_common, from __remove_wait_queue on. */
  function Leave(s: State, k: nat, timeout: int): State
    requires k < |s.queue|
  {
    var task := s.queue[k].task;
    var t := s.(queue := RemoveAt(s.queue, k));
    if t.done == 0 then t.(log := t.log + [Outcome(task, timeout)]) else Consume(t, task, timeout)
  }

  /** One turn of the loop, up to the point where the lock is released. */
  function Turn(s: State, k: nat, timeout: nat, signal: bool): State
    requires k < |s.queue|
  {
    if signal then Leave(s, k, -ERESTARTSYS)
    else s.(queue := s.queue[k := s.queue[k].(awake := false, timeout := timeout)])
  }

  /** do_wait_for_common, entered by `task`. */
  function Arrive(s: State, task: nat, timeout: nat, signal: bool): State {
    if s.done != 0 then Consume(s, task, timeout)
    else Turn(s.(queue := s.queue + [Waiter(task, true, true, timeout)]), |s.queue|, timeout, signal)
  }

  /** ... continued when schedule_timeout has returned `left`. */
  function Resume(s: State, k: nat, left: nat, signal: bool): State
    requires k < |s.queue|
  {
    if s.done == 0 && left != 0 then Turn(s, k, left, signal) else Leave(s, k, left)
  }

  function TryWait(s: State, task: nat): State {
    if s.done == 0 then s.(log := s.log + [Outcome(task, 0)])
    else s.(done := s.done - 1, log := s.log + [Outcome(task, 1)])
  }

  // ---------------------------------------------------------------- invariant

  function Successes(log: seq<Outcome>): nat {
    if log == [] then 0 else (if log[|log| - 1].ret > 0 then 1 else 0) + Successes(log[..|log| - 1])
  }

  ghost predicate Inv(s: State) {
    && s.done < WRAP
    && Successes(s.log) + s.done + s.wraps * WRAP == s.issued
    && (forall k :: 0 <= k < |s.queue| ==> s.queue[k].exclusive)
    && (Count(s.queue, Sleeper) > 0 ==> s.done <= Count(s.queue, Awake))
  }

  lemma {:induction false} CountConcat(a: seq<Waiter>, b: seq<Waiter>, f: Waiter -> bool)
    ensures Count(a + b, f) == Count(a, f) + Count(b, f)
  {
    if a == [] {
      assert a + b == b;
    } else {
      assert (a + b)[1..] == a[1..] + b;
      CountConcat(a[1..], b, f);
    }
  }

  lemma CountOne(w: Waiter, f: Waiter -> bool)
    ensures Count([w], f) == if f(w) then 1 else 0
  {
  }

  lemma CountRemove(q: seq<Waiter>, k: nat, f: Waiter -> bool)
    requires k < |q|
    ensures Count(RemoveAt(q, k), f) == Count(q, f) - (if f(q[k]) then 1 else 0)
  {
    hide Count, RemoveAt;
    var a, b := SplitAt(q, k);
    CountConcat(a, [q[k]] + b, f);
    CountConcat([q[k]], b, f);
    CountConcat(a, b, f);
    CountOne(q[k], f);
  }

  lemma CountUpdate(q: seq<Waiter>, k: nat, w: Waiter, f: Waiter -> bool)
    requires k < |q|
    ensures Count(q[k := w], f) == Count(q, f) - (if f(q[k]) then 1 else 0) + (if f(w) then 1 else 0)
  {
    var r := q[k := w];
    CountRemove(q, k, f);
    CountRemove(r, k, f);
    assert RemoveAt(q, k) == RemoveAt(r, k);
  }

  /** Every entry is either a sleeper or awake. */
  lemma {:induction false} CountAll(q: seq<Waiter>)
    requires forall k :: 0 <= k < |q| ==> q[k].exclusive
    ensures Count(q, Sleeper) + Count(q, Awake) == |q|
  {
    if q != [] { CountAll(q[1..]); }
  }

  /** Waking for `nr` turns min(nr, sleepers) of them, and all of them for nr <= 0. */
  lemma {:induction false} WakeUpCounts(q: seq<Waiter>, nr: int)
    requires forall k :: 0 <= k < |q| ==> q[k].exclusive
    ensures forall k :: 0 <= k < |WakeUp(q, nr)| ==> WakeUp(q, nr)[k].exclusive
    ensures var n := Count(q, Sleeper);
            var woken := if nr <= 0 || nr > n then n else nr;
            Count(WakeUp(q, nr), Sleeper) == n - woken && Count(WakeUp(q, nr), Awake) == Count(q, Awake) + woken
  {
    if q != [] {
      var rest := if Sleeper(q[0]) then (if nr - 1 == 0 then q[1..] else WakeUp(q[1..], nr - 1)) else WakeUp(q[1..], nr);
      assert WakeUp(q, nr) == [WakeOne(q[0])] + rest;
      assert WakeUp(q, nr)[1..] == rest;
      WakeUpCounts(q[1..], if Sleeper(q[0]) then nr - 1 else nr);
    }
  }

  lemma IssueKeeps(s: State, n: nat, nr: int)
    requires Inv(s) && n < WRAP && (nr <= 0 || n == nr == 1)
    ensures Inv(Issue(s, n, nr))
  {
    WakeUpCounts(s.queue, nr);
    var d := s.done + n;
    if d >= WRAP {
      assert d % WRAP == d - WRAP;
      assert (s.wraps + 1) * WRAP == s.wraps * WRAP + WRAP;
    }
  }

  lemma LogGrows(log: seq<Outcome>, o: Outcome)
    ensures Successes(log + [o]) == Successes(log) + (if o.ret > 0 then 1 else 0)
  {
    assert (log + [o])[..|log|] == log;
  }

  lemma ConsumeKeeps(s: State, task: nat, timeout: nat)
    requires Inv(s) && s.done > 0
    ensures Inv(Consume(s, task, timeout))
  {
    LogGrows(s.log, Outcome(task, if timeout != 0 then timeout else 1));
  }

  lemma LeaveKeeps(s: State, k: nat, timeout: int)
    requires Inv(s) && k < |s.queue| && s.queue[k].awake
    requires timeout >= 0 || s.done == 0
    requires timeout > 0 ==> s.done > 0
    ensures Inv(Leave(s, k, timeout))
  {
    hide Count, Successes;
    CountRemove(s.queue, k, Sleeper);
    CountRemove(s.queue, k, Awake);
    LogGrows(s.log, Outcome(s.queue[k].task, timeout));
    LogGrows(s.log, Outcome(s.queue[k].task, if timeout != 0 then timeout else 1));
  }

  lemma TurnKeeps(s: State, k: nat, timeout: nat, signal: bool)
    requires Inv(s) && k < |s.queue| && s.queue[k].awake && s.done == 0
    ensures Inv(Turn(s, k, timeout, signal))
  {
    if signal { LeaveKeeps(s, k, -ERESTARTSYS); }
  }

  // ---------------------------------------------------------------- runs

  datatype Step =
    | DoComplete
    | DoCompleteAll
    | DoArrive(task: nat, timeout: nat, signal: bool)
    | WakeFromElsewhere(k: nat)        // a signal, the timer, or any other wakeup
    | DoResume(k: nat, left: nat, signal: bool)
    | DoTry(task: nat)

  ghost predicate CanStep(s: State, step: Step) {
    match step
    case WakeFromElsewhere(k) => k < |s.queue|
    case DoResume(k, left, _) => k < |s.queue| && s.queue[k].awake && left <= s.queue[k].timeout
    case _ => true
  }

  function Apply(s: State, step: Step): State
    requires CanStep(s, step)
  {
    match step
    case DoComplete => Complete(s)
    case DoCompleteAll => CompleteAll(s)
    case DoArrive(t, timeout, signal) => Arrive(s, t, timeout, signal)
    case WakeFromElsewhere(k) => s.(queue := s.queue[k := WakeOne(s.queue[k])])
    case DoResume(k, left, signal) => Resume(s, k, left, signal)
    case DoTry(t) => TryWait(s, t)
  }

  lemma ArriveKeeps(s: State, task: nat, timeout: nat, signal: bool)
    requires Inv(s)
    ensures Inv(Arrive(s, task, timeout, signal))
  {
    if s.done != 0 {
      ConsumeKeeps(s, task, timeout);
    } else {
      TurnKeeps(s.(queue := s.queue + [Waiter(task, true, true, timeout)]), |s.queue|, timeout, signal);
    }
  }

  lemma ResumeKeeps(s: State, k: nat, left: nat, signal: bool)
    requires Inv(s) && k < |s.queue| && s.queue[k].awake
    ensures Inv(Resume(s, k, left, signal))
  {
    if s.done == 0 && left != 0 { TurnKeeps(s, k, left, signal); } else { LeaveKeeps(s, k, left); }
  }

  lemma WakeKeeps(s: State, k: nat)
    requires Inv(s) && k < |s.queue|
    ensures Inv(s.(queue := s.queue[k := WakeOne(s.queue[k])]))
  {
    CountUpdate(s.queue, k, WakeOne(s.queue[k]), Sleeper);
    CountUpdate(s.queue, k, WakeOne(s.queue[k]), Awake);
  }

  lemma TryKeeps(s: State, task: nat)
    requires Inv(s)
    ensures Inv(TryWait(s, task))
  {
    LogGrows(s.log, Outcome(task, 0));
    LogGrows(s.log, Outcome(task, 1));
  }

  lemma StepKeeps(s: State, step: Step)
    requires Inv(s) && CanStep(s, step)
    ensures Inv(Apply(s, step))
  {
    match step
    case DoComplete => IssueKeeps(s, 1, 1);
    case DoCompleteAll => IssueKeeps(s, ALL, 0);
    case DoArrive(t, timeout, signal) => ArriveKeeps(s, t, timeout, signal);
    case WakeFromElsewhere(k) => WakeKeeps(s, k);
    case DoResume(k, left, signal) => ResumeKeeps(s, k, left, signal);
    case DoTry(t) => TryKeeps(s, t);
  }

  ghost predicate IsRun(states: seq<State>, steps: seq<Step>) {
    && |states| == |steps| + 1 && states[0] == State(0, [], 0, 0, [])
    && forall i :: 0 <= i < |steps| ==> CanStep(states[i], steps[i]) && states[i + 1] == Apply(states[i], steps[i])
  }

  lemma {:induction false} RunsKeepInv(states: seq<State>, steps: seq<Step>, i: nat)
    requires IsRun(states, steps) && i < |states|
    ensures Inv(states[i])
  {
    if i > 0 {
      RunsKeepInv(states, steps, i - 1);
      StepKeeps(states[i - 1], steps[i - 1]);
    }
  }

  ghost function CompletesIn(steps: seq<Step>): nat {
    if steps == [] then 0
    else (if steps[|steps| - 1].DoComplete? then 1 else 0) + CompletesIn(steps[..|steps| - 1])
  }

  lemma {:induction false} IssuedIsCompletes(states: seq<State>, steps: seq<Step>, i: nat)
    requires IsRun(states, steps) && i < |states| && forall j :: 0 <= j < i ==> !steps[j].DoCompleteAll?
    ensures states[i].issued == CompletesIn(steps[..i])
  {
    if i > 0 {
      IssuedIsCompletes(states, steps, i - 1);
      assert steps[..i][..i - 1] == steps[..i - 1];
      assert steps[..i][i - 1] == steps[i - 1];
    }
  }

  /** The counter has wrapped iff some complete call found it at its maximum. */
  lemma {:induction false} WrapsIff(states: seq<State>, steps: seq<Step>, i: nat)
    requires IsRun(states, steps) && i < |states| && forall j :: 0 <= j < i ==> !steps[j].DoCompleteAll?
    ensures states[i].wraps == 0 <==> NeverFull(states, steps, i)
  {
    if i > 0 {
      WrapsIff(states, steps, i - 1);
      RunsKeepInv(states, steps, i - 1);
      hide Inv, WakeUp;
      OneStepWraps(states[i - 1], steps[i - 1]);
    }
  }

  lemma OneStepWraps(s: State, step: Step)
    requires CanStep(s, step) && !step.DoCompleteAll? && s.done < WRAP
    ensures Apply(s, step).wraps == s.wraps + if step.DoComplete? && s.done == WRAP - 1 then 1 else 0
  {
    hide WakeUp, RemoveAt;
  }

  /** Every complete call so far found `done` below UINT_MAX. */
  ghost predicate NeverFull(states: seq<State>, steps: seq<Step>, i: nat)
    requires i <= |steps| < |states|
  {
    forall j :: 0 <= j < i && steps[j].DoComplete? ==> states[j].done < WRAP - 1
  }

  /** Without complete_all: successful waits plus `done` is the number of complete calls, exactly
      when no complete call found the 32-bit counter at its maximum; fewer than 2^32 calls never do. */
  lemma SuccessesPlusDone(states: seq<State>, steps: seq<Step>, i: nat)
    requires IsRun(states, steps) && i < |states| && forall j :: 0 <= j < i ==> !steps[j].DoCompleteAll?
    ensures Successes(states[i].log) + states[i].done == CompletesIn(steps[..i]) <==>
            forall j :: 0 <= j < i && steps[j].DoComplete? ==> states[j].done < WRAP - 1
    ensures CompletesIn(steps[..i]) < WRAP ==> Successes(states[i].log) + states[i].done == CompletesIn(steps[..i])
  {
    RunsKeepInv(states, steps, i);
    IssuedIsCompletes(states, steps, i);
    WrapsIff(states, steps, i);
    hide Count, Successes;
  }

  /** `n` complete calls in a row while nobody waits. */
  ghost function Burst(n: nat): seq<State> {
    seq(n + 1, i requires 0 <= i <= n => State(i % WRAP, [], i, i / WRAP, []))
  }

  ghost function BurstSteps(n: nat): seq<Step> {
    seq(n, _ => DoComplete)
  }

  lemma BurstStep(i: nat)
    ensures Complete(State(i % WRAP, [], i, i / WRAP, [])) == State((i + 1) % WRAP, [], i + 1, (i + 1) / WRAP, [])
  {
    if i % WRAP == WRAP - 1 {
      assert i + 1 == (i / WRAP + 1) * WRAP;
    } else {
      assert i + 1 == (i / WRAP) * WRAP + (i % WRAP + 1);
    }
  }

  lemma {:induction false} BurstCompletes(n: nat)
    ensures CompletesIn(BurstSteps(n)) == n
  {
    if n > 0 {
      BurstCompletes(n - 1);
      assert BurstSteps(n)[..n - 1] == BurstSteps(n - 1);
    }
  }

  /** And 2^32 calls can: then as many completions are lost as were issued. */
  lemma WrappedRunLosesAll()
    ensures var states, steps := Burst(WRAP), BurstSteps(WRAP);
            && IsRun(states, steps) && CompletesIn(steps) == WRAP
            && Successes(states[WRAP].log) + states[WRAP].done == 0
  {
    var states, steps := Burst(WRAP), BurstSteps(WRAP);
    assert states[0] == State(0, [], 0, 0, []);
    forall i | 0 <= i < |steps|
      ensures CanStep(states[i], steps[i]) && states[i + 1] == Apply(states[i], steps[i])
    {
      BurstStep(i);
    }
    BurstCompletes(WRAP);
  }

  /** No wakeup is lost: when no queued waiter is on its way, either nobody waits or nothing is available. */
  lemma NoLostWakeup(states: seq<State>, steps: seq<Step>, i: nat)
    requires IsRun(states, steps) && i < |states|
    requires forall k :: 0 <= k < |states[i].queue| ==> !states[i].queue[k].awake
    ensures states[i].queue == [] || states[i].done == 0
  {
    RunsKeepInv(states, steps, i);
    NoneAwake(states[i].queue);
    CountAll(states[i].queue);
  }

  lemma {:induction false} NoneAwake(q: seq<Waiter>)
    requires forall k :: 0 <= k < |q| ==> !q[k].awake
    ensures Count(q, Awake) == 0
  {
    if q != [] { NoneAwake(q[1..]); }
  }

  /** What arriving does: take a completion at once, or queue at the tail and sleep, or with a signal pending
      leave again with -ERESTARTSYS. */
  ghost predicate Arrived(s: State, t: State, task: nat, timeout: nat, signal: bool) {
    && t.issued == s.issued && t.wraps == s.wraps
    && (s.done > 0 ==>
          t.queue == s.queue && t.done == s.done - 1 && t.log == s.log + [Outcome(task, if timeout > 0 then timeout else 1)])
    && (s.done == 0 && !signal ==> t.queue == s.queue + [Waiter(task, true, false, timeout)] && t.done == 0 && t.log == s.log)
    && (s.done == 0 && signal ==> t.queue == s.queue && t.done == 0 && t.log == s.log + [Outcome(task, -512)])
  }

  lemma ArriveMeaning(s: State, task: nat, timeout: nat, signal: bool)
    ensures Arrived(s, Arrive(s, task, timeout, signal), task, timeout, signal)
  {
    if s.done == 0 {
      var q := s.queue + [Waiter(task, true, true, timeout)];
      assert RemoveAt(q, |s.queue|) == s.queue;
      assert q[|s.queue| := Waiter(task, true, false, timeout)] == s.queue + [Waiter(task, true, false, timeout)];
    }
  }

  /** A wait consumes a completion iff it returns a positive value; one ended by a signal
      or by its timeout leaves `done` alone, and no step logs more than one outcome. */
  lemma ConsumesIffPositive(s: State, step: Step)
    requires Inv(s) && CanStep(s, step) && !step.DoComplete? && !step.DoCompleteAll?
    ensures var t := Apply(s, step);
            || (t.log == s.log && t.done == s.done)
            || exists o :: t.log == s.log + [o] && t.done == s.done - (if o.ret > 0 then 1 else 0)
                           && (o.ret > 0 || o.ret == 0 || o.ret == -ERESTARTSYS)
  {
    var t := Apply(s, step);
    if t.log != s.log {
      var o := t.log[|t.log| - 1];
      assert t.log == s.log + [o];
    }
  }

  /** complete wakes the longest-waiting sleeper and nobody else. */
  lemma CompleteIsFifo(s: State, k: nat)
    requires Inv(s) && k < |s.queue| && Sleeper(s.queue[k]) && forall j :: 0 <= j < k ==> s.queue[j].awake
    ensures Complete(s).queue == s.queue[k := WakeOne(s.queue[k])]
  {
    var r := Complete(s).queue;
    WakeUpLength(s.queue, 1);
    forall j | 0 <= j < |s.queue|
      ensures r[j] == s.queue[k := WakeOne(s.queue[k])][j]
    {
      WakeUpMeaning(s.queue, 1, j);
      if j <= k {
        NoSleepers(s.queue[..j]);
      } else {
        assert s.queue[..j] == s.queue[..k] + [s.queue[k]] + s.queue[k + 1..j];
        CountConcat(s.queue[..k] + [s.queue[k]], s.queue[k + 1..j], Sleeper);
        CountConcat(s.queue[..k], [s.queue[k]], Sleeper);
      }
    }
  }

  lemma {:induction false} NoSleepers(q: seq<Waiter>)
    requires forall k :: 0 <= k < |q| ==> q[k].awake
    ensures Count(q, Sleeper) == 0
  {
    if q != [] { NoSleepers(q[1..]); }
  }

  // ---------------------------------------------------------------- as written

  class CompletionObject {
    var done: nat
    var queue: seq<Waiter>
    ghost var issued: nat
    ghost var wraps: nat
    ghost var log: seq<Outcome>

    ghost function Model(): State
      reads this
    {
      State(done, queue, issued, wraps, log)
    }

    constructor ()
      ensures Model() == State(0, [], 0, 0, []) && Inv(Model())
    {
      done, queue, issued, wraps, log := 0, [], 0, 0, [];
    }

    method CompleteOne()
      requires Inv(Model())
      modifies this
      ensures Model() == Complete(old(Model())) && Inv(Model())
      ensures done == (old(done) + 1) % 4294967296 && log == old(log)
    {
      StepKeeps(Model(), DoComplete);
      issued, wraps := issued + 1, wraps + (if done + 1 >= WRAP then 1 else 0);
      done := (done + 1) % WRAP;
      queue := WakeUpCommon(queue, 1);
    }

    method CompleteEvery()
      requires Inv(Model())
      modifies this
      ensures Model() == CompleteAll(old(Model())) && Inv(Model())
      ensures done == (old(done) + 2147483647) % 4294967296 && log == old(log)
      ensures |queue| == |old(queue)| && forall k :: 0 <= k < |queue| ==> queue[k] == old(queue)[k].(awake := true)
    {
      StepKeeps(Model(), DoCompleteAll);
      issued, wraps := issued + ALL, wraps + (if done + ALL >= WRAP then 1 else 0);
      done := (done + ALL) % WRAP;
      queue := WakeUpCommon(queue, 0);
    }

    /** The part of do_wait_for_common up to the task's first sleep: it takes a completion that is there, else
        queues at the tail and, unless a signal is pending, sleeps. */
    method BeginWait(task: nat, timeout: nat, signal: bool) returns (finished: bool, ret: int)
      requires Inv(Model())
      modifies this
      ensures Model() == Arrive(old(Model()), task, timeout, signal) && Inv(Model())
      ensures Arrived(old(Model()), Model(), task, timeout, signal)
      ensures finished <==> old(done) > 0 || signal
      ensures finished ==> log == old(log) + [Outcome(task, ret)]
    {
      ArriveKeeps(Model(), task, timeout, signal);
      ArriveMeaning(Model(), task, timeout, signal);
      hide Inv, Arrived;
      if done != 0 {
        done := done - 1;
        finished, ret := true, if timeout != 0 then timeout else 1;
      } else {
        ghost var was := queue;
        queue := queue + [Waiter(task, true, true, timeout)];
        if signal {
          assert RemoveAt(queue, |was|) == was;
          queue := queue[..|queue| - 1];
          finished, ret := true, -ERESTARTSYS;
        } else {
          queue := queue[|queue| - 1 := Waiter(task, true, false, timeout)];
          finished, ret := false, 0;
        }
      }
      if finished { log := log + [Outcome(task, ret)]; }
    }

    /** try_wait_for_completion */
    method TryWaitFor(task: nat) returns (taken: bool)
      requires Inv(Model())
      modifies this
      ensures Model() == TryWait(old(Model()), task) && Inv(Model())
      ensures taken <==> old(done) > 0
      ensures taken ==> done == old(done) - 1 && queue == old(queue) && log == old(log) + [Outcome(task, 1)]
      ensures !taken ==> done == 0 && queue == old(queue) && log == old(log) + [Outcome(task, 0)]
    {
      TryKeeps(Model(), task);
      hide Inv;
      if done != 0 {
        done := done - 1;
        log := log + [Outcome(task, 1)];
        taken := true;
      } else {
        log := log + [Outcome(task, 0)];
        taken := false;
      }
    }

    /** The part of do_wait_for_common run by a task that has been woken; `ret` is the
        value it returns, if it has `finished` and does not sleep again. */
    method ContinueWait(k: nat, left: nat, signal: bool) returns (finished: bool, ret: int)
      requires Inv(Model()) && k < |queue| && queue[k].awake
      modifies this
      ensures Model() == Resume(old(Model()), k, left, signal) && Inv(Model())
      ensures finished ==> log == old(log) + [Outcome(old(queue)[k].task, ret)] && queue == RemoveAt(old(queue), k)
      ensures !finished ==> log == old(log) && queue == old(queue)[k := old(queue)[k].(awake := false, timeout := left)]
      ensures old(done) > 0 ==> finished && ret == (if left > 0 then left else 1) && done == old(done) - 1
      ensures old(done) == 0 ==> done == 0 && (finished <==> left == 0 || signal)
      ensures old(done) == 0 && finished ==> ret == if left == 0 then 0 else -ERESTARTSYS
    {
      ResumeKeeps(Model(), k, left, signal);
      ghost var before := Model();
      var timeout: int := left;
      var task := queue[k].task;
      if done == 0 && timeout != 0 {
        if !signal {
          queue := queue[k := queue[k].(awake := false, timeout := left)];
          return false, 0;
        }
        timeout := -ERESTARTSYS;
      }
      queue := RemoveAt(queue, k);
      if done == 0 {
        ret := timeout;
      } else {
        done := done - 1;
        ret := if timeout != 0 then timeout else 1;
      }
      log := log + [Outcome(task, ret)];
      finished := true;
    }
  }
}
