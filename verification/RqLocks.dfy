/** Taking two run-queue locks (sched.h), for any number of CPUs. Locks are numbered in address order. */
module RqLocks {
  /** One access to a lock; TryBusiest is raw_spin_trylock with its fallback. */
  datatype Instr = Lock(l: nat) | Unlock(l: nat) | TryBusiest(own: nat, busiest: nat) | SetRet

  /** `held` are the locks a CPU owns and `todo` what is left of its current call. `goal` is
      what it is to own at the end; `dropped` records that the call released a lock. */
  datatype Cpu = Cpu(held: set<nat>, todo: seq<Instr>, goal: set<nat>, balancing: bool, dropped: bool, ret: bool)

  datatype State = State(cpus: seq<Cpu>, locks: nat)

  // ---------------------------------------------------------------- the routines

  function DoubleRqLock(rq1: nat, rq2: nat): seq<Instr> {
    if rq1 == rq2 then [Lock(rq1)] else if rq1 < rq2 then [Lock(rq1), Lock(rq2)] else [Lock(rq2), Lock(rq1)]
  }

  function DoubleRqUnlock(rq1: nat, rq2: nat): seq<Instr> {
    if rq1 != rq2 then [Unlock(rq1), Unlock(rq2)] else [Unlock(rq1)]
  }

  function FairBalance(own: nat, busiest: nat): seq<Instr> {
    [Unlock(own)] + DoubleRqLock(own, busiest) + [SetRet]
  }

  /** What the trylock variant does when the trylock fails. */
  function Fallback(own: nat, busiest: nat): seq<Instr> {
    if busiest < own then [Unlock(own), Lock(busiest), Lock(own), SetRet] else [Lock(busiest)]
  }

  datatype Routine =
    | Single(l: nat)                       // raw_spin_lock of one run queue
    | Release(l: nat)
    | DoubleLock(a: nat, b: nat)
    | DoubleUnlock(a: nat, b: nat)
    | Fair(own: nat, busiest: nat)         // _double_lock_balance, CONFIG_PREEMPT
    | Trying(own: nat, busiest: nat)       // _double_lock_balance otherwise
    | UnlockBalance(own: nat, busiest: nat)

  function Code(r: Routine): seq<Instr> {
    match r
    case Single(l) => [Lock(l)]
    case Release(l) => [Unlock(l)]
    case DoubleLock(a, b) => DoubleRqLock(a, b)
    case DoubleUnlock(a, b) => DoubleRqUnlock(a, b)
    case Fair(own, busiest) => FairBalance(own, busiest)
    case Trying(own, busiest) => [TryBusiest(own, busiest)]
    case UnlockBalance(_, busiest) => [Unlock(busiest)]
  }

  /** What a caller must own. */
  predicate MayCall(r: Routine, held: set<nat>) {
    match r
    case Single(l) => held == {}
    case Release(l) => held == {l}
    case DoubleLock(a, b) => held == {}
    case DoubleUnlock(a, b) => held == {a, b}
    case Fair(own, busiest) => held == {own}
    case Trying(own, busiest) => held == {own} && own != busiest
    case UnlockBalance(own, busiest) => held == {own, busiest} && own != busiest
  }

  /** What it owns afterwards. */
  function Goal(r: Routine): set<nat> {
    match r
    case Single(l) => {l}
    case Release(l) => {}
    case DoubleLock(a, b) => {a, b}
    case DoubleUnlock(a, b) => {}
    case Fair(own, busiest) => {own, busiest}
    case Trying(own, busiest) => {own, busiest}
    case UnlockBalance(own, _) => {own}
  }

  predicate Within(r: Routine, n: nat) {
    match r
    case Single(l) => l < n
    case Release(l) => l < n
    case DoubleLock(a, b) => a < n && b < n
    case DoubleUnlock(a, b) => a < n && b < n
    case Fair(a, b) => a < n && b < n
    case Trying(a, b) => a < n && b < n
    case UnlockBalance(a, b) => a < n && b < n
  }

  // ---------------------------------------------------------------- steps

  ghost predicate Taken(s: State, l: nat) {
    exists c :: 0 <= c < |s.cpus| && l in s.cpus[c].held
  }

  /** The first instruction done, the trylock (if it is one) ending as `success` says. */
  function Exec(c: Cpu, success: bool): Cpu
    requires c.todo != []
  {
    var rest := c.todo[1..];
    match c.todo[0]
    case Lock(l) => c.(held := c.held + {l}, todo := rest)
    case Unlock(l) => c.(held := c.held - {l}, todo := rest, dropped := true)
    case SetRet => c.(ret := true, todo := rest)
    case TryBusiest(own, busiest) =>
      if success then c.(held := c.held + {busiest}, todo := rest) else c.(todo := Fallback(own, busiest) + rest)
  }

  datatype Step = Call(c: nat, r: Routine) | Advance(c: nat)

  ghost predicate Blocked(s: State, c: nat)
    requires c < |s.cpus|
  {
    s.cpus[c].todo != [] && s.cpus[c].todo[0].Lock? && Taken(s, s.cpus[c].todo[0].l)
  }

  ghost predicate CanStep(s: State, step: Step) {
    match step
    case Call(c, r) => c < |s.cpus| && s.cpus[c].todo == [] && MayCall(r, s.cpus[c].held) && Within(r, s.locks)
    case Advance(c) => c < |s.cpus| && s.cpus[c].todo != [] && !Blocked(s, c)
  }

  function Started(c: Cpu, r: Routine): Cpu {
    Cpu(c.held, Code(r), Goal(r), r.Fair? || r.Trying?, false, false)
  }

  ghost function Apply(s: State, step: Step): State
    requires CanStep(s, step)
  {
    match step
    case Call(c, r) => s.(cpus := s.cpus[c := Started(s.cpus[c], r)])
    case Advance(c) =>
      var i := s.cpus[c].todo[0];
      s.(cpus := s.cpus[c := Exec(s.cpus[c], i.TryBusiest? && !Taken(s, i.busiest))])
  }

  // ---------------------------------------------------------------- invariant

  function Cost(todo: seq<Instr>): nat {
    if todo == [] then 0 else (if todo[0].TryBusiest? then 5 else 1) + Cost(todo[1..])
  }

  lemma {:induction false} CostConcat(a: seq<Instr>, b: seq<Instr>)
    ensures Cost(a + b) == Cost(a) + Cost(b)
  {
    if a == [] {
      assert a + b == b;
    } else {
      assert (a + b)[1..] == a[1..] + b;
      CostConcat(a[1..], b);
    }
  }

  lemma FallbackCost(own: nat, busiest: nat)
    ensures Cost(Fallback(own, busiest)) <= 4
  {
    var f := Fallback(own, busiest);
    if busiest < own {
      assert f[1..][1..][1..][1..] == [];
      assert Cost(f[1..][1..][1..]) == 1;
      assert Cost(f[1..][1..]) == 2;
    } else {
      assert f[1..] == [];
    }
  }

  lemma ExecCost(c: Cpu, success: bool)
    requires c.todo != []
    ensures Cost(Exec(c, success).todo) < Cost(c.todo)
  {
    if c.todo[0].TryBusiest? {
      var own, busiest := c.todo[0].own, c.todo[0].busiest;
      FallbackCost(own, busiest);
      CostConcat(Fallback(own, busiest), c.todo[1..]);
    }
  }

  /** What is left of the call takes locks only in increasing order, releases only owned
      locks, and ends with the goal; a balancing call then reports whether it dropped a lock. */
  ghost predicate Safe(c: Cpu, n: nat)
    decreases Cost(c.todo)
  {
    && (forall h :: h in c.held ==> h < n)
    && if c.todo == [] then
         c.held == c.goal && (c.balancing ==> c.ret == c.dropped)
       else
         ExecCost(c, true);
         ExecCost(c, false);
         match c.todo[0]
         case Lock(l) => l < n && (forall h :: h in c.held ==> h < l) && Safe(Exec(c, true), n)
         case Unlock(l) => l in c.held && Safe(Exec(c, true), n)
         case SetRet => Safe(Exec(c, true), n)
         case TryBusiest(own, busiest) => busiest < n && busiest !in c.held && Safe(Exec(c, true), n) && Safe(Exec(c, false), n)
  }

  ghost predicate Inv(s: State) {
    && (forall c :: 0 <= c < |s.cpus| ==> Safe(s.cpus[c], s.locks))
    && (forall c, d :: 0 <= c < d < |s.cpus| ==> s.cpus[c].held !! s.cpus[d].held)
  }

  lemma SafeDone(c: Cpu, n: nat)
    requires c.todo == [] && (forall h :: h in c.held ==> h < n) && c.held == c.goal && (c.balancing ==> c.ret == c.dropped)
    ensures Safe(c, n)
  {
  }

  lemma SafeRet(c: Cpu, n: nat)
    requires c.todo == [SetRet] && (forall h :: h in c.held ==> h < n) && c.held == c.goal && c.dropped
    ensures Safe(c, n)
  {
    SafeDone(Exec(c, true), n);
  }

  /** Taking `todo[0]` and then `todo[1]`. */
  lemma SafeTwo(c: Cpu, n: nat, x: nat, y: nat)
    requires c.todo == [Lock(x), Lock(y), SetRet] || c.todo == [Lock(x), Lock(y)]
    requires c.held == {} && x < y < n && c.goal == {x, y} && (c.balancing ==> c.dropped && !c.ret && |c.todo| == 3)
    ensures Safe(c, n)
  {
    var c1 := Exec(c, true);
    var c2 := Exec(c1, true);
    assert c1.held == {x} && c2.held == {x, y};
    if |c.todo| == 3 {
      assert c2.todo == [SetRet];
      if c.dropped { SafeRet(c2, n); } else { SafeDone(Exec(c2, true), n); }
    } else {
      SafeDone(c2, n);
    }
    assert Safe(c1, n);
  }

  lemma SafeOne(c: Cpu, n: nat, x: nat)
    requires c.todo == [Lock(x), SetRet] || c.todo == [Lock(x)]
    requires x < n && (forall h :: h in c.held ==> h < x) && c.goal == c.held + {x}
    requires c.balancing && |c.todo| == 2 ==> c.dropped
    requires c.balancing && |c.todo| == 1 ==> c.ret == c.dropped
    ensures Safe(c, n)
  {
    var c1 := Exec(c, true);
    if |c.todo| == 2 {
      if c.dropped { SafeRet(c1, n); } else { SafeDone(Exec(c1, true), n); }
    } else {
      SafeDone(c1, n);
    }
  }

  lemma SafeRelease(c: Cpu, n: nat, x: nat)
    requires c.todo == [Unlock(x)] && x in c.held && (forall h :: h in c.held ==> h < n)
    requires c.goal == c.held - {x} && !c.balancing
    ensures Safe(c, n)
  {
    SafeDone(Exec(c, true), n);
  }

  lemma FallbackSafe(c: Cpu, n: nat, own: nat, busiest: nat)
    requires c.todo == Fallback(own, busiest) && c.held == {own} && own != busiest && own < n && busiest < n
    requires c.goal == {own, busiest} && c.balancing && !c.dropped && !c.ret
    ensures Safe(c, n)
  {
    if busiest < own {
      var c1 := Exec(c, true);
      assert c1.todo == [Lock(busiest), Lock(own), SetRet] && c1.held == {};
      SafeTwo(c1, n, busiest, own);
    } else {
      SafeOne(c, n, busiest);
    }
  }

  /** Every routine, called as its callers must call it, is safe at its start. */
  lemma CallSafe(c: Cpu, r: Routine, n: nat)
    requires c.todo == [] && MayCall(r, c.held) && Within(r, n)
    ensures Safe(Started(c, r), n)
  {
    var s := Started(c, r);
    match r
    case Single(l) => SafeOne(s, n, l);
    case Release(l) => SafeRelease(s, n, l);
    case DoubleLock(a, b) =>
      if a == b { SafeOne(s, n, a); } else if a < b { SafeTwo(s, n, a, b); } else { SafeTwo(s, n, b, a); }
    case DoubleUnlock(a, b) =>
      if a == b {
        SafeRelease(s, n, a);
      } else {
        assert Exec(s, true).todo == [Unlock(b)];
        SafeRelease(Exec(s, true), n, b);
      }
    case Fair(own, busiest) =>
      var s1 := Exec(s, true);
      assert s1.todo == DoubleRqLock(own, busiest) + [SetRet] && s1.held == {};
      if own == busiest { SafeOne(s1, n, own); } else if own < busiest { SafeTwo(s1, n, own, busiest); } else { SafeTwo(s1, n, busiest, own); }
    case Trying(own, busiest) =>
      SafeDone(Exec(s, true), n);
      assert Exec(s, false).todo == Fallback(own, busiest);
      FallbackSafe(Exec(s, false), n, own, busiest);
    case UnlockBalance(own, busiest) => SafeRelease(s, n, busiest);
  }

  /** Executing an instruction keeps what is left safe, and acquires only a free lock. */
  lemma AdvanceKeeps(s: State, c: nat)
    requires Inv(s) && CanStep(s, Advance(c))
    ensures Safe(Apply(s, Advance(c)).cpus[c], s.locks)
    ensures forall l :: l in Apply(s, Advance(c)).cpus[c].held ==> l in s.cpus[c].held || !Taken(s, l)
  {
    assert Safe(s.cpus[c], s.locks);
  }

  lemma StepKeeps(s: State, step: Step)
    requires Inv(s) && CanStep(s, step)
    ensures Inv(Apply(s, step))
  {
    hide Safe, Exec;
    var t := Apply(s, step);
    match step
    case Call(c, r) =>
      CallSafe(s.cpus[c], r, s.locks);
    case Advance(c) =>
      AdvanceKeeps(s, c);
      forall d | 0 <= d < |s.cpus| && d != c
        ensures t.cpus[c].held !! t.cpus[d].held
      {
        assert s.cpus[c].held !! s.cpus[d].held;
        assert forall l :: l in s.cpus[d].held ==> Taken(s, l);
      }
  }

  ghost predicate IsRun(states: seq<State>, steps: seq<Step>) {
    && |states| == |steps| + 1
    && (forall c :: 0 <= c < |states[0].cpus| ==> states[0].cpus[c] == Cpu({}, [], {}, false, false, false))
    && forall i :: 0 <= i < |steps| ==> CanStep(states[i], steps[i]) && states[i + 1] == Apply(states[i], steps[i])
  }

  lemma {:induction false} RunsKeepInv(states: seq<State>, steps: seq<Step>, i: nat)
    requires IsRun(states, steps) && i < |states|
    ensures Inv(states[i])
  {
    if i == 0 {
      forall c | 0 <= c < |states[0].cpus|
        ensures Safe(states[0].cpus[c], states[0].locks)
      {
        SafeDone(states[0].cpus[c], states[0].locks);
      }
    } else {
      RunsKeepInv(states, steps, i - 1);
      StepKeeps(states[i - 1], steps[i - 1]);
    }
  }

  // ---------------------------------------------------------------- no deadlock

  /** CPU `c` waits for a lock that CPU `d` holds. */
  ghost predicate WaitsFor(s: State, c: nat, d: nat) {
    && c < |s.cpus| && d < |s.cpus|
    && s.cpus[c].todo != [] && s.cpus[c].todo[0].Lock? && s.cpus[c].todo[0].l in s.cpus[d].held
  }

  /** A CPU blocked on a lock holds only lower ones. */
  lemma BlockedHoldsLower(states: seq<State>, steps: seq<Step>, i: nat, c: nat, h: nat)
    requires IsRun(states, steps) && i < |states| && c < |states[i].cpus| && Blocked(states[i], c) && h in states[i].cpus[c].held
    ensures h < states[i].cpus[c].todo[0].l
  {
    RunsKeepInv(states, steps, i);
    assert Safe(states[i].cpus[c], states[i].locks);
  }

  lemma WaitedRises(s: State, c: nat, d: nat)
    requires Inv(s) && WaitsFor(s, c, d) && Blocked(s, d)
    ensures s.cpus[c].todo[0].l < s.cpus[d].todo[0].l
  {
    assert Safe(s.cpus[d], s.locks);
  }

  lemma {:induction false} ChainRises(s: State, chain: seq<nat>, k: nat)
    requires Inv(s) && 0 < k < |chain|
    requires forall i :: 0 <= i < |chain| ==> chain[i] < |s.cpus| && Blocked(s, chain[i])
    requires forall i :: 0 <= i < |chain| - 1 ==> WaitsFor(s, chain[i], chain[i + 1])
    ensures Blocked(s, chain[0]) && Blocked(s, chain[k]) && s.cpus[chain[0]].todo[0].l < s.cpus[chain[k]].todo[0].l
  {
    if k > 1 { ChainRises(s, chain, k - 1); }
    assert WaitsFor(s, chain[k - 1], chain[k - 1 + 1]);
    WaitedRises(s, chain[k - 1], chain[k]);
  }

  /** No reachable state has CPUs waiting for each other in a circle (of one CPU or more). */
  lemma NoWaitCycle(states: seq<State>, steps: seq<Step>, i: nat, chain: seq<nat>)
    requires IsRun(states, steps) && i < |states| && |chain| > 1 && forall k :: 0 <= k < |chain| - 1 ==> WaitsFor(states[i], chain[k], chain[k + 1])
    ensures chain[0] != chain[|chain| - 1]
  {
    var s, n := states[i], |chain| - 1;
    RunsKeepInv(states, steps, i);
    forall k | 0 <= k < n
      ensures chain[k] < |s.cpus| && Blocked(s, chain[k])
    {
      assert WaitsFor(s, chain[k], chain[k + 1]);
      assert Taken(s, s.cpus[chain[k]].todo[0].l);
    }
    if chain[0] == chain[n] {
      assert chain[n] < |s.cpus| && Blocked(s, chain[n]);
      ChainRises(s, chain, n);
    }
  }

  /** Whoever is blocked waits, through others perhaps, for a CPU that is not. */
  lemma {:induction false} SomeoneRuns(s: State, c: nat) returns (chain: seq<nat>)
    requires Inv(s) && c < |s.cpus| && Blocked(s, c)
    ensures |chain| > 1 && chain[0] == c
    ensures forall k :: 0 <= k < |chain| - 1 ==> WaitsFor(s, chain[k], chain[k + 1])
    ensures chain[|chain| - 1] < |s.cpus| && !Blocked(s, chain[|chain| - 1])
    decreases s.locks - s.cpus[c].todo[0].l
  {
    assert Safe(s.cpus[c], s.locks);
    var d: nat :| d < |s.cpus| && s.cpus[c].todo[0].l in s.cpus[d].held;
    assert WaitsFor(s, c, d);
    if Blocked(s, d) {
      WaitedRises(s, c, d);
      assert Safe(s.cpus[d], s.locks);
      var rest := SomeoneRuns(s, d);
      chain := [c] + rest;
      forall k | 0 <= k < |chain| - 1
        ensures WaitsFor(s, chain[k], chain[k + 1])
      {
        if k > 0 { assert WaitsFor(s, rest[k - 1], rest[k - 1 + 1]); }
      }
    } else {
      chain := [c, d];
    }
  }

  /** So in every reachable state some holder of a lock can go on with its call or is between calls. */
  lemma DeadlockFree(states: seq<State>, steps: seq<Step>, i: nat, c: nat)
    requires IsRun(states, steps) && i < |states| && c < |states[i].cpus| && Blocked(states[i], c)
    ensures exists d :: 0 <= d < |states[i].cpus| && states[i].cpus[d].held != {}
                        && (states[i].cpus[d].todo == [] || CanStep(states[i], Advance(d)))
  {
    RunsKeepInv(states, steps, i);
    var chain := SomeoneRuns(states[i], c);
    var n := |chain| - 1;
    assert WaitsFor(states[i], chain[n - 1], chain[n - 1 + 1]);
  }

  /** The trylock variant while the other lock is free: one access takes it, nothing is dropped and 0 returned.
      While it is taken: the locks are taken in order, the CPU's own being dropped first iff it is the higher. */
  lemma TrylockDecides(s: State, c: nat, own: nat, busiest: nat)
    requires c < |s.cpus| && s.cpus[c] == Started(s.cpus[c], Trying(own, busiest)) && s.cpus[c].held == {own} && own != busiest
    ensures CanStep(s, Advance(c)) && Apply(s, Advance(c)).locks == s.locks
    ensures var n := Apply(s, Advance(c)).cpus[c];
            && n.held == (if Taken(s, busiest) then {own} else {own, busiest}) && !n.dropped && !n.ret
            && n.todo == if !Taken(s, busiest) then []
                         else if busiest < own then [Unlock(own), Lock(busiest), Lock(own), SetRet] else [Lock(busiest)]
  {
    assert s.cpus[c].todo == [TryBusiest(own, busiest)];
    assert s.cpus[c].todo[1..] == [];
  }

  /** The fair variant always drops the CPU's own lock, takes both in order, and returns 1. */
  lemma FairDrops(c: Cpu, own: nat, busiest: nat)
    ensures Started(c, Fair(own, busiest)).todo ==
            if own == busiest then [Unlock(own), Lock(own), SetRet]
            else if own < busiest then [Unlock(own), Lock(own), Lock(busiest), SetRet]
            else [Unlock(own), Lock(busiest), Lock(own), SetRet]
  {
  }

  /** In every reachable state two CPUs never own one lock, and a CPU whose call is over
      owns exactly what the call promises; a balancing call that returned 1, and only such
      a call, released its own run queue's lock on the way. */
  lemma FinishedCalls(states: seq<State>, steps: seq<Step>, i: nat, c: nat, d: nat)
    requires IsRun(states, steps) && i < |states| && c < |states[i].cpus| && d < |states[i].cpus|
    ensures c != d ==> states[i].cpus[c].held !! states[i].cpus[d].held
    ensures states[i].cpus[c].todo == [] ==> states[i].cpus[c].held == states[i].cpus[c].goal
    ensures states[i].cpus[c].todo == [] && states[i].cpus[c].balancing ==> states[i].cpus[c].ret == states[i].cpus[c].dropped
  {
    RunsKeepInv(states, steps, i);
    assert Safe(states[i].cpus[c], states[i].locks);
  }

  /** The trylock variant, called with its own run queue locked, is safe iff the other queue is
      a different one; called with one queue twice, the CPU comes to wait for a lock it owns. */
  lemma TryingSafeIff(c: Cpu, own: nat, busiest: nat, n: nat)
    requires c.todo == [] && c.held == {own} && own < n && busiest < n
    ensures Safe(Started(c, Trying(own, busiest)), n) <==> own != busiest
    ensures own == busiest ==>
              var s := State([Started(c, Trying(own, own))], n);
              CanStep(s, Advance(0)) && WaitsFor(Apply(s, Advance(0)), 0, 0)
  {
    if own != busiest {
      CallSafe(c, Trying(own, busiest), n);
    } else {
      var s := State([Started(c, Trying(own, own))], n);
      assert own in s.cpus[0].held;
      assert Taken(s, own);
      assert Apply(s, Advance(0)).cpus[0].todo == [Lock(own)];
    }
  }
}
