/** Distributed accounting of active tasks for the load average (core.c):
    per-CPU folding, the two idle buckets, the global fold and CPU removal. */
module LoadFold {
  /** What a CPU holds in a local variable between two accesses to shared state. */
  datatype Local =
    | Nothing
    | ForTasks(delta: int)                // calc_load_account_active, before the atomic add
    | ForIdle(delta: int)                 // calc_load_enter_idle, before the bucket is chosen
    | ForBucket(delta: int, bucket: nat)  // ... and after
    | Subtracted                          // calc_global_load_remove, between its two statements

  datatype Cpu = Cpu(running: nat, uninterruptible: int, active: int, local: Local)

  /** The timekeeper's place in calc_global_load. */
  datatype Global = Resting | Seen | Taken(delta: int) | Averaging

  datatype State = State(cpus: seq<Cpu>, tasks: int, idle: seq<int>, idx: nat, global: Global)

  function NrActive(c: Cpu): int { c.running + c.uninterruptible }

  function ReadIdx(s: State): nat { s.idx % 2 }

  /** calc_load_write_idx: once the window has opened, write to the other bucket. */
  function WriteIdx(s: State, windowOpen: bool): nat {
    (if windowOpen then s.idx + 1 else s.idx) % 2
  }

  // ---------------------------------------------------------------- what is pending

  /** What is still to be added for a CPU. */
  ghost function Held(c: Cpu): int {
    match c.local
    case Nothing => 0
    case ForTasks(d) => d
    case ForIdle(d) => d
    case ForBucket(d, _) => d
    case Subtracted => c.active
  }

  ghost function GlobalHeld(g: Global): int {
    if g.Taken? then g.delta else 0
  }

  ghost function Total(cpus: seq<Cpu>, f: Cpu -> int): int {
    if cpus == [] then 0 else f(cpus[0]) + Total(cpus[1..], f)
  }

  ghost function ActiveOf(c: Cpu): int { c.active }

  ghost predicate Conserved(s: State) {
    && |s.idle| == 2
    && (forall c :: 0 <= c < |s.cpus| && s.cpus[c].local.ForBucket? ==> s.cpus[c].local.bucket < 2)
    && s.tasks + s.idle[0] + s.idle[1] + Total(s.cpus, Held) + GlobalHeld(s.global) == Total(s.cpus, ActiveOf)
  }

  lemma {:induction false} TotalUpdate(cpus: seq<Cpu>, f: Cpu -> int, i: nat, c: Cpu)
    requires i < |cpus|
    ensures Total(cpus[i := c], f) == Total(cpus, f) - f(cpus[i]) + f(c)
  {
    if i == 0 {
      assert cpus[i := c][1..] == cpus[1..];
    } else {
      assert cpus[i := c][1..] == cpus[1..][i - 1 := c];
      TotalUpdate(cpus[1..], f, i - 1, c);
    }
  }

  lemma {:induction false} TotalSame(cpus: seq<Cpu>, f: Cpu -> int, g: Cpu -> int)
    requires forall i :: 0 <= i < |cpus| ==> f(cpus[i]) == g(cpus[i])
    ensures Total(cpus, f) == Total(cpus, g)
  {
    if cpus != [] { TotalSame(cpus[1..], f, g); }
  }

  // ---------------------------------------------------------------- steps

  datatype Step =
    | Schedule(c: nat, running: nat, uninterruptible: int)   // the CPU's own counts change
    | FoldForTasks(c: nat)                 // calc_load_fold_active, called at the tick
    | AddTasks(c: nat)
    | FoldForIdle(c: nat)                  // calc_load_fold_active, entering idle
    | ChooseBucket(c: nat, windowOpen: bool)
    | AddIdle(c: nat)
    | ReadBucket                           // calc_load_fold_idle, the test
    | TakeBucket                           // ... and the exchange
    | AddFolded
    | Flip                                 // calc_global_nohz
    | RemoveSub(c: nat)                    // calc_global_load_remove
    | RemoveZero(c: nat)

  /** calc_load_fold_active: the delta and the CPU after it. */
  function FoldActive(c: Cpu): (Cpu, int) {
    if NrActive(c) != c.active then (c.(active := NrActive(c)), NrActive(c) - c.active) else (c, 0)
  }

  ghost predicate CanStep(s: State, step: Step) {
    match step
    case Schedule(c, _, _) => c < |s.cpus|
    case FoldForTasks(c) => c < |s.cpus| && s.cpus[c].local.Nothing?
    case AddTasks(c) => c < |s.cpus| && s.cpus[c].local.ForTasks?
    case FoldForIdle(c) => c < |s.cpus| && s.cpus[c].local.Nothing?
    case ChooseBucket(c, _) => c < |s.cpus| && s.cpus[c].local.ForIdle?
    case AddIdle(c) => c < |s.cpus| && s.cpus[c].local.ForBucket? && s.cpus[c].local.bucket < |s.idle|
    case ReadBucket => s.global.Resting? && |s.idle| == 2
    case TakeBucket => s.global.Seen? && |s.idle| == 2
    case AddFolded => s.global.Taken?
    case Flip => s.global.Averaging?
    case RemoveSub(c) => c < |s.cpus| && s.cpus[c].local.Nothing?
    case RemoveZero(c) => c < |s.cpus| && s.cpus[c].local.Subtracted?
  }

  function Apply(s: State, step: Step): State
    requires CanStep(s, step)
  {
    match step
    case Schedule(c, r, u) => s.(cpus := s.cpus[c := s.cpus[c].(running := r, uninterruptible := u)])
    case FoldForTasks(c) =>
      var (cpu, delta) := FoldActive(s.cpus[c]);
      s.(cpus := s.cpus[c := if delta != 0 then cpu.(local := ForTasks(delta)) else cpu])
    case AddTasks(c) =>
      s.(tasks := s.tasks + s.cpus[c].local.delta, cpus := s.cpus[c := s.cpus[c].(local := Nothing)])
    case FoldForIdle(c) =>
      var (cpu, delta) := FoldActive(s.cpus[c]);
      s.(cpus := s.cpus[c := if delta != 0 then cpu.(local := ForIdle(delta)) else cpu])
    case ChooseBucket(c, open) =>
      s.(cpus := s.cpus[c := s.cpus[c].(local := ForBucket(s.cpus[c].local.delta, WriteIdx(s, open)))])
    case AddIdle(c) =>
      var l := s.cpus[c].local;
      s.(idle := s.idle[l.bucket := s.idle[l.bucket] + l.delta], cpus := s.cpus[c := s.cpus[c].(local := Nothing)])
    case ReadBucket => s.(global := if s.idle[ReadIdx(s)] != 0 then Seen else Averaging)
    case TakeBucket => s.(global := Taken(s.idle[ReadIdx(s)]), idle := s.idle[ReadIdx(s) := 0])
    case AddFolded => s.(tasks := s.tasks + s.global.delta, global := Averaging)
    case Flip => s.(idx := s.idx + 1, global := Resting)
    case RemoveSub(c) => s.(tasks := s.tasks - s.cpus[c].active, cpus := s.cpus[c := s.cpus[c].(local := Subtracted)])
    case RemoveZero(c) => s.(cpus := s.cpus[c := s.cpus[c].(active := 0, local := Nothing)])
  }

  ghost function CpuOf(step: Step): nat {
    match step
    case Schedule(c, _, _) => c
    case FoldForTasks(c) => c
    case AddTasks(c) => c
    case FoldForIdle(c) => c
    case ChooseBucket(c, _) => c
    case AddIdle(c) => c
    case RemoveSub(c) => c
    case RemoveZero(c) => c
    case ReadBucket => 0
    case TakeBucket => 0
    case AddFolded => 0
    case Flip => 0
  }

  /** No single access loses or invents a task. */
  lemma StepConserves(s: State, step: Step)
    requires Conserved(s) && CanStep(s, step)
    ensures Conserved(Apply(s, step))
  {
    hide Total;
    var c, t := CpuOf(step), Apply(s, step);
    if c < |s.cpus| {
      assert t.cpus == s.cpus[c := t.cpus[c]];
      TotalUpdate(s.cpus, Held, c, t.cpus[c]);
      TotalUpdate(s.cpus, ActiveOf, c, t.cpus[c]);
    }
  }

  // ---------------------------------------------------------------- runs

  ghost predicate Start(s: State) {
    && s.tasks == 0 && s.idle == [0, 0] && s.global.Resting?
    && forall c :: 0 <= c < |s.cpus| ==> s.cpus[c].active == 0 && s.cpus[c].local.Nothing?
  }

  ghost predicate IsRun(states: seq<State>, steps: seq<Step>) {
    && |states| == |steps| + 1 && Start(states[0])
    && forall i :: 0 <= i < |steps| ==> CanStep(states[i], steps[i]) && states[i + 1] == Apply(states[i], steps[i])
  }

  lemma {:induction false} TotalZero(cpus: seq<Cpu>, f: Cpu -> int)
    requires forall i :: 0 <= i < |cpus| ==> f(cpus[i]) == 0
    ensures Total(cpus, f) == 0
  {
    if cpus != [] { TotalZero(cpus[1..], f); }
  }

  /** Under every interleaving, calc_load_tasks, both buckets and the deltas in flight
      make up the sum of calc_load_active. */
  lemma {:induction false} RunsConserve(states: seq<State>, steps: seq<Step>, i: nat)
    requires IsRun(states, steps) && i < |states|
    ensures Conserved(states[i])
  {
    if i == 0 {
      TotalZero(states[0].cpus, Held);
      TotalZero(states[0].cpus, ActiveOf);
    } else {
      RunsConserve(states, steps, i - 1);
      StepConserves(states[i - 1], steps[i - 1]);
    }
  }

  /** Nothing is in flight. */
  ghost predicate Quiet(s: State) {
    !s.global.Taken? && forall c :: 0 <= c < |s.cpus| ==> s.cpus[c].local.Nothing?
  }

  /** Every CPU has folded since its counts last changed. */
  ghost predicate Fresh(s: State) {
    forall c :: 0 <= c < |s.cpus| ==> s.cpus[c].active == NrActive(s.cpus[c])
  }

  /** What calc_global_load misses is exactly what waits in the buckets. */
  lemma TasksAreExact(s: State)
    requires Conserved(s) && Quiet(s) && Fresh(s)
    ensures s.tasks + s.idle[0] + s.idle[1] == Total(s.cpus, NrActive)
  {
    TotalZero(s.cpus, Held);
    TotalSame(s.cpus, ActiveOf, NrActive);
  }

  // ---------------------------------------------------------------- the buckets drain

  /** `step` leaves the read bucket empty: it was seen empty, or it is exchanged with 0. */
  ghost predicate Empties(s: State, step: Step, k: nat) {
    && |s.idle| == 2 && k == ReadIdx(s) && CanStep(s, step)
    && (step.TakeBucket? || (step.ReadBucket? && s.idle[k] == 0))
  }

  /** An empty bucket stays empty while no CPU adds to a bucket. */
  lemma {:induction false} StaysEmpty(states: seq<State>, steps: seq<Step>, i: nat, j: nat, k: nat)
    requires IsRun(states, steps) && i <= j < |states| && k < 2
    requires |states[i].idle| == 2 && states[i].idle[k] == 0
    requires forall m :: i <= m < j ==> !steps[m].AddIdle?
    ensures |states[j].idle| == 2 && states[j].idle[k] == 0
    decreases j - i
  {
    if i < j { StaysEmpty(states, steps, i, j - 1, k); }
  }

  /** Two global folds that read different buckets, with no addition to a bucket after the
      first, leave calc_load_tasks with the exact number of active tasks once everything is
      folded and nothing is in flight. */
  lemma TwoFoldsSettle(states: seq<State>, steps: seq<Step>, i: nat, j: nat, k: nat)
    requires IsRun(states, steps) && i < j < |steps| && k < 2
    requires Empties(states[i], steps[i], k) && Empties(states[j], steps[j], 1 - k)
    requires forall m :: i <= m < |steps| ==> !steps[m].AddIdle?
    requires Quiet(states[|steps|]) && Fresh(states[|steps|])
    ensures states[|steps|].tasks == Total(states[|steps|].cpus, NrActive)
  {
    var n := |steps|;
    StaysEmpty(states, steps, i + 1, n, k);
    StaysEmpty(states, steps, j + 1, n, 1 - k);
    RunsConserve(states, steps, n);
    TasksAreExact(states[n]);
  }

  /** The index moves only at a flip, so folds with one flip between them read both buckets. */
  lemma {:induction false} FlipsCount(states: seq<State>, steps: seq<Step>, i: nat, j: nat)
    requires IsRun(states, steps) && i <= j < |states|
    ensures states[j].idx == states[i].idx + Flips(steps[i..j])
    decreases j - i
  {
    if i < j {
      FlipsCount(states, steps, i + 1, j);
      assert steps[i..j][1..] == steps[i + 1..j];
      assert steps[i..j][0] == steps[i];
    }
  }

  ghost function Flips(steps: seq<Step>): nat {
    if steps == [] then 0 else (if steps[0].Flip? then 1 else 0) + Flips(steps[1..])
  }

  /** The same, found from the run alone: the last two global folds before the end settle the count. */
  lemma NextWindowSettles(states: seq<State>, steps: seq<Step>, i: nat, j: nat)
    requires IsRun(states, steps) && i < j < |steps|
    requires Empties(states[i], steps[i], ReadIdx(states[i])) && Empties(states[j], steps[j], ReadIdx(states[j]))
    requires Flips(steps[i..j]) == 1
    requires forall m :: i <= m < |steps| ==> !steps[m].AddIdle?
    requires Quiet(states[|steps|]) && Fresh(states[|steps|])
    ensures states[|steps|].tasks == Total(states[|steps|].cpus, NrActive)
  {
    FlipsCount(states, steps, i, j);
    TwoFoldsSettle(states, steps, i, j, ReadIdx(states[i]));
  }

  // ---------------------------------------------------------------- what the two buckets are for

  /** A chosen bucket is the one a later fold takes iff the flips in between, and one more if the
      window was open, make an even number. */
  lemma BucketsMeetIff(states: seq<State>, steps: seq<Step>, c: nat, open: bool, i: nat, j: nat)
    requires IsRun(states, steps) && i < j < |states| && steps[i] == ChooseBucket(c, open)
    ensures c < |states[i + 1].cpus| && states[i + 1].cpus[c].local.ForBucket?
    ensures ReadIdx(states[j]) == states[i + 1].cpus[c].local.bucket <==>
            (Flips(steps[i..j]) + (if open then 1 else 0)) % 2 == 0
  {
    FlipsCount(states, steps, i, j);
  }

  ghost function AddedBy(s: State, step: Step, k: nat): int {
    match step
    case AddIdle(c) => if c < |s.cpus| && s.cpus[c].local.ForBucket? && s.cpus[c].local.bucket == k then s.cpus[c].local.delta else 0
    case _ => 0
  }

  /** What is added to bucket `k` between two moments. */
  ghost function AddedTo(states: seq<State>, steps: seq<Step>, i: nat, j: nat, k: nat): int
    requires i <= j <= |steps| < |states|
    decreases j - i
  {
    if i == j then 0 else AddedTo(states, steps, i, j - 1, k) + AddedBy(states[j - 1], steps[j - 1], k)
  }

  lemma StepKeepsOther(s: State, step: Step, k: nat)
    requires CanStep(s, step) && |s.idle| == 2 && k < 2 && k != ReadIdx(s) && !step.Flip?
    ensures |Apply(s, step).idle| == 2 && Apply(s, step).idle[k] == s.idle[k] + AddedBy(s, step, k)
  {
  }

  lemma {:induction false} NoFlipBefore(steps: seq<Step>, i: nat, j: nat)
    requires i < j <= |steps| && Flips(steps[i..j]) == 0
    ensures Flips(steps[i..j - 1]) == 0 && !steps[j - 1].Flip?
    decreases j - i
  {
    assert steps[i..j][1..] == steps[i + 1..j] && steps[i..j][0] == steps[i];
    if i + 1 < j {
      NoFlipBefore(steps, i + 1, j);
      assert steps[i..j - 1][1..] == steps[i + 1..j - 1] && steps[i..j - 1][0] == steps[i];
    } else {
      assert steps[i..j - 1] == [];
    }
  }

  lemma TwoBuckets(states: seq<State>, steps: seq<Step>, i: nat)
    requires IsRun(states, steps) && i < |states|
    ensures |states[i].idle| == 2
  {
    RunsConserve(states, steps, i);
  }

  /** The bucket that is not being read keeps all that is added to it until the next flip. */
  lemma {:induction false} KeptUntilFlip(states: seq<State>, steps: seq<Step>, i: nat, j: nat, k: nat)
    requires IsRun(states, steps) && i <= j < |states| && k < 2 && k != ReadIdx(states[i]) && Flips(steps[i..j]) == 0
    ensures |states[i].idle| == |states[j].idle| == 2
    ensures states[j].idle[k] == states[i].idle[k] + AddedTo(states, steps, i, j, k)
    decreases j - i
  {
    hide Conserved, Total, CanStep, Apply, AddedBy, Flips, Start;
    TwoBuckets(states, steps, i);
    if i < j {
      NoFlipBefore(steps, i, j);
      KeptUntilFlip(states, steps, i, j - 1, k);
      FlipsCount(states, steps, i, j - 1);
      StepKeepsOther(states[j - 1], steps[j - 1], k);
    }
  }

  /** A delta whose bucket was chosen with the window open stays out of that window's fold: until the
      flip the bucket loses nothing, and the first fold after the flip takes all of it. */
  lemma OpenWindowWaits(states: seq<State>, steps: seq<Step>, c: nat, i: nat, j: nat)
    requires IsRun(states, steps) && i < j < |states| && steps[i] == ChooseBucket(c, true)
    ensures c < |states[i + 1].cpus| && states[i + 1].cpus[c].local.ForBucket? && |states[i].idle| == |states[j].idle| == 2
    ensures var k := states[i + 1].cpus[c].local.bucket;
            && k < 2
            && (Flips(steps[i..j]) == 0 ==> k != ReadIdx(states[j]) && states[j].idle[k] == states[i].idle[k] + AddedTo(states, steps, i, j, k))
            && (Flips(steps[i..j]) == 1 && j < |steps| && steps[j].TakeBucket? ==>
                  states[j + 1].global == Taken(states[j].idle[k]) && |states[j + 1].idle| == 2 && states[j + 1].idle[k] == 0)
  {
    TwoBuckets(states, steps, i);
    TwoBuckets(states, steps, j);
    BucketsMeetIff(states, steps, c, true, i, j);
    var k := states[i + 1].cpus[c].local.bucket;
    if Flips(steps[i..j]) == 0 { KeptUntilFlip(states, steps, i, j, k); }
  }

  // ---------------------------------------------------------------- as written

  /** The counters as the routines update them; each method is one uninterrupted call. */
  class LoadAccount {
    var st: State

    ghost predicate Valid()
      reads this
    {
      Conserved(st) && Quiet(st)
    }

    constructor (n: nat)
      ensures Valid() && Start(st) && |st.cpus| == n && Fresh(st)
    {
      st := State(seq(n, i => Cpu(0, 0, 0, Nothing)), 0, [0, 0], 0, Resting);
      new;
      TotalZero(st.cpus, Held);
      TotalZero(st.cpus, ActiveOf);
    }

    /** calc_load_account_active, past its time test */
    method AccountActive(c: nat)
      requires Valid() && c < |st.cpus|
      modifies this
      ensures Valid() && |st.cpus| == |old(st).cpus| && st.idle == old(st).idle && st.idx == old(st).idx && st.global == old(st).global
      ensures st.cpus[c] == old(st).cpus[c].(active := NrActive(old(st).cpus[c]))
      ensures forall i :: 0 <= i < |st.cpus| && i != c ==> st.cpus[i] == old(st).cpus[i]
      ensures st.tasks - old(st).tasks == st.cpus[c].active - old(st).cpus[c].active
    {
      StepConserves(st, FoldForTasks(c));
      st := Apply(st, FoldForTasks(c));
      if st.cpus[c].local.ForTasks? {
        StepConserves(st, AddTasks(c));
        st := Apply(st, AddTasks(c));
      }
    }

    /** calc_load_enter_idle */
    method EnterIdle(c: nat, windowOpen: bool)
      requires Valid() && c < |st.cpus|
      modifies this
      ensures Valid() && |st.cpus| == |old(st).cpus| && st.tasks == old(st).tasks && st.idx == old(st).idx && st.global == old(st).global
      ensures st.cpus[c] == old(st).cpus[c].(active := NrActive(old(st).cpus[c]))
      ensures forall i :: 0 <= i < |st.cpus| && i != c ==> st.cpus[i] == old(st).cpus[i]
      ensures var k := (old(st).idx + if windowOpen then 1 else 0) % 2;
              && st.idle[k] - old(st).idle[k] == st.cpus[c].active - old(st).cpus[c].active
              && st.idle[1 - k] == old(st).idle[1 - k]
    {
      hide Total;
      StepConserves(st, FoldForIdle(c));
      st := Apply(st, FoldForIdle(c));
      if st.cpus[c].local.ForIdle? {
        StepConserves(st, ChooseBucket(c, windowOpen));
        st := Apply(st, ChooseBucket(c, windowOpen));
        StepConserves(st, AddIdle(c));
        st := Apply(st, AddIdle(c));
      }
    }

    /** The accounting part of calc_global_load. */
    method GlobalFold()
      requires Valid() && st.global.Resting?
      modifies this
      ensures Valid() && st.global.Resting? && st.cpus == old(st).cpus && st.idx == old(st).idx + 1
      ensures var k := ReadIdx(old(st));
              && st.idle[k] == 0 && st.idle[1 - k] == old(st).idle[1 - k]
              && st.tasks == old(st).tasks + old(st).idle[k]
    {
      hide Total;
      StepConserves(st, ReadBucket);
      st := Apply(st, ReadBucket);
      if st.global.Seen? {
        StepConserves(st, TakeBucket);
        st := Apply(st, TakeBucket);
        StepConserves(st, AddFolded);
        st := Apply(st, AddFolded);
      }
      StepConserves(st, Flip);
      st := Apply(st, Flip);
    }

    /** calc_global_load_remove */
    method Remove(c: nat)
      requires Valid() && c < |st.cpus|
      modifies this
      ensures Valid() && |st.cpus| == |old(st).cpus| && st.idle == old(st).idle && st.idx == old(st).idx && st.global == old(st).global
      ensures st.cpus[c] == old(st).cpus[c].(active := 0)
      ensures forall i :: 0 <= i < |st.cpus| && i != c ==> st.cpus[i] == old(st).cpus[i]
      ensures st.tasks == old(st).tasks - old(st).cpus[c].active
    {
      StepConserves(st, RemoveSub(c));
      st := Apply(st, RemoveSub(c));
      StepConserves(st, RemoveZero(c));
      st := Apply(st, RemoveZero(c));
    }
  }
}
