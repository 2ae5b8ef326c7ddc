/** Lending and reclaiming real-time runtime between the CPUs of a root domain (rt.c, SMP part).

    One task group's run queues on the CPUs of a span, with the group's bandwidth `budget`
    (rt_b->rt_runtime) and `period`.  A queue whose runtime is RUNTIME_INF is disabled. */
module RtBorrow {
  import opened Kernel
  import opened Arith

  datatype Queue = Queue(runtime: int, time: nat)

  predicate Enabled(q: Queue) {
    q.runtime != RUNTIME_INF
  }

  function Held(q: Queue): int {
    if Enabled(q) then q.runtime else 0
  }

  function SumRuntime(s: seq<Queue>): int {
    if s == [] then 0 else Held(s[0]) + SumRuntime(s[1..])
  }

  function NumEnabled(s: seq<Queue>): nat {
    if s == [] then 0 else (if Enabled(s[0]) then 1 else 0) + NumEnabled(s[1..])
  }

  /** No runtime is lost or invented: the enabled queues hold their budgets together. */
  ghost predicate Conserved(s: seq<Queue>, budget: nat) {
    SumRuntime(s) == Times(NumEnabled(s), budget)
  }

  ghost predicate NonNeg(s: seq<Queue>) {
    forall i :: 0 <= i < |s| ==> s[i].runtime >= 0
  }

  /** The state every operation keeps.  All budgets together are below the mark for "disabled". */
  ghost predicate Valid(s: seq<Queue>, budget: nat) {
    NonNeg(s) && Conserved(s, budget) && Times(|s|, budget) < RUNTIME_INF
  }

  // ---------------------------------------------------------------- sums

  lemma {:induction false} SumUpdate(s: seq<Queue>, i: nat, q: Queue)
    requires i < |s|
    ensures SumRuntime(s[i := q]) == SumRuntime(s) - Held(s[i]) + Held(q)
    ensures NumEnabled(s[i := q]) == NumEnabled(s) - (if Enabled(s[i]) then 1 else 0) + (if Enabled(q) then 1 else 0)
  {
    if i == 0 {
      assert s[i := q][1..] == s[1..];
    } else {
      SumUpdate(s[1..], i - 1, q);
      assert s[i := q][1..] == s[1..][i - 1 := q];
    }
  }

  lemma {:induction false} SumNonNeg(s: seq<Queue>)
    requires NonNeg(s)
    ensures SumRuntime(s) >= 0
    ensures NumEnabled(s) <= |s|
  {
    if s != [] { SumNonNeg(s[1..]); }
  }

  lemma TwoBelowSum(s: seq<Queue>, i: nat, k: nat)
    requires NonNeg(s) && i < |s| && k < |s| && i != k
    ensures Held(s[i]) + Held(s[k]) <= SumRuntime(s)
    ensures Held(s[i]) <= SumRuntime(s)
  {
    var none := Queue(0, 0);
    SumUpdate(s, i, none);
    SumUpdate(s[i := none], k, none);
    SumNonNeg(s[i := none][k := none]);
    SumNonNeg(s[i := none]);
  }

  lemma SumBelowInf(s: seq<Queue>, budget: nat)
    requires Valid(s, budget)
    ensures SumRuntime(s) < RUNTIME_INF
  {
    SumNonNeg(s);
    MulMono(NumEnabled(s), |s|, budget);
  }

  // ---------------------------------------------------------------- do_balance_runtime

  /** Moving `diff` from queue `i` to queue `k`. */
  function Transfer(s: seq<Queue>, k: nat, i: nat, diff: int): (r: seq<Queue>)
    requires k < |s| && i < |s|
    ensures |r| == |s|
  {
    s[i := s[i].(runtime := s[i].runtime - diff)][k := s[k].(runtime := s[k].runtime + diff)]
  }

  /** What queue `k` takes from queue `i`: a share of its spare time, but no more than fills the period. */
  function Share(s: seq<Queue>, k: nat, i: nat, period: nat): int
    requires k < |s| && i < |s| && s[i].runtime > s[i].time
  {
    var part := Quot(s[i].runtime - s[i].time, |s|);
    if s[k].runtime + part > period then period - s[k].runtime else part
  }

  predicate Lends(s: seq<Queue>, k: nat, i: nat)
    requires i < |s|
  {
    i != k && Enabled(s[i]) && s[i].runtime > s[i].time
  }

  function BorrowLoop(s: seq<Queue>, k: nat, i: nat, period: nat): (r: seq<Queue>)
    requires k < |s| && i <= |s|
    ensures |r| == |s|
    decreases |s| - i
  {
    if i == |s| then s
    else if !Lends(s, k, i) then BorrowLoop(s, k, i + 1, period)
    else
      var s1 := Transfer(s, k, i, Share(s, k, i, period));
      if s1[k].runtime == period then s1 else BorrowLoop(s1, k, i + 1, period)
  }

  /** What a borrow may do to the queues: lenders keep at least the time they have used, a borrower
      within the period stays within it, and nobody is enabled, disabled or charged. */
  ghost predicate Borrowed(s: seq<Queue>, r: seq<Queue>, k: nat, period: nat)
    requires k < |s| == |r|
  {
    && (forall i :: 0 <= i < |s| ==> r[i].time == s[i].time && (Enabled(r[i]) <==> Enabled(s[i])))
    && (forall i :: 0 <= i < |s| && i != k && s[i].runtime > s[i].time ==> r[i].runtime >= s[i].time)
    && (forall i :: 0 <= i < |s| && i != k && s[i].runtime <= s[i].time ==> r[i] == s[i])
    && (s[k].runtime <= period ==>
          && s[k].runtime <= r[k].runtime <= period
          && forall i :: 0 <= i < |s| && i != k ==> r[i].runtime <= s[i].runtime)
  }

  lemma TransferOk(s: seq<Queue>, k: nat, i: nat, period: nat, budget: nat)
    requires Valid(s, budget) && k < |s| && i < |s| && Enabled(s[k]) && Lends(s, k, i)
    requires period < RUNTIME_INF
    ensures var r := Transfer(s, k, i, Share(s, k, i, period));
            && Valid(r, budget) && Borrowed(s, r, k, period)
  {
    var diff := Share(s, k, i, period);
    var qi, qk := s[i].(runtime := s[i].runtime - diff), s[k].(runtime := s[k].runtime + diff);
    ShareSmall(s[i].runtime - s[i].time, |s|);
    TwoBelowSum(s, i, k);
    SumBelowInf(s, budget);
    assert diff <= s[i].runtime - s[i].time;
    assert 0 <= qi.runtime < RUNTIME_INF && 0 <= qk.runtime < RUNTIME_INF;
    SumUpdate(s, i, qi);
    SumUpdate(s[i := qi], k, qk);
  }

  lemma ShareSmall(spare: nat, n: nat)
    requires n >= 1
    ensures Quot(spare, n) <= spare
  {
    DivBounds(spare, n);
    MulMono(1, n, Quot(spare, n));
  }

  lemma {:induction false} BorrowLoopOk(s: seq<Queue>, k: nat, i: nat, period: nat, budget: nat)
    requires Valid(s, budget) && k < |s| && i <= |s| && Enabled(s[k]) && period < RUNTIME_INF
    ensures var r := BorrowLoop(s, k, i, period);
            && Valid(r, budget)
            && (forall j :: 0 <= j < |s| ==> r[j].time == s[j].time && (Enabled(r[j]) <==> Enabled(s[j])))
            && (forall j :: 0 <= j < i && j != k ==> r[j] == s[j])
            && (forall j :: i <= j < |s| && j != k && s[j].runtime > s[j].time ==> r[j].runtime >= s[j].time)
            && (forall j :: i <= j < |s| && j != k && s[j].runtime <= s[j].time ==> r[j] == s[j])
            && (s[k].runtime <= period ==> s[k].runtime <= r[k].runtime <= period)
            && (s[k].runtime <= period ==> forall j :: 0 <= j < |s| && j != k ==> r[j].runtime <= s[j].runtime)
    decreases |s| - i
  {
    hide Valid, Share;
    if i < |s| {
      if !Lends(s, k, i) {
        BorrowLoopOk(s, k, i + 1, period, budget);
        assert i != k && s[i].runtime > s[i].time ==> !Enabled(s[i]);
        if i != k && !Enabled(s[i]) { assert BorrowLoop(s, k, i + 1, period)[i] == s[i]; }
      } else {
        var s1 := Transfer(s, k, i, Share(s, k, i, period));
        TransferOk(s, k, i, period, budget);
        if s1[k].runtime != period { BorrowLoopOk(s1, k, i + 1, period, budget); }
      }
    }
  }

  /** do_balance_runtime conserves bandwidth and harms nobody. */
  lemma BorrowOk(s: seq<Queue>, k: nat, period: nat, budget: nat)
    requires Valid(s, budget) && k < |s| && Enabled(s[k]) && period < RUNTIME_INF
    ensures Valid(BorrowLoop(s, k, 0, period), budget)
    ensures Borrowed(s, BorrowLoop(s, k, 0, period), k, period)
  {
    BorrowLoopOk(s, k, 0, period, budget);
  }

  /** What the queues from `i` on offer queue `k`: the n-th part of what each has to spare. */
  function Offer(s: seq<Queue>, k: nat, i: nat): nat
    requires k < |s| && i <= |s|
    decreases |s| - i
  {
    if i == |s| then 0
    else (if Lends(s, k, i) then Quot(s[i].runtime - s[i].time, |s|) else 0) + Offer(s, k, i + 1)
  }

  lemma {:induction false} OfferFrame(s: seq<Queue>, r: seq<Queue>, k: nat, i: nat)
    requires k < |s| == |r| && i <= |s| && forall j :: i <= j < |s| && j != k ==> r[j] == s[j]
    ensures Offer(r, k, i) == Offer(s, k, i)
    decreases |s| - i
  {
    if i < |s| { OfferFrame(s, r, k, i + 1); }
  }

  /** A borrower within the period gets all that is offered, up to the period. */
  lemma {:induction false} BorrowGains(s: seq<Queue>, k: nat, i: nat, period: nat)
    requires k < |s| && i <= |s| && s[k].runtime <= period
    ensures var wanted := s[k].runtime + Offer(s, k, i);
            BorrowLoop(s, k, i, period)[k].runtime == if wanted < period then wanted else period
    decreases |s| - i
  {
    if i < |s| {
      if !Lends(s, k, i) {
        BorrowGains(s, k, i + 1, period);
      } else {
        var s1 := Transfer(s, k, i, Share(s, k, i, period));
        OfferFrame(s, s1, k, i + 1);
        if s1[k].runtime != period { BorrowGains(s1, k, i + 1, period); }
      }
    }
  }

  function Clip(x: int, room: int): int { if room <= 0 then 0 else Min(x, room) }

  lemma {:induction false} LoopLeaves(s: seq<Queue>, k: nat, i: nat, period: nat, j: nat)
    requires k < |s| && j < i <= |s| && j != k
    ensures BorrowLoop(s, k, i, period)[j] == s[j]
    decreases |s| - i
  {
    if i < |s| {
      if !Lends(s, k, i) {
        LoopLeaves(s, k, i + 1, period, j);
      } else {
        var s1 := Transfer(s, k, i, Share(s, k, i, period));
        if s1[k].runtime != period { LoopLeaves(s1, k, i + 1, period, j); }
      }
    }
  }

  /** Each lender gives the n-th part of its spare time, or what the lenders before it leave of the room. */
  lemma {:induction false} LenderGives(s: seq<Queue>, k: nat, i: nat, period: nat, j: nat)
    requires k < |s| && i <= j < |s| && j != k && s[k].runtime <= period
    ensures s[j].runtime - BorrowLoop(s, k, i, period)[j].runtime ==
            if !Lends(s, k, j) then 0
            else Clip((s[j].runtime - s[j].time) / |s|, period - (s[k].runtime + Offer(s, k, i) - Offer(s, k, j)))
    decreases |s| - i
  {
    hide Quot;
    if !Lends(s, k, i) {
      if i == j { LoopLeaves(s, k, i + 1, period, j); } else { LenderGives(s, k, i + 1, period, j); }
    } else {
      var s1 := Transfer(s, k, i, Share(s, k, i, period));
      if i == j {
        if s1[k].runtime != period { LoopLeaves(s1, k, i + 1, period, j); }
      } else {
        OfferFrame(s, s1, k, i + 1);
        OfferFrame(s, s1, k, j);
        OfferFalls(s, k, i + 1, j);
        if s1[k].runtime != period { LenderGives(s1, k, i + 1, period, j); }
      }
    }
  }

  lemma {:induction false} OfferFalls(s: seq<Queue>, k: nat, i: nat, j: nat)
    requires k < |s| && i <= |s| && j <= |s|
    ensures i <= j ==> Offer(s, k, j) <= Offer(s, k, i)
    decreases |s| - i
  {
    if i < j { OfferFalls(s, k, i + 1, j); }
  }

  // ---------------------------------------------------------------- __disable_runtime

  /** The greedy reclaim loop: the new queues and what is still wanted. */
  function ReclaimLoop(s: seq<Queue>, k: nat, i: nat, want: int): (r: (seq<Queue>, int))
    requires k < |s| && i <= |s|
    ensures |r.0| == |s|
    decreases |s| - i
  {
    if i == |s| then (s, want)
    else if i == k || !Enabled(s[i]) then ReclaimLoop(s, k, i + 1, want)
    else
      var diff := if want > 0 then (if s[i].runtime < want then s[i].runtime else want) else want;
      var s1 := s[i := s[i].(runtime := s[i].runtime - diff)];
      if want - diff == 0 then (s1, 0) else ReclaimLoop(s1, k, i + 1, want - diff)
  }

  function Disable(s: seq<Queue>, k: nat, budget: nat): (r: seq<Queue>)
    requires k < |s|
    ensures |r| == |s|
  {
    var reclaimed :=
      if !Enabled(s[k]) || s[k].runtime == budget then s
      else ReclaimLoop(s, k, 0, budget - s[k].runtime).0;
    reclaimed[k := s[k].(runtime := RUNTIME_INF)]
  }

  /** What the other enabled queues from `i` on hold. */
  function OthersFrom(s: seq<Queue>, k: nat, i: nat): int
    requires i <= |s|
    decreases |s| - i
  {
    if i == |s| then 0 else (if i == k then 0 else Held(s[i])) + OthersFrom(s, k, i + 1)
  }

  ghost predicate SomeOther(s: seq<Queue>, k: nat, i: nat) {
    exists j :: i <= j < |s| && j != k && Enabled(s[j])
  }

  lemma {:induction false} OthersFrame(s: seq<Queue>, r: seq<Queue>, k: nat, i: nat)
    requires i <= |s| == |r| && forall j :: i <= j < |s| ==> r[j] == s[j]
    ensures OthersFrom(r, k, i) == OthersFrom(s, k, i)
    decreases |s| - i
  {
    if i < |s| { OthersFrame(s, r, k, i + 1); }
  }

  /** Reclaiming ends with nothing wanted, if the others can pay or, for a surplus, if there is another. */
  lemma {:induction false} ReclaimOk(s: seq<Queue>, k: nat, i: nat, want: int)
    requires k < |s| && i <= |s| && NonNeg(s) && Enabled(s[k])
    requires want != 0 && want <= OthersFrom(s, k, i) && (want < 0 ==> SomeOther(s, k, i))
    requires SumRuntime(s) < RUNTIME_INF
    requires want < 0 ==> -want <= s[k].runtime
    ensures var (r, left) := ReclaimLoop(s, k, i, want);
            && left == 0 && NonNeg(r) && r[k] == s[k]
            && SumRuntime(r) == SumRuntime(s) - want && NumEnabled(r) == NumEnabled(s)
            && (forall j :: 0 <= j < |s| ==> r[j].time == s[j].time && (Enabled(r[j]) <==> Enabled(s[j])))
    decreases |s| - i
  {
    if i < |s| {
      if i == k || !Enabled(s[i]) {
        ReclaimOk(s, k, i + 1, want);
      } else {
        var diff := if want > 0 then (if s[i].runtime < want then s[i].runtime else want) else want;
        var q := s[i].(runtime := s[i].runtime - diff);
        var s1 := s[i := q];
        TwoBelowSum(s, i, k);
        assert 0 <= q.runtime < RUNTIME_INF;
        SumUpdate(s, i, q);
        if want - diff != 0 {
          OthersFrame(s, s1, k, i + 1);
          ReclaimOk(s1, k, i + 1, want - diff);
        }
      }
    }
  }

  lemma {:induction false} OthersNonNeg(s: seq<Queue>, k: nat, i: nat)
    requires i <= |s| && NonNeg(s)
    ensures OthersFrom(s, k, i) >= 0
    decreases |s| - i
  {
    if i < |s| { OthersNonNeg(s, k, i + 1); }
  }

  /** Exactly when the greedy loop ends with nothing wanted: what is missing is there to be taken, or
      there is another enabled queue to take a surplus. */
  lemma {:induction false} ReclaimIff(s: seq<Queue>, k: nat, i: nat, want: int)
    requires k < |s| && i <= |s| && NonNeg(s) && want != 0
    ensures ReclaimLoop(s, k, i, want).1 == 0 <==> if want > 0 then want <= OthersFrom(s, k, i) else SomeOther(s, k, i)
    decreases |s| - i
  {
    if i < |s| {
      if i == k || !Enabled(s[i]) {
        ReclaimIff(s, k, i + 1, want);
      } else {
        OthersNonNeg(s, k, i + 1);
        var diff := if want > 0 then (if s[i].runtime < want then s[i].runtime else want) else want;
        var s1 := s[i := s[i].(runtime := s[i].runtime - diff)];
        if want - diff != 0 {
          OthersFrame(s, s1, k, i + 1);
          ReclaimIff(s1, k, i + 1, want - diff);
        }
      }
    }
  }

  lemma {:induction false} ReclaimLeaves(s: seq<Queue>, k: nat, i: nat, want: int, j: nat)
    requires k < |s| && j < i <= |s|
    ensures ReclaimLoop(s, k, i, want).0[j] == s[j]
    decreases |s| - i
  {
    if i < |s| {
      if i == k || !Enabled(s[i]) {
        ReclaimLeaves(s, k, i + 1, want, j);
      } else {
        var diff := if want > 0 then (if s[i].runtime < want then s[i].runtime else want) else want;
        var s1 := s[i := s[i].(runtime := s[i].runtime - diff)];
        if want - diff != 0 { ReclaimLeaves(s1, k, i + 1, want - diff, j); }
      }
    }
  }

  lemma {:induction false} OthersFall(s: seq<Queue>, k: nat, i: nat, j: nat)
    requires i <= |s| && j <= |s| && NonNeg(s)
    ensures i <= j ==> OthersFrom(s, k, j) <= OthersFrom(s, k, i)
    decreases |s| - i
  {
    if i < j { OthersFall(s, k, i + 1, j); }
  }

  lemma {:induction false} ShortfallPays(s: seq<Queue>, k: nat, i: nat, want: int, j: nat)
    requires k < |s| && i <= j < |s| && NonNeg(s) && want > 0
    ensures ReclaimLoop(s, k, i, want).0[j].time == s[j].time
    ensures s[j].runtime - ReclaimLoop(s, k, i, want).0[j].runtime ==
            if j == k || !Enabled(s[j]) then 0
            else Clip(s[j].runtime, want - (OthersFrom(s, k, i) - OthersFrom(s, k, j)))
    decreases |s| - i
  {
    if i == j {
      if i == k || !Enabled(s[i]) {
        ReclaimLeaves(s, k, i + 1, want, j);
      } else if s[i].runtime < want {
        ReclaimLeaves(s[i := s[i].(runtime := 0)], k, i + 1, want - s[i].runtime, j);
      }
    } else if i == k || !Enabled(s[i]) {
      ShortfallPays(s, k, i + 1, want, j);
    } else {
      OthersFall(s, k, i + 1, j);
      if s[i].runtime < want {
        var s1 := s[i := s[i].(runtime := 0)];
        OthersFrame(s, s1, k, i + 1);
        OthersFrame(s, s1, k, j);
        ShortfallPays(s1, k, i + 1, want - s[i].runtime, j);
      }
    }
  }

  lemma {:induction false} SurplusGoes(s: seq<Queue>, k: nat, i: nat, want: int, j: nat)
    requires k < |s| && i <= j < |s| && want < 0
    ensures ReclaimLoop(s, k, i, want).0[j].time == s[j].time
    ensures s[j].runtime - ReclaimLoop(s, k, i, want).0[j].runtime ==
            if j == k || !Enabled(s[j]) || exists m :: i <= m < j && m != k && Enabled(s[m]) then 0 else want
    decreases |s| - i
  {
    if i == k || !Enabled(s[i]) {
      if i == j { ReclaimLeaves(s, k, i + 1, want, j); } else { SurplusGoes(s, k, i + 1, want, j); }
    }
  }

  /** Who pays: each enabled queue in turn all it has, as far as it is still wanted; a surplus goes to the first. */
  lemma ReclaimPays(s: seq<Queue>, k: nat, i: nat, want: int, j: nat)
    requires k < |s| && i <= j < |s| && NonNeg(s) && want != 0
    ensures ReclaimLoop(s, k, i, want).0[j].time == s[j].time
    ensures s[j].runtime - ReclaimLoop(s, k, i, want).0[j].runtime ==
            if j == k || !Enabled(s[j]) then 0
            else if want > 0 then Clip(s[j].runtime, want - (OthersFrom(s, k, i) - OthersFrom(s, k, j)))
            else if exists m :: i <= m < j && m != k && Enabled(s[m]) then 0 else want
  {
    hide ReclaimLoop, OthersFrom;
    if want > 0 { ShortfallPays(s, k, i, want, j); } else { SurplusGoes(s, k, i, want, j); }
  }

  lemma {:induction false} OthersAreRest(s: seq<Queue>, k: nat, i: nat)
    requires k < |s| && i <= |s|
    ensures OthersFrom(s, k, i) == SumRuntime(s[i..]) - (if i <= k then Held(s[k]) else 0)
    decreases |s| - i
  {
    if i < |s| {
      OthersAreRest(s, k, i + 1);
      assert s[i..][0] == s[i] && s[i..][1..] == s[i + 1..];
    }
  }

  lemma {:induction false} NoOtherCount(s: seq<Queue>, k: nat)
    requires k < |s| && Enabled(s[k]) && !SomeOther(s, k, 0)
    ensures NumEnabled(s) == 1 && SumRuntime(s) == s[k].runtime
  {
    var off := Queue(RUNTIME_INF, 0);
    SumUpdate(s, k, off);
    AllDisabled(s[k := off]);
  }

  lemma {:induction false} AllDisabled(s: seq<Queue>)
    requires forall j :: 0 <= j < |s| ==> !Enabled(s[j])
    ensures NumEnabled(s) == 0 && SumRuntime(s) == 0
  {
    if s != [] { AllDisabled(s[1..]); }
  }

  /** __disable_runtime: the reclaim always gets back what was lent, so BUG_ON(want) cannot fire,
      and the remaining queues hold exactly their budgets. */
  lemma DisableOk(s: seq<Queue>, k: nat, budget: nat)
    requires Valid(s, budget) && k < |s|
    ensures Enabled(s[k]) && s[k].runtime != budget ==> ReclaimLoop(s, k, 0, budget - s[k].runtime).1 == 0
    ensures var r := Disable(s, k, budget);
            && Valid(r, budget) && !Enabled(r[k])
            && (forall j :: 0 <= j < |s| ==> r[j].time == s[j].time && (j != k ==> (Enabled(r[j]) <==> Enabled(s[j]))))
  {
    hide Times, ReclaimLoop;
    var off := s[k].(runtime := RUNTIME_INF);
    var n := NumEnabled(s);
    SumBelowInf(s, budget);
    if Enabled(s[k]) && s[k].runtime != budget {
      var want := budget - s[k].runtime;
      assert s[0..] == s;
      OthersAreRest(s, k, 0);
      if !SomeOther(s, k, 0) {
        NoOtherCount(s, k);
        assert false;
      }
      EnabledCounts(s, k);
      OneLess(n, budget);
      ReclaimOk(s, k, 0, want);
      SumUpdate(ReclaimLoop(s, k, 0, want).0, k, off);
    } else {
      SumUpdate(s, k, off);
      if Enabled(s[k]) {
        EnabledCounts(s, k);
        OneLess(n, budget);
      }
    }
  }

  lemma OneLess(n: nat, budget: nat)
    requires n >= 1
    ensures Times(n - 1, budget) == Times(n, budget) - budget >= 0
  {
    MulMono(1, n, budget);
  }

  lemma EnabledCounts(s: seq<Queue>, k: nat)
    requires k < |s| && Enabled(s[k])
    ensures NumEnabled(s) >= 1
  {
    SumUpdate(s, k, Queue(RUNTIME_INF, 0));
  }

  // ---------------------------------------------------------------- __enable_runtime

  function Enable(s: seq<Queue>, k: nat, budget: nat): seq<Queue>
    requires k < |s|
  {
    s[k := Queue(budget, 0)]
  }

  /** __enable_runtime resets the queue to its full budget: that conserves bandwidth exactly when the
      queue was disabled or held its budget already. */
  lemma EnableConservesIff(s: seq<Queue>, k: nat, budget: nat)
    requires Valid(s, budget) && k < |s|
    ensures Valid(Enable(s, k, budget), budget) <==> !Enabled(s[k]) || s[k].runtime == budget
    ensures var r := Enable(s, k, budget);
            |r| == |s| && r[k].runtime == budget && r[k].time == 0 && forall j :: 0 <= j < |s| && j != k ==> r[j] == s[j]
  {
    hide Times;
    var q := Queue(budget, 0);
    SumUpdate(s, k, q);
    SumNonNeg(s);
    OneLess(|s|, budget);
    OneLess(NumEnabled(s) + 1, budget);
  }

  /** CPU_DOWN_FAILED followed by CPU_ONLINE enables a queue twice; a loan made in between is forgotten. */
  lemma DoubleEnableLeaks()
    ensures var s := [Queue(10, 0), Queue(10, 12)];
            var lent := BorrowLoop(s, 1, 0, 20);
            && Valid(s, 10) && Valid(lent, 10) && lent == [Queue(5, 0), Queue(15, 12)]
            && !Valid(Enable(lent, 0, 10), 10)
  {
    var s := [Queue(10, 0), Queue(10, 12)];
    assert SumRuntime(s) == 20 && NumEnabled(s) == 2 by { TwoQueues(s[0], s[1]); }
    var lent := BorrowLoop(s, 1, 0, 20);
    assert Share(s, 1, 0, 20) == 5;
    var s1 := Transfer(s, 1, 0, 5);
    assert s1 == [Queue(5, 0), Queue(15, 12)];
    assert BorrowLoop(s1, 1, 1, 20) == BorrowLoop(s1, 1, 2, 20) == s1;
    TwoQueues(lent[0], lent[1]);
    EnableConservesIff(lent, 0, 10);
  }

  /** And it can end in BUG_ON(want): after that second enabling, disabling queue 0 and then queue 1
      leaves a surplus that nobody is there to take. */
  lemma DoubleEnableCrashes()
    ensures var lent := BorrowLoop([Queue(10, 0), Queue(10, 12)], 1, 0, 20);
            var s := Disable(Enable(lent, 0, 10), 0, 10);
            && |s| == 2 && Enabled(s[1]) && s[1].runtime != 10
            && ReclaimLoop(s, 1, 0, 10 - s[1].runtime).1 == -5
  {
    DoubleEnableLeaks();
    var lent := BorrowLoop([Queue(10, 0), Queue(10, 12)], 1, 0, 20);
    var s := Disable(Enable(lent, 0, 10), 0, 10);
    assert s == [Queue(RUNTIME_INF, 0), Queue(15, 12)];
    assert ReclaimLoop(s, 1, 2, -5).1 == -5;
    assert ReclaimLoop(s, 1, 1, -5).1 == -5;
  }

  lemma TwoQueues(a: Queue, b: Queue)
    ensures SumRuntime([a, b]) == Held(a) + Held(b)
    ensures NumEnabled([a, b]) == (if Enabled(a) then 1 else 0) + (if Enabled(b) then 1 else 0)
  {
    var s := [a, b];
    assert s[1..] == [b];
    assert s[1..][1..] == [];
    assert SumRuntime([b]) == Held(b) && NumEnabled([b]) == (if Enabled(b) then 1 else 0);
  }

  // ---------------------------------------------------------------- runs

  datatype Step =
    | BorrowStep(cpu: nat)
    | DisableStep(cpu: nat)
    | EnableStep(cpu: nat)
    | SetTime(cpu: nat, time: nat)   // charging and replenishing

  predicate CanStep(s: seq<Queue>, step: Step) {
    && step.cpu < |s|
    && match step
       case BorrowStep(k) => Enabled(s[k]) && s[k].time > s[k].runtime
       case DisableStep(_) => true
       case EnableStep(k) => !Enabled(s[k])
       case SetTime(_, _) => true
  }

  function Apply(s: seq<Queue>, step: Step, budget: nat, period: nat): seq<Queue>
    requires CanStep(s, step)
  {
    match step
    case BorrowStep(k) => BorrowLoop(s, k, 0, period)
    case DisableStep(k) => Disable(s, k, budget)
    case EnableStep(k) => Enable(s, k, budget)
    case SetTime(k, t) => s[k := s[k].(time := t)]
  }

  lemma StepKeeps(s: seq<Queue>, step: Step, budget: nat, period: nat)
    requires Valid(s, budget) && CanStep(s, step) && period < RUNTIME_INF
    ensures Valid(Apply(s, step, budget, period), budget)
    ensures |Apply(s, step, budget, period)| == |s|
  {
    match step
    case BorrowStep(k) => BorrowOk(s, k, period, budget);
    case DisableStep(k) => DisableOk(s, k, budget);
    case EnableStep(k) => EnableConservesIff(s, k, budget);
    case SetTime(k, t) => SumUpdate(s, k, s[k].(time := t));
  }

  ghost predicate IsRun(states: seq<seq<Queue>>, steps: seq<Step>, budget: nat, period: nat) {
    && |states| == |steps| + 1
    && (forall i :: 0 <= i < |states[0]| ==> states[0][i].runtime == budget)
    && Times(|states[0]|, budget) < RUNTIME_INF && budget < RUNTIME_INF
    && forall i :: 0 <= i < |steps| ==>
         CanStep(states[i], steps[i]) && states[i + 1] == Apply(states[i], steps[i], budget, period)
  }

  lemma {:induction false} FullBudgets(s: seq<Queue>, budget: nat)
    requires budget < RUNTIME_INF && forall i :: 0 <= i < |s| ==> s[i].runtime == budget
    ensures SumRuntime(s) == Times(|s|, budget) && NumEnabled(s) == |s|
  {
    if s != [] {
      FullBudgets(s[1..], budget);
      assert Times(|s|, budget) == Times(|s| - 1, budget) + budget;
    }
  }

  /** Over every run from full budgets the enabled queues of the span hold their budgets together. */
  lemma {:induction false} RunsConserve(states: seq<seq<Queue>>, steps: seq<Step>, budget: nat, period: nat, i: nat)
    requires IsRun(states, steps, budget, period) && period < RUNTIME_INF && i < |states|
    ensures Valid(states[i], budget) && |states[i]| == |states[0]|
  {
    if i == 0 {
      FullBudgets(states[0], budget);
    } else {
      RunsConserve(states, steps, budget, period, i - 1);
      StepKeeps(states[i - 1], steps[i - 1], budget, period);
    }
  }

  // ---------------------------------------------------------------- the loops as written

  /** do_balance_runtime */
  method DoBalanceRuntime(queues: array<Queue>, k: nat, period: nat) returns (more: bool)
    requires k < queues.Length && Enabled(queues[k])
    modifies queues
    ensures queues[..] == BorrowLoop(old(queues[..]), k, 0, period)
    ensures !more ==> queues[..] == old(queues[..])
  {
    more := false;
    var i := 0;
    ghost var s := queues[..];
    while i < queues.Length
      invariant 0 <= i <= queues.Length
      invariant BorrowLoop(queues[..], k, i, period) == BorrowLoop(s, k, 0, period)
      invariant !more ==> queues[..] == s
    {
      if i != k && queues[i].runtime != RUNTIME_INF {
        var diff := queues[i].runtime - queues[i].time;
        if diff > 0 {
          ghost var here := queues[..];
          diff := Quot(diff, queues.Length);
          if queues[k].runtime + diff > period { diff := period - queues[k].runtime; }
          queues[i] := queues[i].(runtime := queues[i].runtime - diff);
          queues[k] := queues[k].(runtime := queues[k].runtime + diff);
          more := true;
          assert queues[..] == Transfer(here, k, i, diff);
          if queues[k].runtime == period { break; }
        }
      }
      i := i + 1;
    }
  }

  /** __disable_runtime for one group; the assertion is BUG_ON(want). */
  method DisableRuntime(queues: array<Queue>, k: nat, budget: nat)
    requires k < queues.Length && Valid(queues[..], budget)
    modifies queues
    ensures queues[..] == Disable(old(queues[..]), k, budget)
    ensures Valid(queues[..], budget)
  {
    hide Valid;
    ghost var s := queues[..];
    DisableOk(s, k, budget);
    if queues[k].runtime != RUNTIME_INF && queues[k].runtime != budget {
      var want := budget - queues[k].runtime;
      ghost var want0 := want;
      var i := 0;
      while i < queues.Length
        invariant 0 <= i <= queues.Length && queues[k] == s[k]
        invariant ReclaimLoop(queues[..], k, i, want) == ReclaimLoop(s, k, 0, want0)
      {
        if i != k && queues[i].runtime != RUNTIME_INF {
          ghost var here := queues[..];
          var diff := want;
          if want > 0 && queues[i].runtime < want { diff := queues[i].runtime; }
          queues[i] := queues[i].(runtime := queues[i].runtime - diff);
          want := want - diff;
          assert queues[..] == here[i := here[i].(runtime := here[i].runtime - diff)];
          if want == 0 { break; }
        }
        i := i + 1;
      }
      assert want == 0;
    }
    queues[k] := queues[k].(runtime := RUNTIME_INF);
  }
}
