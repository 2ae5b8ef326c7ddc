/** Admission of real-time bandwidth over the tree of task groups (core.c). */
module Admission {
  import opened Kernel
  import opened Arith
  import opened Lists
  import opened TgTree

  const UNIT: nat := 1048576   // 1 << 20

  datatype Bandwidth = Bandwidth(period: nat, runtime: nat)

  /** `global` is the sysctl pair; `hasRt` are the groups with real-time tasks (tg_has_rt_tasks). */
  datatype Groups = Groups(tree: Tree, bw: seq<Bandwidth>, global: Bandwidth, hasRt: set<nat>)

  ghost predicate Shaped(s: Groups) {
    && Valid(s.tree) && |s.bw| == |s.tree.parent|
    && (forall g :: 0 <= g < |s.bw| ==> s.bw[g].period >= 1)
    && s.global.period >= 1
  }

  predicate Live(s: Groups, g: nat)
    requires Shaped(s)
  {
    g < |s.bw| && Below(s.tree, 0, g)
  }

  /** to_ratio: a 64-bit shift and division, returned as an unsigned long of 32 bits */
  function ToRatio(b: Bandwidth): (r: nat)
    requires b.period >= 1
    ensures r < WORD
  {
    if b.runtime == RUNTIME_INF then UNIT else Quot(b.runtime * UNIT % DOUBLE_WORD, b.period) % WORD
  }

  function GlobalRatio(s: Groups): nat
    requires Shaped(s)
  {
    ToRatio(s.global)
  }

  /** A proposed change of one group, or none (`d->tg == NULL`). */
  datatype Request = Keep | Change(g: nat, bw: Bandwidth)

  predicate RequestOk(s: Groups, r: Request) {
    r.Change? ==> r.g < |s.bw| && r.bw.period >= 1
  }

  function Effective(s: Groups, r: Request, g: nat): Bandwidth
    requires g < |s.bw|
  {
    if r.Change? && g == r.g then r.bw else s.bw[g]
  }

  function Proposed(s: Groups, r: Request): Groups
    requires RequestOk(s, r)
  {
    if r.Change? then s.(bw := s.bw[r.g := r.bw]) else s
  }

  /** The children's sum, which the code keeps in an unsigned long. */
  function SumRatios(s: Groups, r: Request, l: seq<nat>): nat
    requires Shaped(s) && RequestOk(s, r) && forall i :: 0 <= i < |l| ==> l[i] < |s.bw|
  {
    if l == [] then 0 else (ToRatio(Effective(s, r, l[0])) + SumRatios(s, r, l[1..])) % WORD
  }

  /** tg_rt_schedulable */
  function Check(s: Groups, r: Request, g: nat): int
    requires Shaped(s) && RequestOk(s, r) && g < |s.bw|
  {
    assert ListOk(s.tree, g);
    var b := Effective(s, r, g);
    if b.runtime > b.period && b.runtime != RUNTIME_INF then -EINVAL
    else if s.global.runtime != RUNTIME_INF && b.runtime == 0 && g in s.hasRt then -EBUSY
    else if ToRatio(b) > GlobalRatio(s) then -EINVAL
    else if SumRatios(s, r, s.tree.children[g]) > ToRatio(b) then -EINVAL
    else 0
  }

  function CheckVisitor(s: Groups, r: Request): Visitor
    requires Shaped(s) && RequestOk(s, r)
  {
    (g: nat, trace: seq<Event>) => if g < |s.bw| then Check(s, r, g) else 0
  }

  function Nop(): Visitor {
    (g: nat, trace: seq<Event>) => 0
  }

  /** __rt_schedulable */
  function RtSchedulable(s: Groups, r: Request): int
    requires Shaped(s) && RequestOk(s, r)
  {
    Walk(s.tree, CheckVisitor(s, r), Nop(), 0, []).ret
  }

  // ---------------------------------------------------------------- what is admitted

  ghost function Ratio(s: Groups, g: nat): nat
    requires Shaped(s) && g < |s.bw|
  {
    ToRatio(s.bw[g])
  }

  ghost function KidsRatio(s: Groups, l: seq<nat>): nat
    requires Shaped(s) && forall i :: 0 <= i < |l| ==> l[i] < |s.bw|
  {
    if l == [] then 0 else Ratio(s, l[0]) + KidsRatio(s, l[1..])
  }

  /** Group `g` fits the global setting and its children fit it. */
  ghost predicate Fits(s: Groups, g: nat)
    requires Shaped(s) && g < |s.bw|
  {
    && Sane(s.bw[g]) && Ratio(s, g) <= GlobalRatio(s)
    && (forall i :: 0 <= i < |s.tree.children[g]| ==> s.tree.children[g][i] < |s.bw|)
    && KidsRatio(s, s.tree.children[g]) <= Ratio(s, g)
  }

  ghost predicate Sound(s: Groups, g: nat)
    requires Shaped(s) && g < |s.bw|
  {
    !(s.global.runtime != RUNTIME_INF && s.bw[g].runtime == 0 && g in s.hasRt)
  }

  ghost predicate Admitted(s: Groups) {
    && Shaped(s) && Sane(s.global)
    && forall g :: 0 <= g < |s.bw| && Live(s, g) ==> Fits(s, g)
  }

  /** What is asked of every setting by itself: no more runtime than the period, or no limit. */
  predicate Sane(b: Bandwidth) { b.period >= 1 && (b.runtime <= b.period || b.runtime == RUNTIME_INF) }

  lemma SaneRatio(b: Bandwidth)
    requires Sane(b)
    ensures ToRatio(b) <= UNIT
  {
    if b.runtime != RUNTIME_INF {
      var v := b.runtime * UNIT % DOUBLE_WORD;
      assert v <= b.period * UNIT;
      QuotientBelow(v, b.period, UNIT);
    }
  }

  lemma QuotientBelow(v: nat, d: nat, k: nat)
    requires d >= 1 && v <= d * k
    ensures Quot(v, d) <= k
  {
    DivBounds(v, d);
    var q := Quot(v, d);
    if q > k { MulMono(k + 1, q, d); }
  }

  /** No width is exceeded for a runtime up to the period and below 2^44 nanoseconds. */
  lemma RatioExact(b: Bandwidth)
    requires 1 <= b.period && b.runtime <= b.period && b.runtime < 0x1000_0000_0000
    ensures ToRatio(b) == Quot(b.runtime * UNIT, b.period)
  {
    var v := b.runtime * UNIT;
    ModSmall(v, DOUBLE_WORD);
    assert v <= b.period * UNIT;
    QuotientBelow(v, b.period, UNIT);
    ExactQuot(v, b.period);
  }

  /** No limit counts as the whole period. */
  lemma UnlimitedIsWhole(period: nat)
    requires 1 <= period < 0x1000_0000_0000
    ensures ToRatio(Bandwidth(period, RUNTIME_INF)) == ToRatio(Bandwidth(period, period)) == UNIT
  {
    RatioExact(Bandwidth(period, period));
    DivIs(period * UNIT, period, UNIT);
  }

  lemma ExactQuot(v: nat, d: nat)
    requires d >= 1 && Quot(v, d) <= UNIT
    ensures Quot(v, d) % WORD == Quot(v, d)
  {
    ModSmall(Quot(v, d), WORD);
  }

  lemma ModSmall(n: nat, m: nat)
    requires n < m
    ensures n % m == n
  {
  }

  /** In every live group the children's ratios are small enough for their sum to be exact. */
  ghost predicate Summable(s: Groups) {
    && Shaped(s) && Sane(s.global)
    && forall g :: 0 <= g < |s.bw| && Live(s, g) ==>
         (forall i :: 0 <= i < |s.tree.children[g]| ==> s.tree.children[g][i] < |s.bw|) && KidsRatio(s, s.tree.children[g]) <= UNIT
  }

  lemma AdmittedSummable(s: Groups)
    requires Admitted(s)
    ensures Summable(s)
  {
    SaneRatio(s.global);
    forall g | 0 <= g < |s.bw| && Live(s, g)
      ensures (forall i :: 0 <= i < |s.tree.children[g]| ==> s.tree.children[g][i] < |s.bw|) && KidsRatio(s, s.tree.children[g]) <= UNIT
    {
      assert Fits(s, g);
    }
  }

  lemma {:induction false} SumsAgree(s: Groups, r: Request, l: seq<nat>)
    requires Shaped(s) && RequestOk(s, r) && Shaped(Proposed(s, r)) && forall i :: 0 <= i < |l| ==> l[i] < |s.bw|
    ensures SumRatios(s, r, l) == KidsRatio(Proposed(s, r), l) % WORD
  {
    if l != [] {
      hide ToRatio;
      SumsAgree(s, r, l[1..]);
      WrapSum(ToRatio(Effective(s, r, l[0])), KidsRatio(Proposed(s, r), l[1..]));
    }
  }

  lemma WrapSum(a: nat, b: nat)
    ensures (a + b % WORD) % WORD == (a + b) % WORD
  {
  }

  /** A change of one group adds at most its new ratio to any sum it enters. */
  lemma {:induction false} ChangedSum(s: Groups, r: Request, l: seq<nat>)
    requires Shaped(s) && RequestOk(s, r) && Shaped(Proposed(s, r)) && Distinct(l) && forall i :: 0 <= i < |l| ==> l[i] < |s.bw|
    ensures KidsRatio(Proposed(s, r), l) <= KidsRatio(s, l) + (if r.Change? && r.g in l then ToRatio(r.bw) else 0)
  {
    if l != [] {
      hide ToRatio;
      var rest := l[1..];
      assert forall k :: 0 <= k < |rest| ==> rest[k] == l[k + 1];
      assert l[0] !in rest;
      ChangedSum(s, r, rest);
    }
  }

  /** What one call of the check tells: all of the group's part, save that the children's sum may have wrapped. */
  lemma CheckMeaning(s: Groups, r: Request, g: nat)
    requires Shaped(s) && RequestOk(s, r) && g < |s.bw|
    ensures Shaped(Proposed(s, r))
    ensures forall i :: 0 <= i < |s.tree.children[g]| ==> s.tree.children[g][i] < |s.bw|
    ensures var p := Proposed(s, r);
            Check(s, r, g) == 0 <==>
            Sane(p.bw[g]) && Sound(p, g) && Ratio(p, g) <= GlobalRatio(p) && KidsRatio(p, s.tree.children[g]) % WORD <= Ratio(p, g)
    ensures Check(s, r, g) in {0, -22, -16}
    ensures Check(s, r, g) == -16 <==> Sane(Proposed(s, r).bw[g]) && !Sound(Proposed(s, r), g)
  {
    hide ToRatio;
    assert ListOk(s.tree, g);
    SumsAgree(s, r, s.tree.children[g]);
  }

  /** The code's check of every live group. */
  ghost predicate AllPass(s: Groups, r: Request)
    requires Shaped(s) && RequestOk(s, r)
  {
    forall g :: 0 <= g < |s.bw| && Live(s, g) ==> Check(s, r, g) == 0
  }

  lemma WalkPasses(s: Groups, r: Request)
    requires Shaped(s) && RequestOk(s, r)
    ensures RtSchedulable(s, r) == 0 <==> AllPass(s, r)
    ensures RtSchedulable(s, r) in {0, -22, -16}
  {
    forall g | 0 <= g < |s.bw|
      ensures Check(s, r, g) in {0, -22, -16}
    {
      CheckMeaning(s, r, g);
    }
    hide Check;
    var check := (g: nat) => CheckVisitor(s, r)(g, []);
    assert Oblivious(CheckVisitor(s, r), check);
    WalkChecksAll(s.tree, CheckVisitor(s, r), Nop(), check, 0, []);
    assert forall g :: 0 <= g < |s.bw| ==> check(g) == Check(s, r, g);
    WalkReturns(s.tree, CheckVisitor(s, r), Nop(), check, 0, []);
  }

  /** If all groups pass, the one that changes has a small ratio itself, so no sum has wrapped. */
  lemma NoWrap(s: Groups, r: Request, g: nat)
    requires Summable(s) && RequestOk(s, r) && AllPass(s, r) && g < |s.bw| && Live(s, g)
    ensures Shaped(Proposed(s, r)) && forall i :: 0 <= i < |s.tree.children[g]| ==> s.tree.children[g][i] < |s.bw|
    ensures KidsRatio(Proposed(s, r), s.tree.children[g]) <= 2 * UNIT
  {
    hide ToRatio, Check;
    var kids := s.tree.children[g];
    assert ListOk(s.tree, g);
    CheckMeaning(s, r, g);
    ChangedSum(s, r, kids);
    if r.Change? && r.g in kids {
      var i :| 0 <= i < |kids| && kids[i] == r.g;
      ChildBelow(s.tree, 0, g, i);
      CheckMeaning(s, r, r.g);
      SaneRatio(s.global);
    }
  }

  ghost predicate FitsAndSound(s: Groups, g: nat)
    requires Shaped(s) && g < |s.bw|
  {
    Fits(s, g) && Sound(s, g)
  }

  lemma PassFits(s: Groups, r: Request, g: nat)
    requires Summable(s) && RequestOk(s, r) && AllPass(s, r) && g < |s.bw| && Live(s, g)
    ensures Shaped(Proposed(s, r)) && FitsAndSound(Proposed(s, r), g)
  {
    hide ToRatio, Check, Sound;
    CheckMeaning(s, r, g);
    NoWrap(s, r, g);
  }

  lemma FitsPass(s: Groups, r: Request, g: nat)
    requires Shaped(s) && RequestOk(s, r) && g < |s.bw| && Shaped(Proposed(s, r)) && FitsAndSound(Proposed(s, r), g)
    ensures Check(s, r, g) == 0
  {
    hide ToRatio, Check, Sound;
    CheckMeaning(s, r, g);
  }

  /** The walk accepts a proposal iff every live group would fit and be sound under it. */
  lemma AcceptedIff(s: Groups, r: Request)
    requires Summable(s) && RequestOk(s, r)
    ensures Shaped(Proposed(s, r)) && RtSchedulable(s, r) in {0, -22, -16}
    ensures RtSchedulable(s, r) == 0 <==>
            forall g :: 0 <= g < |s.bw| && Live(s, g) ==> FitsAndSound(Proposed(s, r), g)
  {
    WalkPasses(s, r);
    CheckMeaning(s, r, 0);
    hide RtSchedulable, Check, FitsAndSound;
    forall g | 0 <= g < |s.bw| && Live(s, g)
      ensures AllPass(s, r) ==> FitsAndSound(Proposed(s, r), g)
      ensures FitsAndSound(Proposed(s, r), g) ==> Check(s, r, g) == 0
    {
      if AllPass(s, r) { PassFits(s, r, g); }
      if FitsAndSound(Proposed(s, r), g) { FitsPass(s, r, g); }
    }
  }

  // ---------------------------------------------------------------- operations

  /** tg_set_rt_bandwidth */
  function SetBandwidth(s: Groups, g: nat, bw: Bandwidth): (Groups, int)
    requires Shaped(s) && g < |s.bw| && bw.period >= 1
  {
    var err := RtSchedulable(s, Change(g, bw));
    (if err != 0 then s else s.(bw := s.bw[g := bw]), err)
  }

  /** sched_rt_handler with sched_rt_global_constraints: a rejected setting is rolled back. */
  function SetGlobal(s: Groups, global: Bandwidth): (Groups, int)
    requires Shaped(s)
  {
    if global.period == 0 then (s, -EINVAL)
    else if global.runtime > global.period && global.runtime != RUNTIME_INF then (s, -EINVAL)
    else
      var s1 := s.(global := global);
      var err := RtSchedulable(s1, Keep);
      (if err != 0 then s else s1, err)
  }

  /** sched_create_group: no runtime, the default period, in front of its siblings. */
  function Create(s: Groups, p: nat): Groups
    requires Shaped(s) && p < |s.bw|
  {
    var n := |s.bw|;
    var kids := s.tree.children;
    s.(tree := Tree(s.tree.parent + [p], kids[p := [n] + kids[p]] + [[]]),
       bw := s.bw + [Bandwidth(s.global.period, 0)])
  }

  /** sched_destroy_group */
  function Destroy(s: Groups, g: nat): Groups
    requires Shaped(s) && 0 < g < |s.bw|
  {
    var p := s.tree.parent[g];
    s.(tree := s.tree.(children := s.tree.children[p := Without(s.tree.children[p], g)]))
  }

  // ---------------------------------------------------------------- each operation keeps the invariant

  lemma SetBandwidthKeeps(s: Groups, g: nat, bw: Bandwidth)
    requires Admitted(s) && g < |s.bw| && bw.period >= 1
    ensures Admitted(SetBandwidth(s, g, bw).0)
    ensures SetBandwidth(s, g, bw).1 == 0 ==> SetBandwidth(s, g, bw).0.bw == s.bw[g := bw]
    ensures SetBandwidth(s, g, bw).1 != 0 ==> SetBandwidth(s, g, bw).0 == s && SetBandwidth(s, g, bw).1 in {-22, -16}
  {
    hide RtSchedulable, Fits, Sound;
    AdmittedSummable(s);
    AcceptedIff(s, Change(g, bw));
    var r := SetBandwidth(s, g, bw).0;
    forall h | 0 <= h < |r.bw| && Live(r, h)
      ensures Fits(r, h)
    {
      assert Live(s, h);
      if SetBandwidth(s, g, bw).1 == 0 { assert FitsAndSound(r, h); }
    }
  }

  lemma GlobalSummable(s: Groups, global: Bandwidth)
    requires Summable(s) && Sane(global)
    ensures Summable(s.(global := global))
  {
    hide ToRatio;
    var r := s.(global := global);
    forall g | 0 <= g < |r.bw| && Live(r, g)
      ensures (forall i :: 0 <= i < |r.tree.children[g]| ==> r.tree.children[g][i] < |r.bw|) && KidsRatio(r, r.tree.children[g]) <= UNIT
    {
      assert Live(s, g);
      KidsRatioFrame(s, r, s.tree.children[g]);
    }
  }

  lemma SetGlobalKeeps(s: Groups, global: Bandwidth)
    requires Admitted(s)
    ensures Admitted(SetGlobal(s, global).0)
    ensures SetGlobal(s, global).1 != 0 ==> SetGlobal(s, global).0 == s && SetGlobal(s, global).1 in {-22, -16}
    ensures SetGlobal(s, global).1 == 0 ==> SetGlobal(s, global).0 == s.(global := global)
    ensures SetGlobal(s, global).1 == 0 <==>
            Sane(global) && var r := s.(global := global); Shaped(r) && forall g :: 0 <= g < |s.bw| && Live(s, g) ==> FitsAndSound(r, g)
  {
    hide RtSchedulable, Fits, Sound;
    if Sane(global) {
      AdmittedSummable(s);
      GlobalSummable(s, global);
      AcceptedIff(s.(global := global), Keep);
    }
  }

  lemma {:induction false} BelowCreate(s: Groups, p: nat, h: nat)
    requires Shaped(s) && p < |s.bw| && h < |s.bw| && Shaped(Create(s, p))
    ensures Below(Create(s, p).tree, 0, h) <==> Below(s.tree, 0, h)
    decreases h
  {
    if h != 0 { BelowCreate(s, p, s.tree.parent[h]); }
  }

  lemma CreateShaped(s: Groups, p: nat)
    requires Shaped(s) && p < |s.bw|
    ensures Shaped(Create(s, p))
  {
    var r := Create(s, p);
    forall g | 0 <= g < |r.bw|
      ensures ListOk(r.tree, g)
    {
      if g < |s.bw| {
        assert ListOk(s.tree, g);
        if g == p {
          assert forall i :: 0 < i < |r.tree.children[g]| ==> r.tree.children[g][i] == s.tree.children[g][i - 1];
        }
      }
    }
  }

  lemma {:induction false} KidsRatioFrame(s: Groups, r: Groups, l: seq<nat>)
    requires Shaped(s) && Shaped(r) && forall i :: 0 <= i < |l| ==> l[i] < |s.bw| && l[i] < |r.bw| && s.bw[l[i]] == r.bw[l[i]]
    ensures KidsRatio(s, l) == KidsRatio(r, l)
  {
    if l != [] { KidsRatioFrame(s, r, l[1..]); }
  }

  lemma ZeroRatio(period: nat)
    requires period >= 1
    ensures ToRatio(Bandwidth(period, 0)) == 0
  {
    QuotientBelow(0, period, 0);
  }

  lemma CreateKeeps(s: Groups, p: nat)
    requires Admitted(s) && p < |s.bw| && Live(s, p)
    ensures Admitted(Create(s, p)) && Live(Create(s, p), |s.bw|)
    ensures forall g :: 0 <= g < |s.bw| ==> (Live(Create(s, p), g) <==> Live(s, g))
    ensures var r, n := Create(s, p), |s.bw|;
            && r.tree.parent == s.tree.parent + [p] && r.bw == s.bw + [Bandwidth(s.global.period, 0)]
            && r.global == s.global && r.hasRt == s.hasRt && |r.tree.children| == n + 1 && r.tree.children[n] == []
            && forall g :: 0 <= g < n ==> r.tree.children[g] == if g == p then [n] + s.tree.children[g] else s.tree.children[g]
  {
    CreateShaped(s, p);
    var r := Create(s, p);
    var n := |s.bw|;
    ZeroRatio(s.global.period);
    forall g | 0 <= g < |r.bw| && Live(r, g)
      ensures Fits(r, g)
    {
      assert ListOk(r.tree, g);
      if g < n {
        BelowCreate(s, p, g);
        assert Fits(s, g);
        assert ListOk(s.tree, g);
        KidsRatioFrame(s, r, s.tree.children[g]);
        if g == p { assert r.tree.children[g][1..] == s.tree.children[g]; }
      }
    }
    forall g | 0 <= g < n
      ensures Live(r, g) <==> Live(s, g)
    {
      BelowCreate(s, p, g);
    }
    assert n == r.tree.children[p][0];
  }

  /** Removing a group removes what lies below it and nothing else. */
  lemma {:induction false} LiveDestroy(s: Groups, g: nat, h: nat)
    requires Shaped(s) && 0 < g < |s.bw| && h < |s.bw| && Shaped(Destroy(s, g))
    ensures Below(Destroy(s, g).tree, 0, h) <==> Below(s.tree, 0, h) && !Below(s.tree, g, h)
    decreases h
  {
    if h != 0 {
      LiveDestroy(s, g, s.tree.parent[h]);
      if Below(s.tree, g, s.tree.parent[h]) { BelowIsLarger(s.tree, g, s.tree.parent[h]); }
    }
  }

  lemma {:induction false} WithoutSmaller(s: Groups, l: seq<nat>, x: nat)
    requires Shaped(s) && forall i :: 0 <= i < |l| ==> l[i] < |s.bw|
    ensures forall i :: 0 <= i < |Without<nat>(l, x)| ==> Without<nat>(l, x)[i] < |s.bw|
    ensures KidsRatio(s, Without<nat>(l, x)) <= KidsRatio(s, l)
  {
    var r := Without<nat>(l, x);
    assert forall i :: 0 <= i < |r| ==> r[i] in r;
    if l != [] { WithoutSmaller(s, l[1..], x); }
  }

  lemma DestroyShaped(s: Groups, g: nat)
    requires Shaped(s) && 0 < g < |s.bw|
    ensures Shaped(Destroy(s, g))
  {
    var r := Destroy(s, g);
    forall h | 0 <= h < |s.bw|
      ensures ListOk(r.tree, h)
    {
      assert ListOk(s.tree, h);
      if h == s.tree.parent[g] {
        WithoutDistinct(s.tree.children[h], g);
        assert r.tree.children[h] == Without(s.tree.children[h], g);
      } else {
        assert r.tree.children[h] == s.tree.children[h];
      }
      assert forall i :: 0 <= i < |r.tree.children[h]| ==> r.tree.children[h][i] in r.tree.children[h];
    }
  }

  lemma DestroyKeeps(s: Groups, g: nat)
    requires Admitted(s) && 0 < g < |s.bw|
    ensures Admitted(Destroy(s, g)) && Destroy(s, g).(tree := s.tree) == s
    ensures forall h :: 0 <= h < |s.bw| ==> (Live(Destroy(s, g), h) <==> Live(s, h) && !Below(s.tree, g, h))
    ensures var r := Destroy(s, g);
            |r.tree.children| == |s.bw| && forall h :: 0 <= h < |s.bw| ==> r.tree.children[h] == Without(s.tree.children[h], g)
  {
    DestroyShaped(s, g);
    var r := Destroy(s, g);
    forall h | 0 <= h < |s.bw|
      ensures Live(r, h) <==> Live(s, h) && !Below(s.tree, g, h)
      ensures r.tree.children[h] == Without(s.tree.children[h], g)
    {
      LiveDestroy(s, g, h);
      assert ListOk(s.tree, h);
    }
    forall h | 0 <= h < |r.bw| && Live(r, h)
      ensures Fits(r, h)
    {
      LiveDestroy(s, g, h);
      assert Fits(s, h);
      assert ListOk(s.tree, h) && ListOk(r.tree, h);
      WithoutSmaller(s, s.tree.children[h], g);
      KidsRatioFrame(s, r, r.tree.children[h]);
    }
  }

  // ---------------------------------------------------------------- runs

  datatype Step =
    | SetBw(g: nat, bw: Bandwidth)
    | SetGlob(bw: Bandwidth)
    | NewGroup(within: nat)
    | DropGroup(g: nat)
    | Tasks(hasRt: set<nat>)

  ghost predicate CanStep(s: Groups, step: Step)
    requires Shaped(s)
  {
    match step
    case SetBw(g, bw) => g < |s.bw| && bw.period >= 1
    case SetGlob(_) => true
    case NewGroup(p) => p < |s.bw| && Live(s, p)
    case DropGroup(g) => 0 < g < |s.bw| && Live(s, g) && s.tree.children[g] == []
    case Tasks(_) => true
  }

  function Apply(s: Groups, step: Step): Groups
    requires Shaped(s) && CanStep(s, step)
  {
    match step
    case SetBw(g, bw) => SetBandwidth(s, g, bw).0
    case SetGlob(bw) => SetGlobal(s, bw).0
    case NewGroup(p) => Create(s, p)
    case DropGroup(g) => Destroy(s, g)
    case Tasks(h) => s.(hasRt := h)
  }

  lemma StepKeeps(s: Groups, step: Step)
    requires Admitted(s) && CanStep(s, step)
    ensures Admitted(Apply(s, step))
  {
    hide SetBandwidth, SetGlobal, Create, Destroy;
    match step
    case SetBw(g, bw) => SetBandwidthKeeps(s, g, bw);
    case SetGlob(bw) => SetGlobalKeeps(s, bw);
    case NewGroup(p) => CreateKeeps(s, p);
    case DropGroup(g) => DestroyKeeps(s, g);
    case Tasks(h) =>
      var r := s.(hasRt := h);
      forall g | 0 <= g < |r.bw| && Live(r, g)
        ensures Fits(r, g)
      {
        assert Live(s, g) && Fits(s, g);
        KidsRatioFrame(s, r, s.tree.children[g]);
      }
  }

  ghost predicate IsRun(states: seq<Groups>, steps: seq<Step>) {
    && |states| == |steps| + 1
    && Shaped(states[0]) && Sane(states[0].global) && states[0].tree == Tree([0], [[]]) && states[0].bw == [states[0].global]
    && forall i :: 0 <= i < |steps| ==>
         Shaped(states[i]) && CanStep(states[i], steps[i]) && states[i + 1] == Apply(states[i], steps[i])
  }

  /** After any sequence of operations every group's children fit into it and it fits the global setting. */
  lemma {:induction false} RunsAdmitted(states: seq<Groups>, steps: seq<Step>, i: nat)
    requires IsRun(states, steps) && i < |states|
    ensures Admitted(states[i])
  {
    if i > 0 {
      RunsAdmitted(states, steps, i - 1);
      StepKeeps(states[i - 1], steps[i - 1]);
    }
  }

  // ---------------------------------------------------------------- unrelated groups

  ghost function SumOf(s: Groups, a: set<nat>): nat
    requires Shaped(s) && forall g :: g in a ==> g < |s.bw|
  {
    if a == {} then 0 else var x :| x in a; Ratio(s, x) + SumOf(s, a - {x})
  }

  lemma {:induction false} SumOfAny(s: Groups, a: set<nat>, y: nat)
    requires Shaped(s) && (forall g :: g in a ==> g < |s.bw|) && y in a
    ensures SumOf(s, a) == Ratio(s, y) + SumOf(s, a - {y})
  {
    var x :| x in a && SumOf(s, a) == Ratio(s, x) + SumOf(s, a - {x});
    if x != y {
      SumOfAny(s, a - {x}, y);
      SumOfAny(s, a - {y}, x);
      assert a - {x} - {y} == a - {y} - {x};
    }
  }

  lemma {:induction false} SumOfUnion(s: Groups, a: set<nat>, b: set<nat>)
    requires Shaped(s) && (forall g :: g in a + b ==> g < |s.bw|) && a !! b
    ensures SumOf(s, a + b) == SumOf(s, a) + SumOf(s, b)
  {
    if a == {} {
      assert a + b == b;
    } else {
      var x :| x in a;
      assert forall g :: g in a ==> g in a + b;
      SumOfAny(s, a, x);
      SumOfAny(s, a + b, x);
      assert a + b - {x} == (a - {x}) + b;
      SumOfUnion(s, a - {x}, b);
    }
  }

  /** The members of `a` below `g`. */
  ghost function Under(s: Groups, a: set<nat>, g: nat): set<nat>
    requires Shaped(s)
  {
    set h | h in a && h < |s.bw| && Below(s.tree, g, h)
  }

  ghost function UnderKids(s: Groups, a: set<nat>, g: nat, i: nat): set<nat>
    requires Shaped(s) && g < |s.bw|
  {
    set h | h in a && h < |s.bw| && exists j :: i <= j < |s.tree.children[g]| && BelowKid(s.tree, g, j, h)
  }

  ghost predicate Unrelated(s: Groups, a: set<nat>)
    requires Shaped(s)
  {
    && (forall g :: g in a ==> g < |s.bw|)
    && (forall g, h :: g in a && h in a && g != h ==> !Below(s.tree, g, h))
  }

  lemma {:induction false} UnderBound(s: Groups, a: set<nat>, g: nat)
    requires Admitted(s) && Unrelated(s, a) && g < |s.bw| && Live(s, g)
    ensures SumOf(s, Under(s, a, g)) <= Ratio(s, g)
    decreases |s.bw| - g, |s.tree.children[g]| + 1
  {
    assert Fits(s, g);
    if g in a {
      assert Below(s.tree, g, g);
      assert Under(s, a, g) == {g};
      SumOfAny(s, {g}, g);
      assert {g} - {g} == {};
    } else {
      forall h | h in Under(s, a, g)
        ensures h in UnderKids(s, a, g, 0)
      {
        var i := TowardChild(s.tree, g, h);
        assert BelowKid(s.tree, g, i, h);
      }
      forall h | h in UnderKids(s, a, g, 0)
        ensures h in Under(s, a, g)
      {
        var j :| 0 <= j < |s.tree.children[g]| && BelowKid(s.tree, g, j, h);
        assert Below(s.tree, g, g);
        ChildBelow(s.tree, g, g, j);
        BelowTransitive(s.tree, g, s.tree.children[g][j], h);
      }
      assert Under(s, a, g) == UnderKids(s, a, g, 0);
      UnderKidsBound(s, a, g, 0);
      assert s.tree.children[g][0..] == s.tree.children[g];
    }
  }

  lemma {:induction false} UnderKidsBound(s: Groups, a: set<nat>, g: nat, i: nat)
    requires Admitted(s) && Unrelated(s, a) && g < |s.bw| && Live(s, g) && i <= |s.tree.children[g]|
    requires forall k :: 0 <= k < |s.tree.children[g]| ==> s.tree.children[g][k] < |s.bw|
    ensures SumOf(s, UnderKids(s, a, g, i)) <= KidsRatio(s, s.tree.children[g][i..])
    decreases |s.bw| - g, |s.tree.children[g]| - i
  {
    var l := s.tree.children[g];
    if i == |l| {
      assert UnderKids(s, a, g, i) == {};
    } else {
      var c := l[i];
      ChildBelow(s.tree, 0, g, i);
      UnderBound(s, a, c);
      UnderKidsBound(s, a, g, i + 1);
      var x, y := Under(s, a, c), UnderKids(s, a, g, i + 1);
      forall h | h in x
        ensures h in UnderKids(s, a, g, i) && h !in y
      {
        assert BelowKid(s.tree, g, i, h);
        if h in y {
          var j :| i + 1 <= j < |l| && BelowKid(s.tree, g, j, h);
          KidsDisjoint(s.tree, g, i, j, h);
        }
      }
      assert UnderKids(s, a, g, i) == x + y;
      SumOfUnion(s, x, y);
      assert l[i..][1..] == l[i + 1..];
    }
  }

  /** Any groups of which none encloses another get together at most the root's share,
      and hence at most what the global setting allows. */
  lemma UnrelatedBound(s: Groups, a: set<nat>)
    requires Admitted(s) && Unrelated(s, a) && forall g :: g in a ==> Live(s, g)
    ensures SumOf(s, a) <= Ratio(s, 0) <= GlobalRatio(s)
  {
    assert Live(s, 0);
    UnderBound(s, a, 0);
    assert Under(s, a, 0) == a;
    assert Fits(s, 0);
  }

  // ---------------------------------------------------------------- exact shares

  /** The exact part of the time, of which ToRatio is a 20-bit approximation. */
  ghost function Share(b: Bandwidth): real
    requires b.period >= 1
  {
    if b.runtime == RUNTIME_INF then 1.0 else b.runtime as real / b.period as real
  }

  /** Small enough for the 64-bit shift. The interface takes microseconds in a 32-bit long. */
  predicate Narrow(b: Bandwidth) { b.runtime == RUNTIME_INF || b.runtime < 0x1000_0000_0000 }

  lemma ScaledProduct(p: real, x: real)
    ensures Mul(p, 1048576.0 * x) == 1048576.0 * Mul(p, x)
  {
  }

  /** A quotient against a bound, through the product. */
  lemma ShareAgainst(runtime: nat, period: nat, k: nat)
    requires period >= 1
    ensures runtime * UNIT <= k * period ==> 1048576.0 * (runtime as real / period as real) <= k as real
    ensures k * period <= runtime * UNIT ==> k as real <= 1048576.0 * (runtime as real / period as real)
    ensures runtime * UNIT < k * period ==> 1048576.0 * (runtime as real / period as real) < k as real
  {
    var p, x, c := period as real, runtime as real / period as real, k as real;
    DivTimes(runtime as real, p);
    ScaledProduct(p, x);
    OfInts(k, period);
    hide Mul;
    Commute(c, p);
    var y := 1048576.0 * x;
    Distribute(p, y, c);
    if y > c { PositiveProduct(p, y - c); }
    Distribute(p, c, y);
    if c > y { PositiveProduct(p, c - y); }
    if c == y { assert Mul(p, c) == Mul(p, y); }
  }

  /** The code's ratio never exceeds the exact share ... */
  lemma ShareAbove(b: Bandwidth)
    requires Sane(b)
    ensures ToRatio(b) as real <= 1048576.0 * Share(b)
  {
    if b.runtime != RUNTIME_INF {
      var v := b.runtime * UNIT;
      var r := ToRatio(b);
      TruncatedRatio(v, b.period);
      ShareAgainst(b.runtime, b.period, r);
    }
  }

  lemma TruncatedRatio(v: nat, period: nat)
    requires period >= 1
    ensures (Quot(v % DOUBLE_WORD, period) % WORD) * period <= v
  {
    var w := v % DOUBLE_WORD;
    DivBounds(w, period);
    MulMono(Quot(w, period) % WORD, Quot(w, period), period);
  }

  /** ... and for a narrow runtime falls short of it by less than one unit. */
  lemma ShareBelow(b: Bandwidth)
    requires Sane(b) && Narrow(b)
    ensures 1048576.0 * Share(b) < ToRatio(b) as real + 1.0
  {
    if b.runtime != RUNTIME_INF {
      RatioExact(b);
      var q := ToRatio(b);
      DivBounds(b.runtime * UNIT, b.period);
      NextMultiple(q, b.period);
      ShareAgainst(b.runtime, b.period, q + 1);
    }
  }

  ghost function SharesOf(s: Groups, a: set<nat>): real
    requires Shaped(s) && forall g :: g in a ==> g < |s.bw|
  {
    if a == {} then 0.0 else var x :| x in a; Share(s.bw[x]) + SharesOf(s, a - {x})
  }

  lemma {:induction false} SharesBelow(s: Groups, a: set<nat>)
    requires Shaped(s) && forall g :: g in a ==> g < |s.bw| && Sane(s.bw[g]) && Narrow(s.bw[g])
    ensures 1048576.0 * SharesOf(s, a) <= SumOf(s, a) as real + |a| as real
  {
    hide ToRatio, Share, Sane, Narrow;
    if a != {} {
      var x :| x in a && SharesOf(s, a) == Share(s.bw[x]) + SharesOf(s, a - {x});
      SharesBelow(s, a - {x});
      ShareBelow(s.bw[x]);
      SumOfAny(s, a, x);
      assert |a| == |a - {x}| + 1;
    }
  }

  ghost predicate AllNarrow(s: Groups) {
    Narrow(s.global) && forall g :: 0 <= g < |s.bw| ==> Narrow(s.bw[g])
  }

  lemma {:induction false} RunsNarrow(states: seq<Groups>, steps: seq<Step>, i: nat)
    requires IsRun(states, steps) && i < |states| && Narrow(states[0].global)
    requires forall k :: 0 <= k < |steps| ==> (steps[k].SetBw? || steps[k].SetGlob?) ==> Narrow(steps[k].bw)
    ensures AllNarrow(states[i])
  {
    if i > 0 {
      hide RtSchedulable, Without;
      RunsNarrow(states, steps, i - 1);
    }
  }

  /** In every reachable state the exact shares of groups none of which encloses another sum to at
      most the global share, but for the rounding of each ratio to 20 bits. */
  lemma UnrelatedShares(states: seq<Groups>, steps: seq<Step>, i: nat, a: set<nat>)
    requires IsRun(states, steps) && i < |states| && Narrow(states[0].global)
    requires forall k :: 0 <= k < |steps| ==> (steps[k].SetBw? || steps[k].SetGlob?) ==> Narrow(steps[k].bw)
    requires Shaped(states[i]) && Unrelated(states[i], a) && forall g :: g in a ==> Live(states[i], g)
    ensures SharesOf(states[i], a) <= Share(states[i].global) + |a| as real / 1048576.0
  {
    hide ToRatio, Share, Narrow;
    var s := states[i];
    RunsAdmitted(states, steps, i);
    RunsNarrow(states, steps, i);
    UnrelatedBound(s, a);
    assert forall g :: g in a ==> Fits(s, g);
    hide Fits, IsRun;
    SharesBelow(s, a);
    ShareAbove(s.global);
  }

  // ---------------------------------------------------------------- as written

  class TaskGroups {
    var st: Groups

    constructor (global: Bandwidth)
      requires Sane(global)
      ensures Admitted(st) && st.bw == [global] && st.global == global
    {
      st := Groups(Tree([0], [[]]), [global], global, {});
    }

    /** tg_set_rt_bandwidth: walk the tree with the proposed value, then store it. */
    method SetRtBandwidth(g: nat, bw: Bandwidth) returns (err: int)
      requires Admitted(st) && g < |st.bw| && bw.period >= 1
      modifies this
      ensures (st, err) == SetBandwidth(old(st), g, bw) && err in {0, -22, -16}
      ensures st == if err == 0 then old(st).(bw := old(st).bw[g := bw]) else old(st)
      ensures Admitted(st)
      ensures err == 0 <==> forall h :: 0 <= h < |st.bw| && Live(old(st), h) ==>
                var s := old(st).(bw := old(st).bw[g := bw]); Shaped(s) && FitsAndSound(s, h)
    {
      SetBandwidthKeeps(st, g, bw);
      AdmittedSummable(st);
      AcceptedIff(st, Change(g, bw));
      var trace;
      err, trace := WalkTgTreeFrom(st.tree, CheckVisitor(st, Change(g, bw)), Nop(), 0);
      if err != 0 { return; }
      st := st.(bw := st.bw[g := bw]);
    }
  }
}
