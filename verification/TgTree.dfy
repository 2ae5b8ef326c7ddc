/** The tree of task groups and its walk (core.c, walk_tg_tree_from).

    Groups are numbered in the order of their creation; group 0 is root_task_group. */
module TgTree {
  import opened Lists

  datatype Tree = Tree(parent: seq<nat>, children: seq<seq<nat>>)

  ghost predicate ListOk(t: Tree, g: nat)
    requires g < |t.children| == |t.parent|
  {
    && (forall i :: 0 <= i < |t.children[g]| ==> g < t.children[g][i] < |t.parent| && t.parent[t.children[g][i]] == g)
    && (forall i, j :: 0 <= i < j < |t.children[g]| ==> t.children[g][i] != t.children[g][j])
  }

  ghost predicate Valid(t: Tree) {
    && 0 < |t.parent| == |t.children|
    && (forall g :: 0 < g < |t.parent| ==> t.parent[g] < g)
    && (forall g :: 0 <= g < |t.parent| ==> ListOk(t, g))
  }

  /** `h` is `g` or lies below it. */
  predicate Below(t: Tree, g: nat, h: nat)
    requires Valid(t) && h < |t.parent|
    decreases h
  {
    h == g || (h > g && h in t.children[t.parent[h]] && Below(t, g, t.parent[h]))
  }

  // ---------------------------------------------------------------- the recursive walk

  datatype Event = Down(g: nat) | Up(g: nat)

  /** A visitor's result may depend on the group and on everything that happened before. */
  type Visitor = (nat, seq<Event>) -> int

  datatype Outcome = Outcome(trace: seq<Event>, ret: int)

  /** Pre-order and post-order calls, cut at the first non-zero result. */
  function Walk(t: Tree, down: Visitor, up: Visitor, g: nat, trace: seq<Event>): Outcome
    requires Valid(t) && g < |t.parent|
    decreases |t.parent| - g, |t.children[g]| + 1
  {
    var r := down(g, trace);
    if r != 0 then Outcome(trace + [Down(g)], r)
    else Leave(WalkKids(t, down, up, g, 0, trace + [Down(g)]), up, g)
  }

  function Leave(o: Outcome, up: Visitor, g: nat): Outcome {
    if o.ret != 0 then o else Outcome(o.trace + [Up(g)], up(g, o.trace))
  }

  function WalkKids(t: Tree, down: Visitor, up: Visitor, g: nat, i: nat, trace: seq<Event>): Outcome
    requires Valid(t) && g < |t.parent| && i <= |t.children[g]|
    decreases |t.parent| - g, |t.children[g]| - i
  {
    if i == |t.children[g]| then Outcome(trace, 0)
    else
      assert ListOk(t, g);
      var o := Walk(t, down, up, t.children[g][i], trace);
      if o.ret != 0 then o else WalkKids(t, down, up, g, i + 1, o.trace)
  }

  // ---------------------------------------------------------------- the walk with gotos

  lemma PositionAt(t: Tree, g: nat, i: nat)
    requires Valid(t) && g < |t.parent| && i < |t.children[g]|
    ensures Position(t.children[g], t.children[g][i]) == i
  {
    assert ListOk(t, g);
  }

  /** What remains to be done when the list of `p` continues at position `i`. */
  ghost function Resume(t: Tree, down: Visitor, up: Visitor, from: nat, p: nat, i: nat, trace: seq<Event>): Outcome
    requires Valid(t) && p < |t.parent| && i <= |t.children[p]| && Below(t, from, p)
    decreases p
  {
    Return(t, down, up, from, p, Leave(WalkKids(t, down, up, p, i, trace), up, p))
  }

  /** What remains to be done when the walk of `p` has ended with `o`. */
  ghost function Return(t: Tree, down: Visitor, up: Visitor, from: nat, p: nat, o: Outcome): Outcome
    requires Valid(t) && p < |t.parent| && Below(t, from, p)
    decreases p, 0
  {
    if o.ret != 0 || p == from then o
    else Resume(t, down, up, from, t.parent[p], Position(t.children[t.parent[p]], p) + 1, o.trace)
  }

  ghost function KidsWork(t: Tree, g: nat, i: nat): nat
    requires Valid(t) && g < |t.parent| && i <= |t.children[g]|
    decreases |t.parent| - g, |t.children[g]| - i
  {
    if i == |t.children[g]| then 0
    else
      assert ListOk(t, g);
      3 + KidsWork(t, t.children[g][i], 0) + KidsWork(t, g, i + 1)
  }

  /** An upper bound for the rounds of the loop from here on. */
  ghost function Work(t: Tree, from: nat, p: nat, i: nat): nat
    requires Valid(t) && p < |t.parent| && i <= |t.children[p]| && Below(t, from, p)
    decreases p
  {
    KidsWork(t, p, i) + 1 +
    if p == from then 0 else Work(t, from, t.parent[p], Position(t.children[t.parent[p]], p) + 1)
  }

  lemma ChildBelow(t: Tree, from: nat, p: nat, i: nat)
    requires Valid(t) && p < |t.parent| && i < |t.children[p]| && Below(t, from, p)
    ensures var c := t.children[p][i]; p < c < |t.parent| && t.parent[c] == p && Below(t, from, c)
    ensures Position(t.children[p], t.children[p][i]) == i
  {
    assert ListOk(t, p);
    PositionAt(t, p, i);
    if from > p { BelowIsLarger(t, from, p); }
    BelowIsLarger(t, from, p);
  }

  lemma {:induction false} BelowIsLarger(t: Tree, g: nat, h: nat)
    requires Valid(t) && h < |t.parent| && Below(t, g, h)
    ensures g <= h
  {
  }

  lemma WorkShrinks(t: Tree, from: nat, p: nat, i: nat)
    requires Valid(t) && p < |t.parent| && i < |t.children[p]| && Below(t, from, p)
    ensures var c := t.children[p][i]; c < |t.parent| && Below(t, from, c) && 1 + Work(t, from, c, 0) < Work(t, from, p, i)
  {
    ChildBelow(t, from, p, i);
    BelowIsLarger(t, from, p);
    var c := t.children[p][i];
    assert Work(t, from, c, 0) == KidsWork(t, c, 0) + 1 + Work(t, from, p, i + 1);
    assert KidsWork(t, p, i) == 3 + KidsWork(t, c, 0) + KidsWork(t, p, i + 1);
  }

  /** The loop of walk_tg_tree_from, with its two labels as the flag `entering`: it ends on every tree and
      makes exactly the calls of the recursive walk, in the same order, with the same result. */
  method WalkTgTreeFrom(t: Tree, down: Visitor, up: Visitor, from: nat) returns (ret: int, trace: seq<Event>)
    requires Valid(t) && from < |t.parent|
    ensures Outcome(trace, ret) == Walk(t, down, up, from, []) == Cut(down, up, Tour(t, from), [])
  {
    WalkIsCut(t, down, up, from, []);
    hide Cut, Tour;
    ghost var goal := Walk(t, down, up, from, []);
    var parent: nat, child: nat := from, from;
    var entering := true;
    trace := [];
    while true
      invariant parent < |t.parent| && Below(t, from, parent)
      invariant !entering ==> child in t.children[parent]
      invariant entering ==> Return(t, down, up, from, parent, Walk(t, down, up, parent, trace)) == goal
      invariant !entering ==> Resume(t, down, up, from, parent, Position(t.children[parent], child) + 1, trace) == goal
      decreases if entering then 1 + Work(t, from, parent, 0)
                else Work(t, from, parent, Position(t.children[parent], child) + 1)
    {
      var next;
      if entering {
        ret := down(parent, trace);
        trace := trace + [Down(parent)];
        if ret != 0 { return; }
        next := 0;
      } else {
        next := Position(t.children[parent], child) + 1;
      }
      assert Resume(t, down, up, from, parent, next, trace) == goal;
      if next < |t.children[parent]| {
        ChildBelow(t, from, parent, next);
        WorkShrinks(t, from, parent, next);
        parent := t.children[parent][next];
        entering := true;
        continue;
      }
      ret := up(parent, trace);
      trace := trace + [Up(parent)];
      if ret != 0 || parent == from { return; }
      child := parent;
      parent := t.parent[parent];
      entering := false;
    }
  }

  // ---------------------------------------------------------------- the walk as a tour cut short

  /** Every group once on the way down and once on the way up, parents around their children. */
  function Tour(t: Tree, g: nat): seq<Event>
    requires Valid(t) && g < |t.parent|
    decreases |t.parent| - g, |t.children[g]| + 1
  {
    [Down(g)] + TourKids(t, g, 0) + [Up(g)]
  }

  function TourKids(t: Tree, g: nat, i: nat): seq<Event>
    requires Valid(t) && g < |t.parent| && i <= |t.children[g]|
    decreases |t.parent| - g, |t.children[g]| - i
  {
    if i == |t.children[g]| then []
    else
      assert ListOk(t, g);
      Tour(t, t.children[g][i]) + TourKids(t, g, i + 1)
  }

  function Call(down: Visitor, up: Visitor, e: Event, trace: seq<Event>): int {
    if e.Down? then down(e.g, trace) else up(e.g, trace)
  }

  /** A list of calls made in order, up to and including the first that does not return zero. */
  function Cut(down: Visitor, up: Visitor, calls: seq<Event>, trace: seq<Event>): Outcome
    decreases |calls|
  {
    if calls == [] then Outcome(trace, 0)
    else
      var r := Call(down, up, calls[0], trace);
      if r != 0 then Outcome(trace + [calls[0]], r) else Cut(down, up, calls[1..], trace + [calls[0]])
  }

  lemma {:induction false} CutConcat(down: Visitor, up: Visitor, a: seq<Event>, b: seq<Event>, trace: seq<Event>)
    ensures Cut(down, up, a + b, trace) ==
            var o := Cut(down, up, a, trace); if o.ret != 0 then o else Cut(down, up, b, o.trace)
    decreases |a|
  {
    if a == [] {
      assert a + b == b;
    } else {
      assert (a + b)[1..] == a[1..] + b;
      CutConcat(down, up, a[1..], b, trace + [a[0]]);
    }
  }

  lemma CutOne(down: Visitor, up: Visitor, e: Event, trace: seq<Event>)
    ensures Cut(down, up, [e], trace) == Outcome(trace + [e], Call(down, up, e, trace))
  {
    assert [e][1..] == [];
  }

  /** The walk makes the calls of the tour, cut at the first that does not return zero. */
  lemma {:induction false} WalkIsCut(t: Tree, down: Visitor, up: Visitor, g: nat, trace: seq<Event>)
    requires Valid(t) && g < |t.parent|
    ensures Walk(t, down, up, g, trace) == Cut(down, up, Tour(t, g), trace)
    decreases |t.parent| - g, |t.children[g]| + 1
  {
    hide Cut;
    var kids := TourKids(t, g, 0);
    CutConcat(down, up, [Down(g)] + kids, [Up(g)], trace);
    CutConcat(down, up, [Down(g)], kids, trace);
    CutOne(down, up, Down(g), trace);
    if down(g, trace) == 0 {
      KidsAreCut(t, down, up, g, 0, trace + [Down(g)]);
      var o := WalkKids(t, down, up, g, 0, trace + [Down(g)]);
      CutOne(down, up, Up(g), o.trace);
    }
  }

  lemma {:induction false} KidsAreCut(t: Tree, down: Visitor, up: Visitor, g: nat, i: nat, trace: seq<Event>)
    requires Valid(t) && g < |t.parent| && i <= |t.children[g]|
    ensures WalkKids(t, down, up, g, i, trace) == Cut(down, up, TourKids(t, g, i), trace)
    decreases |t.parent| - g, |t.children[g]| - i
  {
    if i < |t.children[g]| {
      assert ListOk(t, g);
      var c := t.children[g][i];
      CutConcat(down, up, Tour(t, c), TourKids(t, g, i + 1), trace);
      WalkIsCut(t, down, up, c, trace);
      var o := Walk(t, down, up, c, trace);
      if o.ret == 0 { KidsAreCut(t, down, up, g, i + 1, o.trace); }
    }
  }

  /** The subtrees of two children of one group are disjoint. */
  lemma {:induction false} KidsDisjoint(t: Tree, g: nat, i: nat, j: nat, h: nat)
    requires Valid(t) && g < |t.parent| && i < |t.children[g]| && j < |t.children[g]|
    requires BelowKid(t, g, i, h) && BelowKid(t, g, j, h)
    ensures i == j
    decreases h
  {
    assert ListOk(t, g);
    var c, d := t.children[g][i], t.children[g][j];
    if h != c && h != d {
      KidsDisjoint(t, g, i, j, t.parent[h]);
    } else if c != d {
      var other := if h == c then d else c;
      BelowIsLarger(t, other, t.parent[h]);
    }
  }

  /** `h` lies below a child of `g` from the `i`-th on. */
  ghost predicate BelowKids(t: Tree, g: nat, i: nat, h: nat)
    requires Valid(t) && g < |t.parent|
  {
    exists j :: i <= j < |t.children[g]| && BelowKid(t, g, j, h)
  }

  lemma BelowKidsStep(t: Tree, g: nat, i: nat, h: nat)
    requires Valid(t) && g < |t.parent| && i < |t.children[g]|
    ensures BelowKids(t, g, i, h) <==> BelowKid(t, g, i, h) || BelowKids(t, g, i + 1, h)
    ensures !(BelowKid(t, g, i, h) && BelowKids(t, g, i + 1, h))
  {
    if BelowKid(t, g, i, h) && BelowKids(t, g, i + 1, h) {
      var j :| i + 1 <= j < |t.children[g]| && BelowKid(t, g, j, h);
      KidsDisjoint(t, g, i, j, h);
    }
  }

  lemma BelowByKids(t: Tree, g: nat, h: nat)
    requires Valid(t) && g < |t.parent| && h < |t.parent|
    ensures Below(t, g, h) <==> h == g || BelowKids(t, g, 0, h)
    ensures !BelowKids(t, g, 0, g)
  {
    assert ListOk(t, g);
    if Below(t, g, h) && h != g {
      var i := TowardChild(t, g, h);
      assert BelowKid(t, g, i, h);
    }
    forall i, m | 0 <= i < |t.children[g]| && BelowKid(t, g, i, m)
      ensures Below(t, g, m) && m != g
    {
      ChildBelow(t, g, g, i);
      BelowTransitive(t, g, t.children[g][i], m);
      BelowIsLarger(t, t.children[g][i], m);
    }
  }

  lemma CountsAdd(a: seq<Event>, b: seq<Event>)
    ensures multiset(a + b) == multiset(a) + multiset(b)
  {
  }

  /** The tour visits exactly the groups from `g` down, each once in either direction. */
  lemma {:induction false} TourVisits(t: Tree, g: nat, h: nat)
    requires Valid(t) && g < |t.parent| && h < |t.parent|
    ensures multiset(Tour(t, g))[Down(h)] == multiset(Tour(t, g))[Up(h)] == if Below(t, g, h) then 1 else 0
    decreases |t.parent| - g, |t.children[g]| + 1
  {
    hide Below, BelowKids, TourKids;
    KidsVisit(t, g, 0, h);
    BelowByKids(t, g, h);
    CountsAdd([Down(g)] + TourKids(t, g, 0), [Up(g)]);
    CountsAdd([Down(g)], TourKids(t, g, 0));
  }

  lemma {:induction false} KidsVisit(t: Tree, g: nat, i: nat, h: nat)
    requires Valid(t) && g < |t.parent| && i <= |t.children[g]| && h < |t.parent|
    ensures multiset(TourKids(t, g, i))[Down(h)] == multiset(TourKids(t, g, i))[Up(h)] ==
            if BelowKids(t, g, i, h) then 1 else 0
    decreases |t.parent| - g, |t.children[g]| - i
  {
    if i < |t.children[g]| {
      hide Below, BelowKids, Tour;
      assert ListOk(t, g);
      TourVisits(t, t.children[g][i], h);
      KidsVisit(t, g, i + 1, h);
      CountsAdd(Tour(t, t.children[g][i]), TourKids(t, g, i + 1));
      BelowKidsStep(t, g, i, h);
    }
  }

  /** And the tour of a group below is one piece of it. */
  lemma {:induction false} TourContains(t: Tree, g: nat, h: nat) returns (before: seq<Event>, after: seq<Event>)
    requires Valid(t) && g < |t.parent| && h < |t.parent| && Below(t, g, h)
    ensures Tour(t, g) == before + Tour(t, h) + after
    decreases h
  {
    if h == g {
      before, after := [], [];
    } else {
      var p := t.parent[h];
      assert ListOk(t, p);
      var a, b := TourContains(t, g, p);
      var i := Position(t.children[p], h);
      var c, d := KidsContain(t, p, 0, i);
      before := a + [Down(p)] + c;
      after := d + [Up(p)] + b;
      assert Tour(t, p) == [Down(p)] + (c + Tour(t, h) + d) + [Up(p)];
    }
  }

  lemma {:induction false} KidsContain(t: Tree, g: nat, i: nat, j: nat) returns (before: seq<Event>, after: seq<Event>)
    requires Valid(t) && g < |t.parent| && i <= j < |t.children[g]|
    ensures t.children[g][j] < |t.parent| && TourKids(t, g, i) == before + Tour(t, t.children[g][j]) + after
    decreases j - i
  {
    assert ListOk(t, g);
    if i == j {
      before, after := [], TourKids(t, g, i + 1);
    } else {
      before, after := KidsContain(t, g, i + 1, j);
      before := Tour(t, t.children[g][i]) + before;
    }
  }

  // ---------------------------------------------------------------- what a walk sees

  /** A visitor that looks at the group only. */
  ghost predicate Oblivious(down: Visitor, check: nat -> int) {
    forall g, trace :: down(g, trace) == check(g)
  }

  ghost predicate Silent(up: Visitor) {
    forall g, trace :: up(g, trace) == 0
  }

  lemma {:induction false} BelowTransitive(t: Tree, a: nat, b: nat, c: nat)
    requires Valid(t) && c < |t.parent| && b < |t.parent| && Below(t, a, b) && Below(t, b, c)
    ensures Below(t, a, c)
    decreases c
  {
    if c != b {
      BelowIsLarger(t, b, t.parent[c]);
      BelowIsLarger(t, a, b);
      BelowTransitive(t, a, b, t.parent[c]);
    }
  }

  /** A group strictly below `g` lies below one of its children. */
  lemma {:induction false} TowardChild(t: Tree, g: nat, h: nat) returns (i: nat)
    requires Valid(t) && g < |t.parent| && h < |t.parent| && Below(t, g, h) && h != g
    ensures i < |t.children[g]| && t.children[g][i] < |t.parent| && Below(t, t.children[g][i], h)
    decreases h
  {
    assert ListOk(t, g);
    var p := t.parent[h];
    if p == g {
      i := Position(t.children[g], h);
    } else {
      i := TowardChild(t, g, p);
      BelowIsLarger(t, t.children[g][i], p);
    }
  }

  /** With such visitors the walk returns zero iff every group below the start passes the check. */
  lemma {:induction false} WalkChecksAll(t: Tree, down: Visitor, up: Visitor, check: nat -> int, g: nat, trace: seq<Event>)
    requires Valid(t) && g < |t.parent| && Oblivious(down, check) && Silent(up)
    ensures Walk(t, down, up, g, trace).ret == 0 <==>
            forall h :: 0 <= h < |t.parent| && Below(t, g, h) ==> check(h) == 0
    decreases |t.parent| - g, |t.children[g]| + 1
  {
    if check(g) != 0 {
      assert Below(t, g, g);
    } else {
      KidsCheckAll(t, down, up, check, g, 0, trace + [Down(g)]);
      forall h | 0 <= h < |t.parent| && Below(t, g, h) && h != g
        ensures exists i :: 0 <= i < |t.children[g]| && BelowKid(t, g, i, h)
      {
        var i := TowardChild(t, g, h);
        assert BelowKid(t, g, i, h);
      }
      forall i, h | 0 <= i < |t.children[g]| && 0 <= h < |t.parent| && BelowKid(t, g, i, h)
        ensures Below(t, g, h)
      {
        ChildBelow(t, g, g, i);
        BelowTransitive(t, g, t.children[g][i], h);
      }
    }
  }

  /** And what it returns is what some group below the start returned. */
  lemma {:induction false} WalkReturns(t: Tree, down: Visitor, up: Visitor, check: nat -> int, g: nat, trace: seq<Event>)
    requires Valid(t) && g < |t.parent| && Oblivious(down, check) && Silent(up)
    ensures var r := Walk(t, down, up, g, trace).ret; r != 0 ==> exists h :: 0 <= h < |t.parent| && check(h) == r
    decreases |t.parent| - g, |t.children[g]| + 1
  {
    if check(g) == 0 { KidsReturn(t, down, up, check, g, 0, trace + [Down(g)]); }
  }

  lemma {:induction false} KidsReturn(t: Tree, down: Visitor, up: Visitor, check: nat -> int, g: nat, i: nat, trace: seq<Event>)
    requires Valid(t) && g < |t.parent| && i <= |t.children[g]| && Oblivious(down, check) && Silent(up)
    ensures var r := WalkKids(t, down, up, g, i, trace).ret; r != 0 ==> exists h :: 0 <= h < |t.parent| && check(h) == r
    decreases |t.parent| - g, |t.children[g]| - i
  {
    if i < |t.children[g]| {
      assert ListOk(t, g);
      var c := t.children[g][i];
      WalkReturns(t, down, up, check, c, trace);
      var o := Walk(t, down, up, c, trace);
      if o.ret == 0 { KidsReturn(t, down, up, check, g, i + 1, o.trace); }
    }
  }

  ghost predicate BelowKid(t: Tree, g: nat, i: nat, h: nat)
    requires Valid(t) && g < |t.parent| && i < |t.children[g]|
  {
    h < |t.parent| && Below(t, t.children[g][i], h)
  }

  lemma {:induction false} KidsCheckAll(t: Tree, down: Visitor, up: Visitor, check: nat -> int, g: nat, i: nat, trace: seq<Event>)
    requires Valid(t) && g < |t.parent| && i <= |t.children[g]| && Oblivious(down, check) && Silent(up)
    ensures WalkKids(t, down, up, g, i, trace).ret == 0 <==>
            forall j, h :: i <= j < |t.children[g]| && 0 <= h < |t.parent| && BelowKid(t, g, j, h) ==> check(h) == 0
    decreases |t.parent| - g, |t.children[g]| - i
  {
    if i < |t.children[g]| {
      assert ListOk(t, g);
      var c := t.children[g][i];
      WalkChecksAll(t, down, up, check, c, trace);
      var o := Walk(t, down, up, c, trace);
      if o.ret == 0 {
        KidsCheckAll(t, down, up, check, g, i + 1, o.trace);
      } else {
        var h :| 0 <= h < |t.parent| && Below(t, c, h) && check(h) != 0;
        assert BelowKid(t, g, i, h);
      }
    }
  }
}
