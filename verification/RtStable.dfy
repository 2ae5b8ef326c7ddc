/** Which task is picked depends on the queued tasks and the throttle flags, save for the order of
    equals; and exactly when queueing a task leaves the pick alone. */
module RtStable {
  import opened Kernel
  import opened Lists
  import opened RtQueue
  import opened RtQueueProofs
  import opened RtRuns
  import opened RtOrder

  // ---------------------------------------------------------------- what the queued tasks decide

  /** Task `u` is queued inside group `g`, with no throttled group between them. */
  ghost predicate Reached(s: Cpu, u: nat, g: nat)
    requires Shaped(s) && g < |s.rqs|
  {
    && u in s.tasks && On(s, Task(u)) && (g == 0 || g in Enclosing(s, s.tasks[u].group))
    && forall a :: a in Enclosing(s, s.tasks[u].group) - Enclosing(s, g) ==> !EffThrottled(s.rqs[a])
  }

  lemma BestIsLower(s: Cpu, u: nat, g: nat)
    requires Inv(s) && g < |s.rqs| && Reached(s, u, g)
    ensures s.rqs[g].nrRunning != 0 && s.rqs[g].highest <= s.tasks[u].prio
  {
    hide Boosted, BoostedOf;
    HeldAtPrio(s, Task(u));
    assert LocalOk(s, s.tasks[u].group);
    Visible(s, s.tasks[u].group, g);
  }

  /** The best priority of a group is that of a task reached from it, or 100. */
  lemma BestIsReached(s: Cpu, g: nat)
    requires Inv(s) && g < |s.rqs|
    ensures s.rqs[g].nrRunning != 0 ==> Reached(s, PickFrom(s, g), g) && s.tasks[PickFrom(s, g)].prio == s.rqs[g].highest
    ensures s.rqs[g].nrRunning == 0 ==> s.rqs[g].highest == MAX_RT_PRIO
    ensures s.rqs[g].highest <= MAX_RT_PRIO
  {
    EmptyIffNoMembers(s, g);
    assert LocalOk(s, g);
    if s.rqs[g].nrRunning != 0 { PickFromOk(s, g); }
  }

  lemma HighestFalls(s: Cpu, r: Cpu, g: nat)
    requires Inv(s) && Inv(r) && SameFrame(s, r) && g < |s.rqs|
    requires forall u :: Reached(s, u, g) ==> Reached(r, u, g)
    ensures r.rqs[g].highest <= s.rqs[g].highest
  {
    BestIsReached(s, g);
    BestIsReached(r, g);
    if s.rqs[g].nrRunning != 0 { BestIsLower(r, PickFrom(s, g), g); }
  }

  // Boosting: a run queue counts boosted entities iff a boosted task is queued somewhere inside.

  lemma CountsBoosted(s: Cpu, e: Entity)
    requires Inv(s) && Known(s, e) && On(s, e) && Boosted(s, e)
    ensures s.rqs[RqOf(s, e)].nrBoosted != 0
  {
    var g := RqOf(s, e);
    assert LocalOk(s, g);
    OnIsMember(s, e);
    assert e in BoostedOf(s, Members(s.rqs[g].queue));
  }

  lemma BoostedMember(s: Cpu, g: nat) returns (e: Entity)
    requires Inv(s) && g < |s.rqs| && s.rqs[g].nrBoosted != 0
    ensures Known(s, e) && RqOf(s, e) == g && On(s, e) && Boosted(s, e) && s.rqs[g].nrRunning != 0
  {
    assert LocalOk(s, g);
    MembersPlaced(s, g);
    var m := Members(s.rqs[g].queue);
    e :| e in BoostedOf(s, m);
    OnIsMember(s, e);
    HeldAtPrio(s, e);
  }

  lemma {:induction false} BoostedUp(s: Cpu, k: nat, g: nat)
    requires Inv(s) && k < |s.rqs| && s.rqs[k].nrBoosted != 0 && (g == 0 || g in Enclosing(s, k))
    ensures g < |s.rqs| && s.rqs[g].nrBoosted != 0
    decreases k
  {
    if k != g {
      var e := BoostedMember(s, k);
      assert Linked(s, k);
      CountsBoosted(s, Group(k));
      BoostedUp(s, s.parent[k], g);
    }
  }

  lemma {:induction false} BoostedTask(s: Cpu, g: nat) returns (u: nat)
    requires Inv(s) && g < |s.rqs| && s.rqs[g].nrBoosted != 0
    ensures u in s.tasks && On(s, Task(u)) && Boosted(s, Task(u))
    ensures g == 0 || g in Enclosing(s, s.tasks[u].group)
    decreases |s.rqs| - g
  {
    var e := BoostedMember(s, g);
    if e.Task? {
      u := e.tid;
    } else {
      u := BoostedTask(s, e.gid);
      EnclosingUp(s, s.tasks[u].group, e.gid);
    }
  }

  lemma BoostedCarries(s: Cpu, r: Cpu, g: nat)
    requires Inv(s) && Inv(r) && SameFrame(s, r) && g < |s.rqs| && s.rqs[g].nrBoosted != 0
    requires forall u :: u in s.tasks && Boosted(s, Task(u)) && On(s, Task(u)) ==> On(r, Task(u))
    ensures r.rqs[g].nrBoosted != 0
  {
    hide Inv, On;
    assert Shaped(s) && Shaped(r) by { ShapedInv(s); ShapedInv(r); }
    var u := BoostedTask(s, g);
    CountsBoosted(r, Task(u));
    EnclosingFrame(s, r, s.tasks[u].group);
    BoostedUp(r, s.tasks[u].group, g);
  }

  /** Two states with the same flags and, boosted tasks being queued alike, the same throttled groups. */
  lemma ThrottledAlike(s: Cpu, r: Cpu, g: nat)
    requires Inv(s) && Inv(r) && SameFrame(s, r) && g < |s.rqs| && r.rqs[g].throttled == s.rqs[g].throttled
    requires forall u :: u in s.tasks && Boosted(s, Task(u)) ==> (On(r, Task(u)) <==> On(s, Task(u)))
    ensures EffThrottled(r.rqs[g]) <==> EffThrottled(s.rqs[g])
  {
    if s.rqs[g].nrBoosted != 0 { BoostedCarries(s, r, g); }
    if r.rqs[g].nrBoosted != 0 { BoostedCarries(r, s, g); }
  }

  lemma ReachedAlike(s: Cpu, r: Cpu, u: nat, g: nat)
    requires Inv(s) && Inv(r) && SameFrame(s, r) && g < |s.rqs|
    requires forall h :: 0 <= h < |s.rqs| ==> (EffThrottled(r.rqs[h]) <==> EffThrottled(s.rqs[h]))
    requires Reached(s, u, g) && On(r, Task(u))
    ensures Reached(r, u, g)
  {
    EnclosingFrame(s, r, s.tasks[u].group);
    EnclosingFrame(s, r, g);
  }

  /** The queued tasks and the throttle flags decide everything but the order within the lists: best
      priorities, throttled groups, and which groups are queued. */
  lemma TasksDecide(s: Cpu, r: Cpu)
    requires Inv(s) && Inv(r) && SameFrame(s, r) && SameTasksOn(s, r)
    requires forall g :: 0 <= g < |s.rqs| ==> r.rqs[g].throttled == s.rqs[g].throttled
    ensures forall g :: 0 <= g < |s.rqs| ==> r.rqs[g].highest == s.rqs[g].highest && (EffThrottled(r.rqs[g]) <==> EffThrottled(s.rqs[g]))
    ensures forall x :: Known(s, x) ==> (On(r, x) <==> On(s, x))
  {
    hide Consistent, Linked, Boosted, On, EffThrottled;
    assert Shaped(s) && Shaped(r) by { ShapedInv(s); ShapedInv(r); }
    forall g | 0 <= g < |s.rqs|
      ensures EffThrottled(r.rqs[g]) <==> EffThrottled(s.rqs[g])
    {
      ThrottledAlike(s, r, g);
    }
    forall g | 0 <= g < |s.rqs|
      ensures r.rqs[g].highest == s.rqs[g].highest
    {
      SameHighest(s, r, g);
    }
    forall x | Known(s, x)
      ensures On(r, x) <==> On(s, x)
    {
      if x.Group? { GroupOnIff(s, x.gid); GroupOnIff(r, x.gid); }
    }
  }

  lemma SameHighest(s: Cpu, r: Cpu, g: nat)
    requires Inv(s) && Inv(r) && SameFrame(s, r) && SameTasksOn(s, r) && g < |s.rqs|
    requires forall h :: 0 <= h < |s.rqs| ==> (EffThrottled(r.rqs[h]) <==> EffThrottled(s.rqs[h]))
    ensures r.rqs[g].highest == s.rqs[g].highest
  {
    hide Inv;
    assert Shaped(s) && Shaped(r) by { ShapedInv(s); ShapedInv(r); }
    forall u | Reached(s, u, g) ensures Reached(r, u, g) { ReachedAlike(s, r, u, g); }
    forall u | Reached(r, u, g) ensures Reached(s, u, g) { ReachedAlike(r, s, u, g); }
    HighestFalls(s, r, g);
    HighestFalls(r, s, g);
  }

  lemma GroupOnIff(s: Cpu, h: nat)
    requires Inv(s) && 0 < h < |s.rqs|
    ensures On(s, Group(h)) <==> s.rqs[h].highest != MAX_RT_PRIO && !EffThrottled(s.rqs[h])
  {
    EmptyIffNoMembers(s, h);
    assert Linked(s, h);
  }

  // ---------------------------------------------------------------- round trip

  lemma ResettledTwice(s: Cpu, m: Cpu, r: Cpu, x: Entity, head: bool, again: bool)
    requires Shaped(s) && Shaped(m) && Shaped(r) && SameFrame(s, m) && SameFrame(m, r) && Known(s, x)
    requires Resettled(s, m, x, head) && Resettled(m, r, x, again)
    ensures Resettled(s, r, x, again)
  {
    hide On, Without;
    assert ShapedRq(s.rqs[RqOf(s, x)]) && ShapedRq(m.rqs[RqOf(s, x)]);
    var a, b := RemoveEverywhere(s.rqs[RqOf(s, x)].queue, x), RemoveEverywhere(m.rqs[RqOf(s, x)].queue, x);
    forall i | 0 <= i < |a|
      ensures |b| == |a| && b[i] == a[i]
    {
      WithoutEnds(a[i], x);
    }
    assert b == a;
  }

  lemma StackMovedTwice(s: Cpu, m: Cpu, r: Cpu, e: Entity, head: bool, again: bool)
    requires Shaped(s) && Shaped(m) && Shaped(r) && SameFrame(s, m) && SameFrame(m, r) && Known(s, e)
    requires StackMoved(s, m, e, head) && StackMoved(m, r, e, again)
    ensures StackMoved(s, r, e, again)
  {
    EnclosingFrame(s, m, RqOf(s, e));
    hide Resettled, Shaped, Enclosing;
    forall x | Known(s, x) && InStack(s, e, x)
      ensures Resettled(s, r, x, again)
    {
      assert InStack(m, e, x);
      ResettledTwice(s, m, r, x, head, again);
    }
  }

  /** Queueing a task and taking it off again restores every list, except that the groups around the
      task end up at the tails of theirs. */
  lemma EnqueueDequeueRoundTrip(s: Cpu, t: nat, head: bool)
    requires Inv(s) && t in s.tasks && !On(s, Task(t))
    ensures var r := DequeueEntity(EnqueueEntity(s, Task(t), head), Task(t));
            && Inv(r) && StackMoved(s, r, Task(t), false)
            && (forall x :: Known(s, x) ==> (On(r, x) <==> On(s, x)))
            && (forall g :: 0 <= g < |s.rqs| ==> r.rqs[g].highest == s.rqs[g].highest)
  {
    ShapedInv(s);
    hide Consistent, Linked, On, EnqueueEntity, DequeueEntity, StackMoved;
    var e := Task(t);
    var m := EnqueueEntity(s, e, head);
    EnqueueKeeps(s, e, head);
    EnqueueExact(s, e, head);
    var r := DequeueEntity(m, e);
    DequeueKeeps(m, e);
    DequeueExact(m, e);
    TasksDecide(s, r);
    StackMovedTwice(s, m, r, e, head, false);
  }

  // ---------------------------------------------------------------- a stable pick

  /** What queueing an unboosted task at the tail leaves behind. */
  ghost predicate Queued(s: Cpu, r: Cpu, t: nat) {
    && Inv(s) && Inv(r) && SameFrame(s, r) && t in s.tasks && !On(s, Task(t)) && On(r, Task(t))
    && StackMoved(s, r, Task(t), false)
    && forall g :: 0 <= g < |s.rqs| ==>
         && (EffThrottled(r.rqs[g]) <==> EffThrottled(s.rqs[g]))
         && r.rqs[g].highest <= s.rqs[g].highest && (r.rqs[g].highest < s.rqs[g].highest ==> s.tasks[t].prio <= r.rqs[g].highest)
  }

  lemma HighestBounds(s: Cpu, r: Cpu, t: nat, g: nat)
    requires Inv(s) && Inv(r) && SameFrame(s, r) && g < |s.rqs| && t in s.tasks
    requires forall h :: 0 <= h < |s.rqs| ==> (EffThrottled(r.rqs[h]) <==> EffThrottled(s.rqs[h]))
    requires forall u :: u in s.tasks && u != t ==> (On(r, Task(u)) <==> On(s, Task(u)))
    requires !On(s, Task(t))
    ensures r.rqs[g].highest <= s.rqs[g].highest && (r.rqs[g].highest < s.rqs[g].highest ==> s.tasks[t].prio <= r.rqs[g].highest)
  {
    hide Inv, On;
    assert Shaped(s) && Shaped(r) by { ShapedInv(s); ShapedInv(r); }
    forall u | Reached(s, u, g) ensures Reached(r, u, g) { ReachedAlike(s, r, u, g); }
    HighestFalls(s, r, g);
    BestIsReached(s, g);
    BestIsReached(r, g);
    if r.rqs[g].highest < s.rqs[g].highest {
      var u := PickFrom(r, g);
      if u != t {
        ReachedAlike(r, s, u, g);
        BestIsLower(s, u, g);
      }
    }
  }

  lemma EnqueueQueued(s: Cpu, t: nat)
    requires Inv(s) && t in s.tasks && !On(s, Task(t)) && !Boosted(s, Task(t))
    ensures Queued(s, EnqueueEntity(s, Task(t), false), t)
  {
    var r := EnqueueEntity(s, Task(t), false);
    EnqueueKeeps(s, Task(t), false);
    EnqueueExact(s, Task(t), false);
    hide Consistent, Linked, On, EnqueueEntity, StackMoved, Boosted, EffThrottled;
    forall g | 0 <= g < |s.rqs|
      ensures EffThrottled(r.rqs[g]) <==> EffThrottled(s.rqs[g])
    {
      ThrottledAlike(s, r, g);
    }
    forall g | 0 <= g < |s.rqs|
      ensures r.rqs[g].highest <= s.rqs[g].highest && (r.rqs[g].highest < s.rqs[g].highest ==> s.tasks[t].prio <= r.rqs[g].highest)
    {
      HighestBounds(s, r, t, g);
    }
  }

  // The chain of groups around a run queue.

  lemma {:induction false} NoneBetween(s: Cpu, k: nat, h: nat, a: nat)
    requires Shaped(s) && k < |s.rqs| && h in Enclosing(s, k) && a in Enclosing(s, k) && a > s.parent[h]
    ensures a >= h
    decreases k
  {
    if k != h && k != a { NoneBetween(s, s.parent[k], h, a); }
  }

  lemma {:induction false} OneChild(s: Cpu, k: nat, h: nat, a: nat)
    requires Shaped(s) && k < |s.rqs| && h in Enclosing(s, k) && a in Enclosing(s, k) && s.parent[h] == s.parent[a]
    ensures h == a
    decreases k
  {
    if k != h && k != a { OneChild(s, s.parent[k], h, a); }
  }

  lemma {:induction false} Nested(s: Cpu, k: nat, j: nat, h: nat, a: nat)
    requires Shaped(s) && k < |s.rqs| && j < |s.rqs| && h in Enclosing(s, k) && a in Enclosing(s, k) && h <= a && a in Enclosing(s, j)
    ensures h in Enclosing(s, j)
    decreases k + j
  {
    if a != k {
      Nested(s, s.parent[k], j, h, a);
    } else if a != j {
      Nested(s, k, s.parent[j], h, a);
    } else {
      assert k == j;
    }
  }

  /** The stack's entity in a run queue on its way. */
  lemma {:induction false} StackAt(s: Cpu, e: Entity, g: nat) returns (y: Entity)
    requires Shaped(s) && Known(s, e) && (g == 0 || g in Enclosing(s, RqOf(s, e)))
    ensures Known(s, y) && InStack(s, e, y) && RqOf(s, y) == g
    decreases RqOf(s, e)
  {
    if RqOf(s, e) == g {
      y := e;
    } else {
      y := StackAt(s, Group(RqOf(s, e)), g);
      StackSplits(s, e, y);
    }
  }

  /** The groups that two tasks have in common. */
  ghost function Common(s: Cpu, t: nat, p: nat): set<nat>
    requires Shaped(s) && t in s.tasks && p in s.tasks
  {
    Enclosing(s, s.tasks[t].group) * Enclosing(s, s.tasks[p].group)
  }

  /** Group `a` is the only entity of the list of priority `i` that holds it. */
  ghost predicate Single(s: Cpu, a: nat, i: nat)
    requires Shaped(s) && 0 < a < |s.rqs| && i < MAX_RT_PRIO
  {
    assert ShapedRq(s.rqs[s.parent[a]]);
    |s.rqs[s.parent[a]].queue[i]| == 1
  }

  ghost predicate SingleAbove(s: Cpu, t: nat, p: nat, g: nat)
    requires Shaped(s) && t in s.tasks && p in s.tasks
  {
    forall a :: a in Common(s, t, p) && a > g ==> Single(s, a, s.tasks[p].prio)
  }

  function HeadOf(s: Cpu, g: nat): (e: Entity)
    requires Inv(s) && g < |s.rqs| && s.rqs[g].nrRunning != 0
  {
    PickHeadOk(s, g);
    s.rqs[g].queue[s.rqs[g].highest][0]
  }

  lemma PickByHead(s: Cpu, g: nat)
    requires Inv(s) && g < |s.rqs| && s.rqs[g].nrRunning != 0
    ensures var e := HeadOf(s, g);
            && Known(s, e) && RqOf(s, e) == g && PickFrom(s, g) in s.tasks
            && (e.Task? ==> PickFrom(s, g) == e.tid)
            && (e.Group? ==> s.rqs[e.gid].nrRunning != 0 && PickFrom(s, g) == PickFrom(s, e.gid) && e.gid in Enclosing(s, s.tasks[PickFrom(s, g)].group))
  {
    PickHeadOk(s, g);
    PickFromOk(s, g);
    var e := HeadOf(s, g);
    if e.Group? { PickFromOk(s, e.gid); }
  }

  /** The first entity of a run queue's best list after the task was queued. */
  lemma HeadAfter(s: Cpu, r: Cpu, t: nat, g: nat)
    requires Queued(s, r, t) && g < |s.rqs| && s.rqs[g].nrRunning != 0 && s.rqs[g].highest <= s.tasks[t].prio
    ensures r.rqs[g].nrRunning != 0 && 0 <= r.rqs[g].highest == s.rqs[g].highest < MAX_RT_PRIO
    ensures ShapedRq(s.rqs[g])
    ensures var x := HeadOf(s, g);
            if InStack(s, Task(t), x) && |s.rqs[g].queue[s.rqs[g].highest]| != 1 then HeadOf(r, g) != x else HeadOf(r, g) == x
  {
    hide Boosted, BoostedOf, Members, EffThrottled, RemoveEverywhere;
    PickHeadOk(s, g);
    EmptyIffNoMembers(s, g);
    EmptyIffNoMembers(r, g);
    PickHeadOk(r, g);
    var x, i := HeadOf(s, g), s.rqs[g].highest;
    assert LocalOk(s, g);
    var k := s.tasks[t].group;
    if g == 0 || g in Enclosing(s, k) {
      var y := StackAt(s, Task(t), g);
      assert Resettled(s, r, y, false);
      HeadMoved(s, r, x, y, i);
      if InStack(s, Task(t), x) { StackUnique(s, Task(t), x, y); }
    } else {
      assert r.rqs[g] == s.rqs[g];
      if InStack(s, Task(t), x) { StackKnown(s, Task(t), x); }
    }
  }

  lemma StackUnique(s: Cpu, e: Entity, x: Entity, y: Entity)
    requires Shaped(s) && Known(s, e) && Known(s, x) && Known(s, y) && InStack(s, e, x) && InStack(s, e, y) && RqOf(s, x) == RqOf(s, y)
    ensures x == y
  {
    StackKnown(s, e, x);
    StackKnown(s, e, y);
    if x != e && y != e { OneChild(s, RqOf(s, e), x.gid, y.gid); }
  }

  lemma HeadMoved(s: Cpu, r: Cpu, x: Entity, y: Entity, i: nat)
    requires Shaped(s) && Shaped(r) && SameFrame(s, r) && Known(s, y) && i < MAX_RT_PRIO && Resettled(s, r, y, false)
    requires var l := s.rqs[RqOf(s, y)].queue[i]; l != [] && l[0] == x && Distinct(l) && r.rqs[RqOf(s, y)].queue[i] != []
    ensures var l, m := s.rqs[RqOf(s, y)].queue[i], r.rqs[RqOf(s, y)].queue[i];
            if x == y && |l| != 1 then m[0] != x else m[0] == x
  {
    hide On;
    var l, m := s.rqs[RqOf(s, y)].queue[i], r.rqs[RqOf(s, y)].queue[i];
    var w := Without(l, y);
    WithoutDistinct(l, y);
    assert m == w || m == w + [y];
    if x != y {
      assert w == [l[0]] + Without(l[1..], y);
    } else if |l| != 1 {
      assert w[0] in w;
    }
  }

  /** The descent from `g` still ends at the same task iff no group shared with it had company in its list. */
  lemma {:induction false} DescentIff(s: Cpu, r: Cpu, t: nat, g: nat)
    requires Queued(s, r, t) && g < |s.rqs| && s.rqs[g].nrRunning != 0
    requires PickFrom(s, g) in s.tasks && s.tasks[PickFrom(s, g)].prio <= s.tasks[t].prio
    ensures r.rqs[g].nrRunning != 0
    ensures s.tasks[PickFrom(s, g)].prio < MAX_RT_PRIO
    ensures PickFrom(r, g) == PickFrom(s, g) <==> SingleAbove(s, t, PickFrom(s, g), g)
    decreases |s.rqs| - g
  {
    ShapedInv(s);
    ShapedInv(r);
    hide Consistent, Linked, On, EffThrottled, PickFrom, StackMoved, HeadOf;
    var p := PickFrom(s, g);
    PickFromOk(s, g);
    PickByHead(s, g);
    var x := HeadOf(s, g);
    HeadAfter(s, r, t, g);
    PickByHead(r, g);
    PickFromOk(r, g);
    EnclosingFrame(s, r, s.tasks[p].group);
    if x.Task? {
      assert forall a :: a in Enclosing(s, s.tasks[p].group) ==> a <= g;
    } else {
      var h := x.gid;
      PickFromOk(s, h);
      DescentIff(s, r, t, h);
      AboveNext(s, t, p, g, h);
      var z := HeadOf(r, g);
      if z != x && PickFrom(r, g) == p {
        if z.Group? { OneChild(s, s.tasks[p].group, z.gid, h); }
        assert false;
      }
    }
  }

  /** One step down the chain of `p`. */
  lemma AboveNext(s: Cpu, t: nat, p: nat, g: nat, h: nat)
    requires Shaped(s) && t in s.tasks && p in s.tasks && h in Enclosing(s, s.tasks[p].group) && s.parent[h] == g
    requires s.tasks[p].prio < MAX_RT_PRIO
    ensures SingleAbove(s, t, p, g) <==> SingleAbove(s, t, p, h) && (InStack(s, Task(t), Group(h)) ==> Single(s, h, s.tasks[p].prio))
  {
    hide Single;
    forall a | a in Common(s, t, p) && a > g
      ensures a == h || (a > h && h in Enclosing(s, s.tasks[t].group))
    {
      NoneBetween(s, s.tasks[p].group, h, a);
      Nested(s, s.tasks[p].group, s.tasks[t].group, h, a);
    }
  }

  /** Queueing an unboosted task that is no better than the picked one leaves the pick alone exactly
      when every group that encloses both stood alone in the list it is picked from: a group that is
      rebuilt goes behind its equals. */
  lemma StablePickIff(s: Cpu, t: nat)
    requires Inv(s) && t in s.tasks && !On(s, Task(t)) && !Boosted(s, Task(t)) && PickNext(s).Picked?
    requires PickNext(s).tid in s.tasks && s.tasks[PickNext(s).tid].prio <= s.tasks[t].prio
    ensures var r := EnqueueEntity(s, Task(t), false);
            Inv(r) && (PickNext(r) == PickNext(s) <==> SingleAbove(s, t, PickNext(s).tid, 0))
  {
    ShapedInv(s);
    hide Consistent, Linked, On, EffThrottled, PickFrom, StackMoved, EnqueueEntity;
    EnqueueQueued(s, t);
    DescentIff(s, EnqueueEntity(s, Task(t), false), t, 0);
  }

  /** A better task, queued where nothing around it is throttled, is picked itself. */
  lemma BetterIsPicked(s: Cpu, t: nat)
    requires Inv(s) && t in s.tasks && !On(s, Task(t)) && !Boosted(s, Task(t))
    requires !EffThrottled(s.rqs[0]) && forall a :: a in Enclosing(s, s.tasks[t].group) ==> !EffThrottled(s.rqs[a])
    requires PickNext(s).Picked? ==> PickNext(s).tid in s.tasks && s.tasks[t].prio < s.tasks[PickNext(s).tid].prio
    ensures Inv(EnqueueEntity(s, Task(t), false)) && PickNext(EnqueueEntity(s, Task(t), false)) == Picked(t)
  {
    ShapedInv(s);
    hide Consistent, Linked, On, EffThrottled, PickNext, EnqueueEntity;
    var r := EnqueueEntity(s, Task(t), false);
    EnqueueKeeps(s, Task(t), false);
    EnqueueQueued(s, t);
    hide StackMoved;
    PickIsBest(s);
    PickIsBest(r);
    EnclosingFrame(s, r, s.tasks[t].group);
    assert Eligible(r, t);
    forall u | Eligible(r, u) && u != t
      ensures Eligible(s, u)
    {
      EnclosingFrame(s, r, s.tasks[u].group);
    }
  }

  // ---------------------------------------------------------------- a pick that moves

  /** In a state with only tasks 0 to 2, of which those in `on` are queued, none boosted and nothing throttled. */
  ghost predicate Small(s: Cpu, on: set<nat>) {
    && Inv(s) && s.parent == [0, 0] && |s.rqs| == 2
    && s.tasks == map[0 := TaskAttr(50, 50, 1), 1 := TaskAttr(50, 50, 0), 2 := TaskAttr(60, 60, 1)]
    && (forall t :: t in s.tasks ==> (On(s, Task(t)) <==> t in on))
    && !s.rqs[0].throttled && !s.rqs[1].throttled
  }

  lemma Extend(states: seq<Cpu>, steps: seq<Step>, step: Step) returns (more: seq<Cpu>)
    requires IsRun(states, steps) && Shaped(states[|steps|]) && RtRuns.Enabled(states[|steps|], step)
    ensures more == states + [Apply(states[|steps|], step)] && IsRun(more, steps + [step])
  {
    hide Shaped, RtRuns.Enabled, Apply, InitCpu;
    more := states + [Apply(states[|steps|], step)];
  }

  /** Two groups with nothing queued, and the tasks known so far. */
  ghost predicate Idle(s: Cpu, tasks: map<nat, TaskAttr>) {
    Inv(s) && s.parent == [0, 0] && s.rqs == [EmptyRq(), EmptyRq()] && s.tasks == tasks
  }

  lemma IdleGroup() returns (states: seq<Cpu>, steps: seq<Step>)
    ensures IsRun(states, steps) && |steps| == 1 && Idle(states[1], map[])
  {
    hide Consistent, LinkedBut, EmptyRq;
    InitOk();
    StepKeeps(InitCpu(), NewGroup(0));
    steps := [NewGroup(0)];
    states := Extend([InitCpu()], [], NewGroup(0));
  }

  lemma IdleTask(states: seq<Cpu>, steps: seq<Step>, tasks: map<nat, TaskAttr>, t: nat, a: TaskAttr) returns (more: seq<Cpu>)
    requires IsRun(states, steps) && Idle(states[|steps|], tasks)
    requires t !in tasks && a.prio < MAX_RT_PRIO && a.group < 2
    ensures IsRun(more, steps + [ChangeTask(t, a)]) && Idle(more[|steps| + 1], tasks[t := a])
  {
    ShapedInv(states[|steps|]);
    hide Consistent, LinkedBut, EmptyRq;
    StepKeeps(states[|steps|], ChangeTask(t, a));
    more := Extend(states, steps, ChangeTask(t, a));
  }

  lemma IdleSmall(s: Cpu)
    requires Idle(s, map[0 := TaskAttr(50, 50, 1), 1 := TaskAttr(50, 50, 0), 2 := TaskAttr(60, 60, 1)])
    ensures Small(s, {})
    ensures forall g, i :: 0 <= g < 2 && 0 <= i < MAX_RT_PRIO ==> s.rqs[g].queue[i] == []
  {
    hide Consistent, LinkedBut;
  }

  lemma SmallStart() returns (states: seq<Cpu>, steps: seq<Step>)
    ensures IsRun(states, steps) && |steps| == 4 && |states| == 5 && Small(states[4], {})
    ensures forall g, i :: 0 <= g < 2 && 0 <= i < MAX_RT_PRIO ==> states[4].rqs[g].queue[i] == []
  {
    hide Idle, Small;
    states, steps := IdleGroup();
    states := IdleTask(states, steps, map[], 0, TaskAttr(50, 50, 1));
    steps := steps + [ChangeTask(0, TaskAttr(50, 50, 1))];
    states := IdleTask(states, steps, map[][0 := TaskAttr(50, 50, 1)], 1, TaskAttr(50, 50, 0));
    steps := steps + [ChangeTask(1, TaskAttr(50, 50, 0))];
    states := IdleTask(states, steps, map[][0 := TaskAttr(50, 50, 1)][1 := TaskAttr(50, 50, 0)], 2, TaskAttr(60, 60, 1));
    steps := steps + [ChangeTask(2, TaskAttr(60, 60, 1))];
    IdleSmall(states[4]);
  }

  /** Task 0 is what group 1 offers. */
  lemma SmallBest(s: Cpu, on: set<nat>)
    requires Small(s, on) && 0 in on && on <= {0, 1}
    ensures Shaped(s) && Enclosing(s, 1) == {1} && Enclosing(s, 0) == {}
    ensures s.rqs[1].nrRunning != 0 && s.rqs[1].highest == 50 && PickFrom(s, 1) == 0
    ensures !EffThrottled(s.rqs[0]) && !EffThrottled(s.rqs[1]) && On(s, Group(1))
  {
    ShapedInv(s);
    hide Consistent, Linked, On, PickFrom;
    assert Enclosing(s, 1) == {1} + Enclosing(s, 0);
    assert Reached(s, 0, 1);
    BestIsLower(s, 0, 1);
    BestIsReached(s, 1);
    GroupOnIff(s, 1);
  }

  lemma SmallFirst(s: Cpu, r: Cpu)
    requires Small(s, {}) && forall g, i :: 0 <= g < 2 && 0 <= i < MAX_RT_PRIO ==> s.rqs[g].queue[i] == []
    requires r == EnqueueEntity(s, Task(0), false)
    ensures Small(r, {0}) && ShapedRq(r.rqs[0]) && r.rqs[0].queue[50] == [Group(1)]
  {
    hide Consistent, Linked, On, EnqueueEntity, Without;
    ShapedInv(s);
    EnqueueKeeps(s, Task(0), false);
    EnqueueExact(s, Task(0), false);
    ShapedInv(r);
    SmallBest(r, {0});
    EnclosingFrame(s, r, 1);
    assert InStack(s, Task(0), Group(1));
    assert Resettled(s, r, Group(1), false);
    assert RemoveEverywhere(s.rqs[0].queue, Group(1))[50] == Without(s.rqs[0].queue[50], Group(1));
    assert Without<Entity>([], Group(1)) == [];
  }

  lemma SmallSecond(s: Cpu, r: Cpu)
    requires Small(s, {0}) && ShapedRq(s.rqs[0]) && s.rqs[0].queue[50] == [Group(1)]
    requires r == EnqueueEntity(s, Task(1), false)
    ensures Small(r, {0, 1}) && ShapedRq(r.rqs[0]) && r.rqs[0].queue[50] == [Group(1), Task(1)]
  {
    hide Consistent, Linked, On, EnqueueEntity, Without;
    ShapedInv(s);
    EnqueueKeeps(s, Task(1), false);
    EnqueueExact(s, Task(1), false);
    ShapedInv(r);
    assert Resettled(s, r, Task(1), false);
    assert RemoveEverywhere(s.rqs[0].queue, Task(1))[50] == Without(s.rqs[0].queue[50], Task(1));
    assert Without([Group(1)], Task(1)) == [Group(1)];
  }

  lemma SmallPicked(s: Cpu)
    requires Small(s, {0, 1}) && ShapedRq(s.rqs[0]) && s.rqs[0].queue[50] == [Group(1), Task(1)]
    ensures PickNext(s) == Picked(0)
  {
    ShapedInv(s);
    hide Consistent, Linked, On, PickFrom, EffThrottled;
    SmallBest(s, {0, 1});
    assert Reached(s, 0, 0);
    BestIsLower(s, 0, 0);
    BestIsReached(s, 0);
    PickByHead(s, 0);
  }

  lemma SmallNotAlone(s: Cpu)
    requires Small(s, {0, 1}) && ShapedRq(s.rqs[0]) && s.rqs[0].queue[50] == [Group(1), Task(1)]
    ensures Shaped(s) && !SingleAbove(s, 2, 0, 0)
  {
    SmallBest(s, {0, 1});
    assert 1 in Common(s, 2, 0) && !Single(s, 1, 50);
  }

  lemma SmallNext(s: Cpu, r: Cpu)
    requires Small(s, {0, 1}) && Queued(s, r, 2) && PickNext(r) != Picked(0)
    requires forall t :: t in s.tasks && t != 2 ==> (On(r, Task(t)) <==> On(s, Task(t)))
    ensures PickNext(r) == Picked(1)
  {
    hide Consistent, LinkedBut, On, PickNext, EffThrottled, StackMoved, Eligible;
    SmallFacts(s, {0, 1});
    ShapedInv(r);
    SmallEligible(s, r);
    PickIsBest(r);
    hide Queued, Inv, Shaped, Small;
    assert PickNext(r).tid in r.tasks by { EligibleKnown(r, PickNext(r).tid); }
  }

  lemma EligibleKnown(s: Cpu, t: nat)
    requires Shaped(s) && Eligible(s, t)
    ensures t in s.tasks
  {
  }

  lemma SmallEligible(s: Cpu, r: Cpu)
    requires Small(s, {0, 1}) && Queued(s, r, 2)
    requires forall t :: t in s.tasks && t != 2 ==> (On(r, Task(t)) <==> On(s, Task(t)))
    ensures Shaped(r) && Eligible(r, 0)
  {
    SmallBest(s, {0, 1});
    ShapedInv(r);
    hide Consistent, LinkedBut, On, EffThrottled, StackMoved;
    EnclosingFrame(s, r, 1);
    EnclosingFrame(s, r, 0);
  }

  lemma SmallMoves(s: Cpu)
    requires Small(s, {0, 1}) && ShapedRq(s.rqs[0]) && s.rqs[0].queue[50] == [Group(1), Task(1)]
    ensures PickNext(s) == Picked(0)
    ensures Inv(EnqueueEntity(s, Task(2), false)) && PickNext(EnqueueEntity(s, Task(2), false)) == Picked(1)
  {
    SmallFacts(s, {0, 1});
    SmallPicked(s);
    SmallNotAlone(s);
    hide Consistent, EnqueueEntity, PickNext, Shaped, On, Small, Boosted, EffThrottled, SingleAbove;
    StablePickIff(s, 2);
    EnqueueKeeps(s, Task(2), false);
    EnqueueQueued(s, 2);
    SmallNext(s, EnqueueEntity(s, Task(2), false));
  }

  lemma SmallQueue(states: seq<Cpu>, steps: seq<Step>, t: nat) returns (more: seq<Cpu>)
    requires IsRun(states, steps) && Shaped(states[|steps|]) && t in states[|steps|].tasks
    ensures more == states + [EnqueueEntity(states[|steps|], Task(t), false)] && IsRun(more, steps + [EnqueueTask(t, false)])
  {
    hide Shaped, EnqueueEntity, InitCpu, IsRun;
    more := Extend(states, steps, EnqueueTask(t, false));
  }

  /** A run after which queueing task 2, which is worse than the picked task 0 and of the same group, makes
      task 1 of the root the next pick: the group goes behind it. */
  lemma PickMoves() returns (states: seq<Cpu>, steps: seq<Step>)
    ensures IsRun(states, steps) && |steps| == 6
    ensures var s := states[6];
            && Small(s, {0, 1}) && PickNext(s) == Picked(0)
            && Inv(EnqueueEntity(s, Task(2), false)) && PickNext(EnqueueEntity(s, Task(2), false)) == Picked(1)
  {
    hide Inv, EnqueueEntity, PickNext, IsRun, Small, Shaped;
    states, steps := SmallStart();
    var s4 := states[4];
    SmallFacts(s4, {});
    states := SmallQueue(states, steps, 0);
    steps := steps + [EnqueueTask(0, false)];
    SmallFirst(s4, states[5]);
    SmallFacts(states[5], {0});
    states := SmallQueue(states, steps, 1);
    steps := steps + [EnqueueTask(1, false)];
    SmallSecond(states[5], states[6]);
    SmallMoves(states[6]);
  }

  lemma SmallFacts(s: Cpu, on: set<nat>)
    requires Small(s, on)
    ensures Inv(s) && Shaped(s) && Consistent(s) && LinkedBut(s, 0) && s.tasks.Keys == {0, 1, 2} && |s.rqs| == 2
    ensures s.tasks[2].prio == 60 && s.tasks[0].prio == 50 && !Boosted(s, Task(2))
    ensures forall t :: t in {0, 1, 2} ==> (On(s, Task(t)) <==> t in on)
  {
  }
}
