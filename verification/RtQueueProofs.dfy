/** What every operation of the real-time run queue keeps. */
module RtQueueProofs {
  import opened Kernel
  import opened Lists
  import opened RtQueue

  // ---------------------------------------------------------------- lists

  lemma ShapedInv(s: Cpu)
    requires Inv(s)
    ensures Consistent(s) && Shaped(s)
  {
  }

  lemma PlacedAt(s: Cpu, g: nat, i: nat, e: Entity)
    requires Shaped(s) && g < |s.rqs| && Placed(s, g)
    requires i < MAX_RT_PRIO && e in s.rqs[g].queue[i]
    ensures Known(s, e) && RqOf(s, e) == g && Prio(s, e) == i
  {
  }

  lemma AddToDistinct(l: seq<Entity>, e: Entity, head: bool)
    requires Distinct(l) && e !in l
    ensures Distinct(AddTo(l, e, head))
    ensures forall x :: x in AddTo(l, e, head) <==> x == e || x in l
  {
    DistinctCons(e, l);
    DistinctSnoc(l, e);
  }

  lemma RemovedMembers(queue: seq<seq<Entity>>, e: Entity)
    ensures Members(RemoveEverywhere(queue, e)) == Members(queue) - {e}
  {
    var r := RemoveEverywhere(queue, e);
    forall x | x in Members(queue) && x != e
      ensures x in Members(r)
    {
      var i :| 0 <= i < |queue| && x in queue[i];
      assert x in r[i];
    }
  }

  lemma AddedMembers(queue: seq<seq<Entity>>, p: nat, e: Entity, head: bool)
    requires p < |queue|
    ensures Members(queue[p := AddTo(queue[p], e, head)]) == Members(queue) + {e}
  {
    var r := queue[p := AddTo(queue[p], e, head)];
    assert e in r[p];
    forall x | x in Members(queue)
      ensures x in Members(r)
    {
      var i :| 0 <= i < |queue| && x in queue[i];
      assert x in r[i];
    }
  }

  lemma MemberOf(queue: seq<seq<Entity>>, i: nat, e: Entity)
    requires i < |queue| && e in queue[i]
    ensures e in Members(queue)
  {
  }

  lemma NoMembers(queue: seq<seq<Entity>>)
    requires Members(queue) == {}
    ensures forall i :: 0 <= i < |queue| ==> queue[i] == []
  {
    forall i | 0 <= i < |queue|
      ensures queue[i] == []
    {
      if queue[i] != [] {
        var e := queue[i][0];
        MemberOf(queue, i, e);
        assert false;
      }
    }
  }

  lemma OnIsMember(s: Cpu, e: Entity)
    requires Shaped(s) && Known(s, e)
    ensures On(s, e) <==> e in Members(s.rqs[RqOf(s, e)].queue)
  {
  }

  /** In a consistent state the list that holds an entity is the one of its priority. */
  lemma HeldAtPrio(s: Cpu, e: Entity)
    requires Consistent(s) && Known(s, e) && On(s, e)
    ensures 0 <= Prio(s, e) < MAX_RT_PRIO
    ensures e in s.rqs[RqOf(s, e)].queue[Prio(s, e)]
    ensures s.rqs[RqOf(s, e)].nrRunning > 0
  {
    var g := RqOf(s, e);
    assert LocalOk(s, g);
    var i :| 0 <= i < |s.rqs[g].queue| && e in s.rqs[g].queue[i];
    MemberOf(s.rqs[g].queue, i, e);
  }

  lemma EmptyIffNoMembers(s: Cpu, g: nat)
    requires Consistent(s) && g < |s.rqs|
    ensures s.rqs[g].nrRunning == 0 <==> s.rqs[g].highest == MAX_RT_PRIO
    ensures s.rqs[g].nrRunning >= 0
  {
    var q := s.rqs[g];
    assert LocalOk(s, g);
    if q.highest < MAX_RT_PRIO {
      assert q.queue[q.highest][0] in q.queue[q.highest];
      assert q.queue[q.highest][0] in Members(q.queue);
    } else {
      assert Members(q.queue) == {};
    }
  }

  // ---------------------------------------------------------------- frames

  lemma BoostedFrame(s: Cpu, s': Cpu, m: set<Entity>)
    requires forall x :: x in m ==> Known(s, x) && Known(s', x) && (Boosted(s, x) <==> Boosted(s', x))
    ensures BoostedOf(s, m) == BoostedOf(s', m)
  {
  }

  lemma BoostedRemoved(s: Cpu, m: set<Entity>, e: Entity)
    requires e in m && Known(s, e)
    ensures |BoostedOf(s, m)| == |BoostedOf(s, m - {e})| + (if Boosted(s, e) then 1 else 0)
  {
    if Boosted(s, e) {
      assert BoostedOf(s, m) == BoostedOf(s, m - {e}) + {e};
    } else {
      assert BoostedOf(s, m) == BoostedOf(s, m - {e});
    }
  }

  /** Everything a run queue's consistency depends on: its own content and, for the
      groups queued in it, their best priority and whether they hold boosted entities. */
  lemma LocalOkFrame(s: Cpu, s': Cpu, g: nat)
    requires Shaped(s) && Shaped(s') && SameFrame(s, s') && g < |s.rqs|
    requires s'.rqs[g] == s.rqs[g]
    requires LocalOk(s, g)
    requires forall h :: 0 < h < |s.rqs| && Group(h) in Members(s.rqs[g].queue) ==>
               s'.rqs[h].highest == s.rqs[h].highest && s'.rqs[h].nrBoosted == s.rqs[h].nrBoosted
    ensures LocalOk(s', g)
  {
    var queue := s.rqs[g].queue;
    forall i, e | 0 <= i < MAX_RT_PRIO && e in queue[i]
      ensures Known(s', e) && RqOf(s', e) == g && Prio(s', e) == i
    {
      PlacedAt(s, g, i, e);
      assert e in Members(queue);
    }
    BoostedFrame(s, s', Members(queue));
  }

  /** Changing one run queue keeps the others consistent if its group is not queued. */
  lemma OthersKept(s: Cpu, s': Cpu, g: nat)
    requires Consistent(s) && Shaped(s') && SameFrame(s, s') && g < |s.rqs|
    requires forall h :: 0 <= h < |s.rqs| && h != g ==> s'.rqs[h] == s.rqs[h]
    requires g == 0 || !On(s, Group(g))
    requires LocalOk(s', g)
    ensures Consistent(s')
  {
    forall k | 0 <= k < |s.rqs| && k != g
      ensures LocalOk(s', k)
    {
      assert LocalOk(s, k);
      if g > 0 && Group(g) in Members(s.rqs[k].queue) {
        var i :| 0 <= i < |s.rqs[k].queue| && Group(g) in s.rqs[k].queue[i];
        PlacedAt(s, k, i, Group(g));
        assert false;
      }
      LocalOkFrame(s, s', k);
    }
  }

  /** Only run queue `g` differs, and its throttle flag does not. */
  ghost predicate OnlyRq(s: Cpu, r: Cpu, g: nat) {
    && |r.rqs| == |s.rqs|
    && forall h :: 0 <= h < |s.rqs| ==> r.rqs[h].throttled == s.rqs[h].throttled && (h == g || r.rqs[h] == s.rqs[h])
  }

  // ---------------------------------------------------------------- one entity

  lemma WithoutEmpty(e: Entity)
    ensures Without([], e) == []
  {
  }

  /** The bitmap after a removal: only the entity's own list can have become empty. */
  lemma RemovedBits(q: RtRq, p: nat, e: Entity)
    requires ShapedRq(q) && Indexed(q) && p < MAX_RT_PRIO
    requires forall i :: 0 <= i < MAX_RT_PRIO && i != p ==> e !in q.queue[i]
    ensures var queue := RemoveEverywhere(q.queue, e);
            && (forall i :: 0 <= i < MAX_RT_PRIO && i != p ==> queue[i] == q.queue[i])
            && forall i :: 0 <= i < MAX_RT_PRIO ==>
                 ((if queue[p] == [] then q.bitmap[p := false] else q.bitmap)[i] <==> queue[i] != [])
  {
    hide Without, RemoveEverywhere;
    var queue := RemoveEverywhere(q.queue, e);
    forall i | 0 <= i < MAX_RT_PRIO && i != p
      ensures queue[i] == q.queue[i]
    {
      assert queue[i] == Without(q.queue[i], e);
    }
    if q.queue[p] == [] {
      assert queue[p] == Without(q.queue[p], e);
      WithoutEmpty(e);
    }
  }

  lemma FirstSetIsFirst(queue: seq<seq<Entity>>, bitmap: seq<bool>)
    requires |queue| == MAX_RT_PRIO && |bitmap| == MAX_RT_PRIO + 1 && bitmap[MAX_RT_PRIO]
    requires forall i :: 0 <= i < MAX_RT_PRIO ==> (bitmap[i] <==> queue[i] != [])
    ensures FirstNonEmpty(queue, FirstSet(bitmap, 0))
  {
    hide FirstSet;
  }

  lemma DequeuedIndexed(s: Cpu, e: Entity)
    requires Consistent(s) && Known(s, e) && On(s, e)
    ensures Indexed(DequeueRaw(s, e).rqs[RqOf(s, e)])
  {
    hide Without, RemoveEverywhere, FirstSet, Boosted, BoostedOf, Members, Distinct;
    var g := RqOf(s, e);
    var q, p := s.rqs[g], Prio(s, e);
    HeldAtPrio(s, e);
    assert LocalOk(s, g);
    assert Indexed(q) && forall i :: 0 <= i < MAX_RT_PRIO && i != p ==> e !in q.queue[i];
    RemovedBits(q, p, e);
    var queue := RemoveEverywhere(q.queue, e);
    var bitmap := if queue[p] == [] then q.bitmap[p := false] else q.bitmap;
    RemovedMembers(q.queue, e);
    OnIsMember(s, e);
    assert q.nrRunning == |Members(q.queue)|;
    hide Consistent, LocalOk, Placed, PlacedIn, Shaped, On;
    if q.nrRunning == 1 {
      assert |Members(queue)| == 0;
      NoMembers(queue);
    } else if p == q.highest {
      FirstSetIsFirst(queue, bitmap);
    }
  }

  lemma RemovePlaced(s: Cpu, g: nat, queue: seq<seq<Entity>>, e: Entity)
    requires Shaped(s) && |queue| == MAX_RT_PRIO && PlacedIn(s, g, queue)
    ensures PlacedIn(s, g, RemoveEverywhere(queue, e))
  {
    hide Shaped, Known, Prio, RqOf;
    forall i | 0 <= i < MAX_RT_PRIO
      ensures Distinct(RemoveEverywhere(queue, e)[i])
    {
      WithoutDistinct(queue[i], e);
    }
  }

  lemma AddPlaced(s: Cpu, g: nat, queue: seq<seq<Entity>>, e: Entity, head: bool)
    requires Shaped(s) && |queue| == MAX_RT_PRIO && PlacedIn(s, g, queue)
    requires Known(s, e) && RqOf(s, e) == g && 0 <= Prio(s, e) < MAX_RT_PRIO
    requires forall i :: 0 <= i < |queue| ==> e !in queue[i]
    ensures PlacedIn(s, g, queue[Prio(s, e) := AddTo(queue[Prio(s, e)], e, head)])
  {
    hide Shaped, Known, Prio, RqOf;
    AddToDistinct(queue[Prio(s, e)], e, head);
  }

  /** Placement carries over when no group but `g`, which is not in its own queue, changes priority. */
  lemma PlacedTransfer(s: Cpu, s': Cpu, g: nat, queue: seq<seq<Entity>>)
    requires Shaped(s) && Shaped(s') && SameFrame(s, s') && |queue| == MAX_RT_PRIO && PlacedIn(s, g, queue)
    requires forall h :: 0 < h < |s.rqs| && h != g ==> s'.rqs[h].highest == s.rqs[h].highest
    ensures PlacedIn(s', g, queue)
  {
    forall i, x | 0 <= i < MAX_RT_PRIO && x in queue[i]
      ensures Known(s', x) && RqOf(s', x) == g && Prio(s', x) == i
    {
      assert Known(s, x) && RqOf(s, x) == g && Prio(s, x) == i;
    }
  }

  lemma DequeuedPlaced(s: Cpu, e: Entity)
    requires Shaped(s) && Known(s, e) && Placed(s, RqOf(s, e))
    ensures Placed(DequeueRaw(s, e), RqOf(s, e))
  {
    hide PlacedIn, Boosted;
    var g := RqOf(s, e);
    RemovePlaced(s, g, s.rqs[g].queue, e);
    PlacedTransfer(s, DequeueRaw(s, e), g, RemoveEverywhere(s.rqs[g].queue, e));
  }

  /** Members of a run queue are known entities of that run queue. */
  lemma MembersPlaced(s: Cpu, g: nat)
    requires Shaped(s) && g < |s.rqs| && Placed(s, g)
    ensures forall x :: x in Members(s.rqs[g].queue) ==> Known(s, x) && RqOf(s, x) == g
  {
  }

  /** Entities of run queue `g` are boosted or not whatever becomes of `g` itself. */
  lemma BoostedStable(s: Cpu, s': Cpu, g: nat, m: set<Entity>)
    requires Shaped(s) && Shaped(s') && SameFrame(s, s') && g < |s.rqs|
    requires forall h :: 0 <= h < |s.rqs| && h != g ==> s'.rqs[h] == s.rqs[h]
    requires forall x :: x in m ==> Known(s, x) && RqOf(s, x) == g
    ensures BoostedOf(s, m) == BoostedOf(s', m)
  {
    hide BoostedOf;
    BoostedFrame(s, s', m);
  }

  lemma DequeuedCounted(s: Cpu, e: Entity)
    requires Consistent(s) && Known(s, e) && On(s, e)
    ensures Counted(DequeueRaw(s, e), RqOf(s, e))
  {
    hide Indexed, PlacedIn, Members, BoostedOf, Boosted, RemoveEverywhere, FirstSet, On;
    var g := RqOf(s, e);
    var q, s' := s.rqs[g], DequeueRaw(s, e);
    assert LocalOk(s, g);
    MembersPlaced(s, g);
    RemovedMembers(q.queue, e);
    OnIsMember(s, e);
    BoostedStable(s, s', g, Members(q.queue) - {e});
    BoostedRemoved(s, Members(q.queue), e);
  }

  /** Taking one entity out keeps every run queue consistent, provided the entity of the
      enclosing group is already out: this is why stacks are taken down from the top. */
  lemma DetachOk(s: Cpu, e: Entity)
    requires Consistent(s) && Known(s, e) && On(s, e)
    requires RqOf(s, e) == 0 || !On(s, Group(RqOf(s, e)))
    ensures var s' := DequeueRaw(s, e);
            && Consistent(s') && !On(s', e)
            && (forall x :: Known(s, x) && x != e ==> (On(s', x) <==> On(s, x)))
            && OnlyRq(s, s', RqOf(s, e))
  {
    hide PlacedIn, Indexed, Counted, Members, On, BoostedOf, Boosted, RemoveEverywhere, FirstSet;
    var g := RqOf(s, e);
    var s' := DequeueRaw(s, e);
    assert LocalOk(s, g);
    DequeuedPlaced(s, e);
    DequeuedIndexed(s, e);
    DequeuedCounted(s, e);
    assert LocalOk(s', g);
    OthersKept(s, s', g);
    RemovedMembers(s.rqs[g].queue, e);
    OnIsMember(s', e);
    forall x | Known(s, x) && x != e
      ensures On(s', x) <==> On(s, x)
    {
      OnIsMember(s, x);
      OnIsMember(s', x);
    }
  }

  lemma EnqueueableInRange(s: Cpu, e: Entity)
    requires Consistent(s) && Known(s, e) && Enqueueable(s, e)
    ensures 0 <= Prio(s, e) < MAX_RT_PRIO
  {
    if e.Group? {
      EmptyIffNoMembers(s, e.gid);
      assert LocalOk(s, e.gid);
    }
  }

  lemma EnqueuedPlaced(s: Cpu, e: Entity, head: bool)
    requires Consistent(s) && Known(s, e) && !On(s, e) && Enqueueable(s, e) && 0 <= Prio(s, e) < MAX_RT_PRIO
    ensures Placed(EnqueueRaw(s, e, head), RqOf(s, e))
    ensures Indexed(EnqueueRaw(s, e, head).rqs[RqOf(s, e)])
  {
    hide PlacedIn, Boosted, BoostedOf, Members;
    var g := RqOf(s, e);
    assert LocalOk(s, g);
    AddPlaced(s, g, s.rqs[g].queue, e, head);
    var s' := EnqueueRaw(s, e, head);
    PlacedTransfer(s, s', g, s'.rqs[g].queue);
  }

  lemma EnqueuedCounted(s: Cpu, e: Entity, head: bool)
    requires Consistent(s) && Known(s, e) && !On(s, e) && Enqueueable(s, e) && 0 <= Prio(s, e) < MAX_RT_PRIO
    ensures Counted(EnqueueRaw(s, e, head), RqOf(s, e))
  {
    hide Indexed, PlacedIn, Members, BoostedOf, Boosted, AddTo, On;
    var g := RqOf(s, e);
    var q, s' := s.rqs[g], EnqueueRaw(s, e, head);
    assert LocalOk(s, g);
    MembersPlaced(s, g);
    OnIsMember(s, e);
    AddedMembers(q.queue, Prio(s, e), e, head);
    var held := Members(q.queue);
    assert held + {e} - {e} == held;
    BoostedStable(s, s', g, held + {e});
    BoostedRemoved(s, held + {e}, e);
  }

  /** Putting one entity in keeps every run queue consistent, provided the entity of the
      enclosing group is out; the index used is inside the array. */
  lemma AttachOk(s: Cpu, e: Entity, head: bool)
    requires Consistent(s) && Known(s, e) && !On(s, e)
    requires RqOf(s, e) == 0 || !On(s, Group(RqOf(s, e)))
    ensures Enqueueable(s, e) ==> 0 <= Prio(s, e) < MAX_RT_PRIO
    ensures var s' := EnqueueRaw(s, e, head);
            && Consistent(s') && (On(s', e) <==> Enqueueable(s, e))
            && (forall x :: Known(s, x) && x != e ==> (On(s', x) <==> On(s, x)))
            && OnlyRq(s, s', RqOf(s, e))
  {
    hide PlacedIn, Indexed, Counted, Members, AddTo, On, BoostedOf, Boosted;
    if Enqueueable(s, e) {
      var g := RqOf(s, e);
      EnqueueableInRange(s, e);
      EnqueuedPlaced(s, e, head);
      EnqueuedCounted(s, e, head);
      var s' := EnqueueRaw(s, e, head);
      assert LocalOk(s', g);
      OthersKept(s, s', g);
      AddedMembers(s.rqs[g].queue, Prio(s, e), e, head);
      OnIsMember(s', e);
      forall x | Known(s, x) && x != e
        ensures On(s', x) <==> On(s, x)
      {
        OnIsMember(s, x);
        OnIsMember(s', x);
      }
    }
  }

  // ---------------------------------------------------------------- whole stacks

  lemma {:induction false} EnclosingFrame(s: Cpu, s': Cpu, g: nat)
    requires Shaped(s) && Shaped(s') && SameFrame(s, s') && g < |s.rqs|
    ensures Enclosing(s, g) == Enclosing(s', g)
    decreases g
  {
    if g > 0 { EnclosingFrame(s, s', s.parent[g]); }
  }

  ghost predicate GroupsOff(s: Cpu, a: set<nat>)
    requires Shaped(s)
  {
    forall h :: h in a && 0 < h < |s.rqs| ==> !On(s, Group(h))
  }

  /** Entities other than `e` and the groups of `a` are queued in `r` iff they are in `s`. */
  ghost predicate SameOn(s: Cpu, r: Cpu, e: Entity, a: set<nat>)
    requires Shaped(s) && Shaped(r) && SameFrame(s, r)
  {
    forall x :: Known(s, x) && x != e && !(x.Group? && x.gid in a) ==> (On(r, x) <==> On(s, x))
  }

  /** Run queues outside `a` and the root are untouched, and no throttle flag moved. */
  ghost predicate SameRqs(s: Cpu, r: Cpu, a: set<nat>)
    requires SameFrame(s, r)
  {
    forall h :: 0 <= h < |s.rqs| ==>
      r.rqs[h].throttled == s.rqs[h].throttled && (h == 0 || h in a || r.rqs[h] == s.rqs[h])
  }

  /** The stack of `e` is out, everything else is as it was. */
  ghost predicate TakenDown(s: Cpu, e: Entity, r: Cpu)
    requires Shaped(s) && Known(s, e)
  {
    var a := Enclosing(s, RqOf(s, e));
    && Consistent(r) && SameFrame(s, r)
    && !On(r, e) && GroupsOff(r, a) && SameOn(s, r, e, a) && SameRqs(s, r, a)
  }

  /** The groups around `e` are out, everything else, `e` included, is as it was. */
  ghost predicate Cleared(s: Cpu, e: Entity, r: Cpu)
    requires Shaped(s) && Known(s, e)
  {
    var a := Enclosing(s, RqOf(s, e));
    Consistent(r) && SameFrame(s, r) && GroupsOff(r, a) && SameOn(s, r, e, a) && SameRqs(s, r, a)
  }

  lemma ClearedAbove(s: Cpu, e: Entity, above: Cpu)
    requires Consistent(s) && Known(s, e)
    requires var g := RqOf(s, e); if g == 0 then above == s else TakenDown(s, Group(g), above)
    ensures Cleared(s, e, above)
  {
    hide LocalOk, Shaped, On, Boosted, Prio;
  }

  lemma TakenFrom(s: Cpu, e: Entity, above: Cpu)
    requires Consistent(s) && Known(s, e) && Cleared(s, e, above)
    ensures TakenDown(s, e, if On(above, e) then DequeueRaw(above, e) else above)
  {
    hide LocalOk, Shaped, On, DequeueRaw, Boosted, Prio, Enclosing;
    if On(above, e) { DetachOk(above, e); }
  }

  lemma {:induction false} TakeDownOk(s: Cpu, e: Entity)
    requires Consistent(s) && Known(s, e)
    ensures TakenDown(s, e, TakeDown(s, e))
    decreases RqOf(s, e)
  {
    hide LocalOk, Shaped, On, DequeueRaw, TakenDown, Cleared;
    var g := RqOf(s, e);
    var above := if g == 0 then s else TakeDown(s, Group(g));
    if g != 0 { TakeDownOk(s, Group(g)); }
    ClearedAbove(s, e, above);
    TakenFrom(s, e, above);
  }

  ghost predicate GroupsLinked(s: Cpu, a: set<nat>)
    requires Shaped(s)
  {
    forall h :: h in a && 0 < h < |s.rqs| ==> Linked(s, h)
  }

  /** What the rebuilding loops establish: the groups around `e` are linked again, `e` is queued
      iff it is to be and may be, and the rest is untouched. */
  ghost predicate BuiltUp(s: Cpu, e: Entity, put: bool, r: Cpu)
    requires Shaped(s) && Known(s, e)
  {
    var a := Enclosing(s, RqOf(s, e));
    && Consistent(r) && SameFrame(s, r)
    && (On(r, e) <==> put && Enqueueable(s, e))
    && GroupsLinked(r, a) && SameOn(s, r, e, a) && SameRqs(s, r, a)
  }

  /** The first round of a rebuilding loop: `e` is handled, nothing else moved. */
  ghost predicate FirstRound(s: Cpu, e: Entity, put: bool, s1: Cpu)
    requires Shaped(s) && Known(s, e)
  {
    && Consistent(s1) && SameFrame(s, s1)
    && (On(s1, e) <==> put && Enqueueable(s, e))
    && (forall x :: Known(s, x) && x != e ==> (On(s1, x) <==> On(s, x)))
    && OnlyRq(s, s1, RqOf(s, e))
  }

  /** A first round followed by the rounds for the enclosing groups is a complete rebuild. */
  lemma RoundsCompose(s: Cpu, e: Entity, put: bool, s1: Cpu, r: Cpu)
    requires Shaped(s) && Known(s, e) && FirstRound(s, e, put, s1)
    requires var g := RqOf(s, e); if g == 0 then r == s1 else BuiltUp(s1, Group(g), true, r)
    ensures BuiltUp(s, e, put, r)
  {
    hide LocalOk, Shaped, On, Boosted, Prio, EffThrottled;
    var g := RqOf(s, e);
    if g != 0 {
      EnclosingFrame(s, s1, g);
      var a := Enclosing(s, g);
      assert a == {g} + Enclosing(s1, RqOf(s1, Group(g)));
      assert GroupsLinked(r, a);
    }
  }

  lemma {:induction false} BuildUpOk(s: Cpu, e: Entity, head: bool)
    requires Consistent(s) && Known(s, e)
    requires !On(s, e) && GroupsOff(s, Enclosing(s, RqOf(s, e)))
    ensures BuiltUp(s, e, true, BuildUp(s, e, head))
    decreases RqOf(s, e)
  {
    hide LocalOk, Shaped, On, EnqueueRaw, Enqueueable, BuiltUp;
    var g := RqOf(s, e);
    AttachOk(s, e, head);
    var s1 := EnqueueRaw(s, e, head);
    if g != 0 {
      EnclosingFrame(s, s1, g);
      BuildUpOk(s1, Group(g), head);
    }
    RoundsCompose(s, e, true, s1, BuildUp(s, e, head));
  }

  lemma {:induction false} ReattachOk(s: Cpu, e: Entity)
    requires Consistent(s) && Known(s, e)
    requires !On(s, e) && GroupsOff(s, Enclosing(s, RqOf(s, e)))
    ensures BuiltUp(s, e, e.Group?, Reattach(s, e))
    decreases RqOf(s, e)
  {
    hide LocalOk, Shaped, On, EnqueueRaw, EffThrottled, BuiltUp;
    var g := RqOf(s, e);
    if e.Group? { AttachOk(s, e, false); }
    var s1 := if e.Group? && s.rqs[e.gid].nrRunning != 0 then EnqueueRaw(s, e, false) else s;
    if g != 0 {
      EnclosingFrame(s, s1, g);
      ReattachOk(s1, Group(g));
    }
    RoundsCompose(s, e, e.Group?, s1, Reattach(s, e));
  }

  // ---------------------------------------------------------------- invariant

  /** All groups but `g` are linked. */
  ghost predicate LinkedBut(s: Cpu, g: nat)
    requires Shaped(s)
  {
    forall h :: 0 < h < |s.rqs| && h != g ==> Linked(s, h)
  }

  ghost function Own(e: Entity): nat {
    if e.Group? then e.gid else 0
  }

  lemma RestLinked(s: Cpu, e: Entity, put: bool, r: Cpu)
    requires Consistent(s) && Known(s, e) && LinkedBut(s, Own(e))
    requires var m := TakeDown(s, e); TakenDown(s, e, m) && BuiltUp(m, e, put, r)
    ensures SameFrame(s, r) && LinkedBut(r, Own(e))
    ensures e.Group? ==> r.rqs[e.gid] == s.rqs[e.gid]
    ensures forall t :: t in s.tasks && Task(t) != e ==> (On(r, Task(t)) <==> On(s, Task(t)))
    ensures forall h :: 0 <= h < |s.rqs| ==> r.rqs[h].throttled == s.rqs[h].throttled
  {
    hide LocalOk, Shaped, On, Boosted, Prio, TakeDown;
    var m := TakeDown(s, e);
    var a := Enclosing(s, RqOf(s, e));
    EnclosingFrame(s, m, RqOf(s, e));
    forall h | 0 < h < |s.rqs| && h != Own(e)
      ensures Linked(r, h)
    {
      if h !in a {
        assert Known(s, Group(h));
        assert Linked(s, h);
      }
    }
  }

  /** enqueue_rt_entity re-establishes the whole invariant, even if the entity's own group
      was the one that was out of place, and queues the entity unless it may not run. */
  lemma EnqueueKeeps(s: Cpu, e: Entity, head: bool)
    requires Consistent(s) && Known(s, e) && LinkedBut(s, Own(e))
    ensures var r := EnqueueEntity(s, e, head);
            && Inv(r)
            && (e.Task? ==> On(r, e))
            && (forall t :: t in s.tasks && Task(t) != e ==> (On(r, Task(t)) <==> On(s, Task(t))))
            && (forall h :: 0 <= h < |s.rqs| ==> r.rqs[h].throttled == s.rqs[h].throttled)
  {
    hide LocalOk, Shaped, On, Boosted, Prio;
    TakeDownOk(s, e);
    var m := TakeDown(s, e);
    EnclosingFrame(s, m, RqOf(s, e));
    BuildUpOk(m, e, head);
    RestLinked(s, e, true, EnqueueEntity(s, e, head));
  }

  /** dequeue_rt_entity likewise; a task leaves, a group stays if it still may run. */
  lemma DequeueKeeps(s: Cpu, e: Entity)
    requires Consistent(s) && Known(s, e) && LinkedBut(s, Own(e))
    ensures var r := DequeueEntity(s, e);
            && Inv(r)
            && (e.Task? ==> !On(r, e))
            && (forall t :: t in s.tasks && Task(t) != e ==> (On(r, Task(t)) <==> On(s, Task(t))))
            && (forall h :: 0 <= h < |s.rqs| ==> r.rqs[h].throttled == s.rqs[h].throttled)
  {
    hide LocalOk, Shaped, On, Boosted, Prio;
    TakeDownOk(s, e);
    var m := TakeDown(s, e);
    EnclosingFrame(s, m, RqOf(s, e));
    ReattachOk(m, e);
    RestLinked(s, e, e.Group?, DequeueEntity(s, e));
  }

  /** Throttle flags are no part of the consistency of the run queues. */
  lemma FlagsFrame(s: Cpu, r: Cpu)
    requires Consistent(s) && SameFrame(s, r) && forall h :: 0 <= h < |s.rqs| ==> r.rqs[h] == s.rqs[h].(throttled := r.rqs[h].throttled)
    ensures Consistent(r) && forall x :: Known(s, x) ==> (On(r, x) <==> On(s, x))
  {
    hide PlacedIn, Indexed, Members, BoostedOf;
    assert Shaped(r);
    forall k | 0 <= k < |s.rqs|
      ensures LocalOk(r, k)
    {
      assert LocalOk(s, k);
      PlacedFrame(s, r, k);
      BoostedFrame(s, r, Members(s.rqs[k].queue));
      IndexedFrame(s.rqs[k], r.rqs[k]);
    }
  }

  lemma IndexedFrame(q: RtRq, r: RtRq)
    requires ShapedRq(q) && Indexed(q) && r == q.(throttled := r.throttled)
    ensures Indexed(r)
  {
  }

  lemma SetThrottledOk(s: Cpu, g: nat, on: bool)
    requires Inv(s) && g < |s.rqs|
    ensures var r := SetThrottled(s, g, on);
            Consistent(r) && LinkedBut(r, g)
            && (forall x :: Known(s, x) ==> (On(r, x) <==> On(s, x)))
  {
    var r := SetThrottled(s, g, on);
    FlagsFrame(s, r);
    forall h | 0 < h < |s.rqs| && h != g
      ensures Linked(r, h)
    {
      assert Linked(s, h);
    }
  }

  lemma PlacedFrame(s: Cpu, s': Cpu, g: nat)
    requires Shaped(s) && Shaped(s') && SameFrame(s, s') && g < |s.rqs|
    requires s'.rqs[g].queue == s.rqs[g].queue && Placed(s, g)
    requires forall h :: 0 <= h < |s.rqs| ==>
               s'.rqs[h].highest == s.rqs[h].highest && s'.rqs[h].nrBoosted == s.rqs[h].nrBoosted
    ensures Placed(s', g)
    ensures forall x :: x in Members(s.rqs[g].queue) ==> Known(s, x) && Known(s', x) && (Boosted(s, x) <==> Boosted(s', x))
  {
    var queue := s.rqs[g].queue;
    forall i, x | 0 <= i < MAX_RT_PRIO && x in queue[i]
      ensures Known(s', x) && RqOf(s', x) == g && Prio(s', x) == i
    {
      PlacedAt(s, g, i, x);
    }
    MembersPlaced(s, g);
  }
}
