/** The run queue as the routines of core.c change it, field by field. */
module DispatchImpl {
  import opened Kernel
  import opened Lists
  import opened Dispatch
  import WrrQueue

  class RunQueue {
    var tasks: seq<Task>
    var rt: set<nat>
    var fair: set<nat>
    var wrr: seq<nat>
    var wrrNr: int
    var totalWeight: int
    var fairNr: int
    var nrRunning: int
    var stop: bool
    const unit: nat

    ghost function Model(): Rq
      reads this
    {
      Rq(tasks, rt, fair, wrr, wrrNr, totalWeight, fairNr, nrRunning, stop, unit)
    }

    constructor (unit: nat)
      requires unit >= 1
      ensures Start(Model()) && Ok(Model())
    {
      tasks := [Task(NORMAL, 120, 120, 120, 0, FairClass, false, false, false, false, 0, false, 0)];
      rt, fair, wrr := {}, {}, [];
      wrrNr, totalWeight, fairNr, nrRunning := 0, 0, 0, 0;
      stop := false;
      this.unit := unit;
    }

    /** update_weight, and the slice filled in enqueue_wrr_entity */
    method UpdateWeight(t: nat)
      requires t < |tasks|
      modifies this`tasks
      ensures tasks == old(tasks)[t := Weighted(old(tasks)[t], unit)]
    {
      var p := tasks[t];
      if !p.custom {
        if p.background && p.weight != WrrQueue.WRR_BG_WEIGHT { p := p.(weight := WrrQueue.WRR_BG_WEIGHT); }
        if !p.background && p.weight != WrrQueue.WRR_FG_WEIGHT { p := p.(weight := WrrQueue.WRR_FG_WEIGHT); }
      }
      p := p.(slice := p.weight * unit);
      tasks := tasks[t := p];
    }

    /** enqueue_task, with enqueue_wrr_entity and inc_wrr_tasks */
    method EnqueueTask(t: nat, head: bool)
      requires t < |tasks|
      modifies this
      ensures Model() == Enqueue(old(Model()), t, head)
    {
      hide Weighted, Without;
      if tasks[t].cls == RtClass {
        rt := rt + {t};
      } else if tasks[t].cls == FairClass {
        fair := fair + {t};
        fairNr := fairNr + 1;
      } else {
        UpdateWeight(t);
        wrr := Without(wrr, t);
        wrr := if head then [t] + wrr else wrr + [t];
        totalWeight := totalWeight + tasks[t].weight;
        wrrNr := wrrNr + 1;
      }
      nrRunning := nrRunning + 1;
    }

    /** dequeue_task, with dequeue_wrr_entity and dec_wrr_tasks */
    method DequeueTask(t: nat)
      requires t < |tasks|
      modifies this
      ensures Model() == Dequeue(old(Model()), t)
    {
      if tasks[t].cls == RtClass {
        rt := rt - {t};
      } else if tasks[t].cls == FairClass {
        fair := fair - {t};
        fairNr := fairNr - 1;
      } else {
        wrr := Without(wrr, t);
        totalWeight := totalWeight - tasks[t].weight;
        wrrNr := wrrNr - 1;
      }
      nrRunning := nrRunning - 1;
    }

    /** __setscheduler */
    method SetFields(t: nat, policy: int, prio: int, boost: int)
      requires t < |tasks|
      modifies this`tasks
      ensures tasks == old(tasks)[t := Scheduled(old(tasks)[t], policy, prio, boost)]
    {
      var p := tasks[t];
      var rtPriority, weight, custom := prio, p.weight, p.custom;
      if policy == WRR {
        rtPriority := 0;
        if prio != 0 {
          weight, custom := prio, true;
        } else {
          weight, custom := 1, false;
        }
      }
      var normalPrio := p.staticPrio;
      if RtPolicy(policy) { normalPrio := MAX_RT_PRIO - 1 - rtPriority; }
      var best := normalPrio;
      if boost < best { best := boost; }
      var cls := FairClass;
      if RtPrio(best) {
        cls := RtClass;
      } else if policy == WRR {
        cls := WrrClass;
      }
      tasks := tasks[t := p.(policy := policy, rtPriority := rtPriority, weight := weight, custom := custom,
                             normalPrio := normalPrio, prio := best, cls := cls)];
    }

    /** The part of __sched_setscheduler that takes the task off its queue, changes it and puts it back. */
    method ChangePolicy(t: nat, reset: bool, policy: int, prio: int, boost: int)
      requires t < |tasks|
      modifies this
      ensures Model() == Rework(old(Model()), t, Scheduled(old(tasks)[t].(resetOnFork := reset), policy, prio, boost), false)
    {
      hide Enqueue, Dequeue, Scheduled;
      var onRq := tasks[t].onRq;
      if onRq { TaskKept(Model(), t); DequeueTask(t); }
      tasks := tasks[t := tasks[t].(resetOnFork := reset)];
      SetFields(t, policy, prio, boost);
      assert tasks == old(tasks)[t := Scheduled(old(tasks)[t].(resetOnFork := reset), policy, prio, boost)];
      ScheduledKeepsOnRq(old(tasks)[t].(resetOnFork := reset), policy, prio, boost);
      if onRq { EnqueueTask(t, false); }
    }

    /** __sched_setscheduler */
    method SchedSetscheduler(t: nat, r: Request, prio: int, boost: int, checks: Checks) returns (err: int)
      requires Ok(Model()) && t < |tasks| && 0 <= boost <= MAX_PRIO
      modifies this
      ensures (Model(), err) == SetScheduler(old(Model()), t, r, prio, boost, checks)
      ensures Ok(Model()) && OthersSame(old(Model()), Model(), t)
      ensures err == 0 || Model() == old(Model())
      ensures var p := old(tasks)[t];
              var policy := if r.SamePolicy? then p.policy else r.policy;
              var same := policy == p.policy && (!RtPolicy(policy) || prio == p.rtPriority);
              err == 0 <==> Accepted(policy, prio) && !checks.denied && (same || !(RtPolicy(policy) && checks.noRuntime))
    {
      SetSchedulerMeaning(Model(), t, r, prio, boost, checks);
      assert TaskOk(tasks[t]);
      hide Settled, Rework, Scheduled, TaskOk, Accepted, Becomes;
      SetSchedulerKeeps(Model(), t, r, prio, boost, checks);
      var p := tasks[t];
      var policy := if r.SamePolicy? then p.policy else r.policy;
      var reset := if r.SamePolicy? then p.resetOnFork else r.reset;
      ReworkFrame(Model(), t, Scheduled(p.(resetOnFork := reset), policy, prio, boost), false);
      err := Validate(p, r, prio);
      if err != 0 { return; }
      if checks.denied { return -EPERM; }
      if policy == p.policy && (!RtPolicy(policy) || prio == p.rtPriority) { return; }
      if RtPolicy(policy) && checks.noRuntime { return -EPERM; }
      ChangePolicy(t, reset, policy, prio, boost);
    }

    /** rt_mutex_setprio */
    method RtMutexSetprio(t: nat, prio: int)
      requires Ok(Model()) && t < |tasks| && 0 <= prio <= tasks[t].normalPrio
      modifies this
      ensures Model() == SetPrio(old(Model()), t, prio)
      ensures Ok(Model()) && OthersSame(old(Model()), Model(), t) && Lent(old(Model()), Model(), t, prio)
    {
      hide Settled, Enqueue, Dequeue, Lent;
      SetPrioKeeps(Model(), t, prio);
      var p := tasks[t];
      var oldprio, onRq := p.prio, p.onRq;
      ghost var goal := p.(cls := ClassOf(prio, p.policy), prio := prio);
      ReworkFrame(Model(), t, goal, oldprio < prio);
      if onRq { TaskKept(Model(), t); DequeueTask(t); }
      if RtPrio(prio) {
        p := p.(cls := RtClass);
      } else if p.policy == WRR {
        p := p.(cls := WrrClass);
      } else {
        p := p.(cls := FairClass);
      }
      p := p.(prio := prio);
      tasks := tasks[t := p];
      if onRq { EnqueueTask(t, oldprio < prio); }
    }

    /** set_user_nice */
    method SetUserNice(t: nat, nice: int)
      requires Ok(Model()) && t < |tasks|
      modifies this
      ensures Model() == SetNice(old(Model()), t, nice)
      ensures Ok(Model()) && OthersSame(old(Model()), Model(), t)
      ensures Niced(old(Model()), Model(), t, nice)
    {
      hide Settled, Enqueue, Dequeue, Niced;
      SetNiceMeaning(Model(), t, nice);
      SetNiceKeeps(Model(), t, nice);
      var p := tasks[t];
      ReworkFrame(Model(), t, Reniced(p, nice), false);
      if PrioToNice(p.staticPrio) == nice || nice < -20 || nice > 19 { return; }
      if RtPolicy(p.policy) {
        tasks := tasks[t := p.(staticPrio := NiceToPrio(nice))];
        return;
      }
      var onRq := p.onRq;
      if onRq { TaskKept(Model(), t); DequeueTask(t); }
      p := p.(staticPrio := NiceToPrio(nice));
      p := p.(normalPrio := NormalPrio(p.policy, p.rtPriority, p.staticPrio));
      if !RtPrio(p.prio) { p := p.(prio := p.normalPrio); }
      tasks := tasks[t := p];
      if onRq { EnqueueTask(t, false); }
    }

    /** sched_move_task */
    method SchedMoveTask(t: nat, background: bool)
      requires Ok(Model()) && t < |tasks|
      modifies this
      ensures Model() == MoveGroup(old(Model()), t, background)
      ensures Ok(Model()) && OthersSame(old(Model()), Model(), t)
      ensures |tasks| == |old(tasks)| && tasks[t].background == background && PutWhere(old(Model()), Model(), t, false)
    {
      MoveGroupReweighs(Model(), t, background);
      hide Settled, Enqueue, Dequeue, PutWhere;
      MoveGroupKeeps(Model(), t, background);
      var p := tasks[t];
      ReworkFrame(Model(), t, p.(background := background), false);
      if p.onRq { TaskKept(Model(), t); DequeueTask(t); }
      tasks := tasks[t := p.(background := background)];
      if p.onRq { EnqueueTask(t, false); }
    }

    /** pick_next_task: the shortcut for a queue of fair tasks, then the walk over the classes */
    method PickNextTask(rtPick: Pick, fairPick: Pick, throttled: bool) returns (p: Pick)
      requires Ok(Model()) && Answers(Model(), rtPick, fairPick)
      ensures p == PickNext(Model(), rtPick, fairPick, throttled) == PickWalk(Model(), rtPick, fairPick, throttled)
      ensures RightPick(Model(), rtPick, fairPick, throttled, p)
      ensures p == Nobody <==> !stop && rtPick == Nobody && fair == {} && (wrr == [] || throttled)
    {
      ShortcutAgrees(Model(), rtPick, fairPick, throttled);
      PickMeaning(Model(), rtPick, fairPick, throttled);
      if nrRunning == fairNr {
        p := fairPick;
        if p != Nobody { return; }
      }
      if stop { return StopTask; }
      p := rtPick;
      if p != Nobody { return; }
      if wrrNr != 0 && !throttled { return Chosen(wrr[0]); }
      p := fairPick;
    }
  }

  lemma ScheduledKeepsOnRq(p: Task, policy: int, prio: int, boost: int)
    ensures Scheduled(p, policy, prio, boost).onRq == p.onRq
  {
  }

  lemma TaskKept(q: Rq, t: nat)
    requires t < |q.tasks|
    ensures Dequeue(q, t).tasks == q.tasks
  {
  }
}
