/** The engine's own state, updated in place: the task lists of run_engine_loop and the
    release of a finished micro-batch. */
module Engine {
  import opened SchedulerSpec
  import opened EngineRuns
  import Scheduler
  import BatchNumber
  import SchedulerProofs

  class MolinkEngine {
    const scheduler: Scheduler.MolinkScheduler
    const planner: BatchNumber.BatchPlanner
    var log: seq<Task>
    var tasks: seq<nat>
    var inProgress: seq<bool>
    var batchNum: nat

    constructor (planner: BatchNumber.BatchPlanner, pipelineParallelSize: nat)
      ensures this.planner == planner && scheduler == planner.scheduler && LoopInv(LoopNow()) && log == []
    {
      this.planner, scheduler := planner, planner.scheduler;
      log, tasks, batchNum := [], [], 1;
      inProgress := seq(pipelineParallelSize, i => false);
    }

    ghost function LoopNow(): Loop
      reads this
    {
      Loop(log, tasks, inProgress, batchNum)
    }

    /** Tasks for the contexts from the first free one up to `n`. */
    method CreateTasks(n: nat)
      requires |tasks| == |inProgress|
      modifies `log, `tasks, `inProgress
      ensures LoopNow() == SpawnUpTo(old(LoopNow()), n)
    {
      ghost var whole := SpawnUpTo(LoopNow(), n);
      while |tasks| < n
        invariant |tasks| == |inProgress| && whole == SpawnUpTo(LoopNow(), n)
      {
        log := log + [Task(|tasks|, Created)];
        tasks := tasks + [|log| - 1];
        inProgress := inProgress + [true];
      }
    }

    ghost predicate Ready()
      reads this, planner, scheduler`config
    {
      && planner.scheduler == scheduler && scheduler.config.scheduleLimit >= 1
      && (scheduler.config.chunking || planner.model.profile.Valid())
    }

    /** Visits one context; at context 0 a finished task makes the batch count be computed again,
        and `n` is what it comes out as. Only then do the scheduler's limits change, to fit it. */
    method VisitContext(idx: nat) returns (n: nat)
      requires Ready() && idx < |tasks| == |inProgress| && tasks[idx] < |log|
      modifies `log, `tasks, `inProgress, `batchNum, scheduler`config
      ensures Ready() && 1 <= n <= MAX_BATCH_NUM && LoopNow() == Visit(old(LoopNow()), idx, n)
      ensures if idx == 0 < old(batchNum) && old(log[tasks[0]].phase.Over?)
              then batchNum == n && planner.Planned(old(scheduler.config), n)
              else scheduler.config == old(scheduler.config)
    {
      n := 1;
      if idx >= batchNum {
        inProgress := inProgress[idx := false];
      } else if log[tasks[idx]].phase.Over? {
        log := log + [Task(idx, Created)];
        tasks := tasks[idx := |log| - 1];
        inProgress := inProgress[idx := true];
        if idx == 0 {
          n := planner.CalculateBatchNum();
          batchNum := n;
        }
      }
    }

    /** With no task in progress the batch count is computed and the lists start afresh. */
    method PreparePass() returns (n: nat)
      requires Ready() && LoopInv(LoopNow())
      modifies `log, `tasks, `inProgress, `batchNum, scheduler`config
      ensures Ready() && 1 <= n <= MAX_BATCH_NUM && LoopNow() == Prepare(old(LoopNow()), n)
      ensures if old(true !in inProgress) then planner.Planned(old(scheduler.config), n)
              else scheduler.config == old(scheduler.config)
    {
      n := 1;
      if true !in inProgress {
        n := planner.CalculateBatchNum();
        batchNum := n;
        tasks, inProgress := [], [];
        CreateTasks(n);
      }
      if batchNum > |tasks| {
        CreateTasks(batchNum);
      }
    }

    /** One pass of the loop. It computes the batch count at most once: `n` is that count. When it
        does, the count in force and the scheduler's limits belong together; else both stay. */
    method RunPass() returns (n: nat)
      requires Ready() && LoopInv(LoopNow())
      modifies `log, `tasks, `inProgress, `batchNum, scheduler`config
      ensures Ready() && 1 <= n <= MAX_BATCH_NUM && LoopNow() == Pass(old(LoopNow()), n)
      ensures if old(Recounts(LoopNow())) then batchNum == n && planner.Planned(old(scheduler.config), n)
              else batchNum == old(batchNum) && scheduler.config == old(scheduler.config)
    {
      hide Visit, Prepare, BatchNumber.BatchPlanner.Planned, Pass, VisitFrom;
      ghost var before := LoopNow();
      var idle := true !in inProgress;
      n := PreparePass();
      PrepareKeeps(before, n);
      ghost var prepared := LoopNow();
      var first := VisitContext(0);
      OneBatchNum(before, n, first);
      if !idle {
        n := first;
      }
      VisitKeeps(prepared, 0, n);
      PassServes(before, n);
      PassVisits(before, n);
      FirstIsOver(before, n);
      ghost var whole, planned := Pass(before, n), scheduler.config;
      VisitsNext(prepared, 0, n);
      var idx := 1;
      while idx < |tasks|
        invariant 1 <= idx && Ready() && Passing(LoopNow()) && whole == VisitFrom(LoopNow(), idx, n)
        invariant scheduler.config == planned
        decreases |tasks| - idx
      {
        VisitKeeps(LoopNow(), idx, n);
        ghost var current := LoopNow();
        var other := VisitContext(idx);
        LaterVisit(current, idx, n, other);
        VisitsNext(current, idx, n);
        idx := idx + 1;
      }
      VisitsOver(LoopNow(), idx, n);
    }

    /** Frees every request of a micro-batch whose outputs have been processed. */
    method MarkSeqAsScheduleFree(ids: seq<Id>)
      modifies scheduler`requestsOnFly
      ensures scheduler.requestsOnFly == old(scheduler.requestsOnFly) - Elems(ids)
    {
      for i := 0 to |ids|
        invariant scheduler.requestsOnFly == old(scheduler.requestsOnFly) - Elems(ids[..i])
      {
        assert ids[..i + 1] == ids[..i] + [ids[i]];
        scheduler.MarkSeqAsScheduleFree(ids[i]);
      }
      assert ids[..|ids|] == ids;
    }

    ghost function EngineNow(): EngineRuns.Engine
      reads this, scheduler
    {
      EngineRuns.Engine(LoopNow(), scheduler.QueuesNow(), scheduler.requestsOnFly, scheduler.clock)
    }

    /** The event of a schedule by task `k`: it is refused while stopped groups wait to be
        processed, and idle if it has neither a batch nor blocks to move. */
    ghost function ScheduleEvent(k: nat, blocksToMove: bool): Event
      reads this, scheduler
    {
      if scheduler.asyncStopped != [] then Refuse(k)
      else
        var s := ScansOf(EngineNow(), scheduler.env, scheduler.config);
        Schedule(k, scheduler.env, scheduler.config, NewBatch(s) == [] && !blocksToMove)
    }

    /** Task `k` calls the scheduler: its context's batch is what the step put together. The task
        is over at once if the schedule fails or is idle. */
    method StepSchedule(k: nat, blocksToMove: bool) returns (result: Scheduler.StepResult)
      requires k < |log| && log[k].phase.Created?
      modifies `log, scheduler
      ensures old(Enabled(EngineNow(), ScheduleEvent(k, blocksToMove)))
      ensures EngineNow() == old(Apply(EngineNow(), ScheduleEvent(k, blocksToMove)))
      ensures log == old(log)[k := Task(old(log[k].ctx),
                                        if result.Done? && (result.output.batch != [] || blocksToMove)
                                        then InFlight(SchedulerProofs.IdsOf(result.output.batch)) else Over)]
    {
      result := scheduler.ScheduleChunkedPrefill();
      if result.Done? && (result.output.batch != [] || blocksToMove) {
        log := log[k := log[k].(phase := InFlight(SchedulerProofs.IdsOf(result.output.batch)))];
      } else {
        log := log[k := log[k].(phase := Over)];
      }
    }

    /** Task `k` has its outputs: its requests are freed and the task is over. */
    method StepComplete(k: nat)
      requires k < |log| && log[k].phase.InFlight?
      modifies `log, scheduler`requestsOnFly
      ensures LoopNow() == SetPhase(old(LoopNow()), k, Over)
      ensures scheduler.requestsOnFly == old(scheduler.requestsOnFly) - Elems(old(log[k]).phase.ids)
    {
      MarkSeqAsScheduleFree(log[k].phase.ids);
      log := log[k := log[k].(phase := Over)];
    }
  }
}
