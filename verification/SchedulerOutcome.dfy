/** Where the groups of the three queues are after a step, told from its account, and in which
    order. */
module SchedulerOutcome {
  import opened SchedulerSpec
  import opened SchedulerProofs
  import opened SchedulerHistory
  import Limits = SchedulerBudget

  // ------------------------------------------------------ where the groups go

  /** No group is queued twice. */
  ghost predicate Once(q: Queues) { forall g | g in Content(q) :: Content(q)[g] == 1 }

  ghost function Total(q: Queues, x: Group): nat {
    Count(q.waiting, x) + Count(q.running, x) + Count(q.swapped, x)
  }

  lemma TotalOnce(q: Queues, x: Group)
    requires Once(q)
    ensures Total(q, x) <= 1 && (x in q.waiting || x in q.running || x in q.swapped <==> Total(q, x) == 1)
  {
    assert Content(q)[x] == Total(q, x);
    assert x in Content(q) <==> Total(q, x) > 0;
  }

  lemma {:induction false} PickedMember(tr: seq<Verdict>, j: nat)
    requires j < |tr|
    ensures tr[j].group in Picked(tr, tr[j].kind)
  {
    if j > 0 {
      PickedMember(tr[1..], j - 1);
    }
  }

  /** A group that was queued once is in exactly one of the places it can be after the step. */
  lemma OnePlace(env: Env, cfg: Config, q: Queues, onFly: set<Id>, clock: nat, x: Group)
    requires Once(q)
    ensures var s := RunScans(env, cfg, q, onFly, clock);
      && Total(NewQueues(env, s), x) + Removed(s)[x] == Total(q, x) <= 1
      && Count(NewRunning(env, s), x) == Count(RunningAfter(s.run), x) + Count(GroupsOf(NewBatch(s)), x)
  {
    var s := RunScans(env, cfg, q, onFly, clock);
    TotalOnce(q, x);
    StepConservesEach(env, cfg, q, onFly, clock, x);
    BatchIsRunning(env, s);
  }

  /** The front part of the new waiting queue, and the end of the new swapped queue. */
  function Front(env: Env, s: Scans): seq<Group>
    requires |Picked(s.run.victims, Preempted)| <= |NewQueues(env, s).waiting|
  {
    NewQueues(env, s).waiting[..|Picked(s.run.victims, Preempted)|]
  }

  function Back(env: Env, s: Scans): seq<Group>
    requires |QueueAfter(s.swap)| <= |NewQueues(env, s).swapped|
  {
    NewQueues(env, s).swapped[|QueueAfter(s.swap)|..]
  }

  ghost predicate Parted(env: Env, s: Scans) {
    && |Picked(s.run.victims, Preempted)| <= |NewQueues(env, s).waiting|
    && NewQueues(env, s).waiting == Front(env, s) + QueueAfter(s.wait)
    && |QueueAfter(s.swap)| <= |NewQueues(env, s).swapped|
    && NewQueues(env, s).swapped == QueueAfter(s.swap) + Back(env, s)
  }

  lemma FrontAndBack(env: Env, s: Scans)
    ensures Parted(env, s)
    ensures multiset(Front(env, s)) == multiset(Picked(s.run.victims, Preempted))
    ensures Back(env, s) == Picked(s.run.victims, SwappedOut)
  {
    ReverseMultiset(Picked(s.run.victims, Preempted));
    assert Front(env, s) == Reverse(Picked(s.run.victims, Preempted));
  }

  /** Where the i-th victim of the search in the k-th turn goes. It leaves the queues exactly if its
      last output finished it; of the others it is put in front of the waiting queue exactly if it
      is to be recomputed, and at the end of the swapped queue exactly if not. */
  lemma VictimGoes(env: Env, cfg: Config, q: Queues, onFly: set<Id>, clock: nat, run: seq<Turn>, k: nat, i: nat)
    requires Once(q) && k < |run| && i < run[k].evicted
    requires var s := RunScans(env, cfg, q, onFly, clock);
      RunExplains(env, cfg, q.running, run, s.run.scanned, s.run.victims, s.run.rest)
    ensures k + run[k].left - 1 - i < |q.running|
    ensures var s := RunScans(env, cfg, q, onFly, clock);
      && Parted(env, s)
      && var v, c := q.running[k + run[k].left - 1 - i], run[k].Asked(i);
      && var done := cfg.useAsyncOutputProc && env.finishes(c, v);
      && (v !in Content(NewQueues(env, s)) <==> done)
      && (v in Front(env, s) <==> !done && env.recompute(c, v))
      && (v in Back(env, s) <==> !done && !env.recompute(c, v))
  {
    hide *;
    var s := RunScans(env, cfg, q, onFly, clock);
    FrontAndBack(env, s);
    VictimOf(env, cfg, q.running, run, s.run.scanned, s.run.victims, s.run.rest, k, i);
    var j := |q.running| - k - run[k].left + i;
    var w := s.run.victims[j];
    PickedMember(s.run.victims, j);
    OnePlace(env, cfg, q, onFly, clock, w.group);
    KindOf(env, cfg, run[k].Asked(i), w);
    Apart(env, s, w.group, w.kind);
  }

  lemma KindOf(env: Env, cfg: Config, clock: nat, v: Verdict)
    requires EvictedAs(env, cfg, clock, v)
    ensures var done := cfg.useAsyncOutputProc && env.finishes(clock, v.group);
      && (v.kind.Finished? <==> done) && (v.kind.Preempted? <==> !done && env.recompute(clock, v.group))
      && (v.kind.SwappedOut? <==> !done && !env.recompute(clock, v.group))
  {}

  lemma VictimOf(env: Env, cfg: Config, q: seq<Group>, h: seq<Turn>, scanned: seq<Verdict>, victims: seq<Verdict>,
                 rest: seq<Group>, k: nat, i: nat)
    requires RunExplains(env, cfg, q, h, scanned, victims, rest) && k < |h| && i < h[k].evicted
    ensures var j := |q| - k - h[k].left + i;
      && 0 <= j < |victims| && j < |q| && victims[j].group == q[|q| - 1 - j]
      && EvictedAs(env, cfg, h[k].Asked(i), victims[j])
  {
    var n := |scanned|;
    EvictsWhatIsLeft(env, cfg, q[n..n + h[n].left], h[n], rest);
    hide RunTurned, RunOver, EvictedAs;
    assert TurnEvicts(env, cfg, h[k], |q| - k - h[k].left, victims);
    assert EvictedAs(env, cfg, h[k].Asked(i), victims[|q| - k - h[k].left + i]);
  }

  lemma Apart(env: Env, s: Scans, v: Group, kind: Kind)
    requires v in Picked(s.run.victims, kind) && (kind.Finished? || kind.Preempted? || kind.SwappedOut?)
    requires Total(NewQueues(env, s), v) + Removed(s)[v] <= 1
    ensures Parted(env, s)
    ensures v !in Content(NewQueues(env, s)) <==> kind.Finished?
    ensures v in Front(env, s) <==> kind.Preempted?
    ensures v in Back(env, s) <==> kind.SwappedOut?
  {
    FrontAndBack(env, s);
    var now := NewQueues(env, s);
    hide Picked, Front, Back, NewRunning, NewQueues;
    var front, back := Front(env, s), Back(env, s);
    assert v in front <==> v in multiset(Picked(s.run.victims, Preempted));
    assert Count(now.waiting, v) == Count(front, v) + Count(QueueAfter(s.wait), v);
    assert Count(now.swapped, v) == Count(QueueAfter(s.swap), v) + Count(back, v);
    assert Content(now)[v] == Total(now, v);
    assert kind.Finished? ==> Removed(s)[v] >= 1;
    assert v in front <==> Count(front, v) >= 1;
    assert v in back <==> Count(back, v) >= 1;
  }

  /** A group from one of the other two queues is reported, in the batch, or still in its queue, by
      the verdicts of its own scan alone. */
  lemma PlacesOfWaiting(env: Env, cfg: Config, q: Queues, onFly: set<Id>, clock: nat, x: Group)
    requires Once(q) && x in q.waiting
    ensures var s := RunScans(env, cfg, q, onFly, clock);
      && Count(Ignored(s), x) == Count(Picked(s.wait.scanned, Rejected), x)
      && Count(GroupsOf(NewBatch(s)), x) == Count(Picked(s.wait.scanned, Prefill), x)
      && Count(Ignored(s), x) + Count(GroupsOf(NewBatch(s)), x) + Count(QueueAfter(s.wait), x) == 1
  {
    hide *;
    var s := RunScans(env, cfg, q, onFly, clock);
    OnceIn(q, x);
    ScansConserve(env, cfg, q, onFly, clock, x);
    RunChoice(env, cfg, q, onFly, clock, x);
    BatchContent(s, x);
    IgnoredCount(s, x);
  }

  lemma PlacesOfSwapped(env: Env, cfg: Config, q: Queues, onFly: set<Id>, clock: nat, x: Group)
    requires Once(q) && x in q.swapped
    ensures var s := RunScans(env, cfg, q, onFly, clock);
      && Count(Ignored(s), x) == Count(Picked(s.swap.scanned, Rejected), x)
      && Count(GroupsOf(NewBatch(s)), x)
         == Count(Picked(s.swap.scanned, Decode), x) + Count(Picked(s.swap.scanned, Prefill), x)
      && Count(Ignored(s), x) + Count(GroupsOf(NewBatch(s)), x) + Count(QueueAfter(s.swap), x) == 1
  {
    hide *;
    var s := RunScans(env, cfg, q, onFly, clock);
    OnceIn(q, x);
    ScansConserve(env, cfg, q, onFly, clock, x);
    RunChoice(env, cfg, q, onFly, clock, x);
    BatchContent(s, x);
    IgnoredCount(s, x);
  }

  lemma OnceIn(q: Queues, x: Group)
    requires Once(q)
    ensures x in q.waiting ==> Count(q.waiting, x) == 1 && Count(q.running, x) == Count(q.swapped, x) == 0
    ensures x in q.swapped ==> Count(q.swapped, x) == 1 && Count(q.running, x) == Count(q.waiting, x) == 0
  {
    TotalOnce(q, x);
    assert x in q.waiting ==> Count(q.waiting, x) >= 1;
    assert x in q.swapped ==> Count(q.swapped, x) >= 1;
  }

  lemma RunChoice(env: Env, cfg: Config, q: Queues, onFly: set<Id>, clock: nat, x: Group)
    ensures var s := RunScans(env, cfg, q, onFly, clock);
      Count(Picked(s.run.scanned, Decode), x) + Count(Picked(s.run.scanned, Prefill), x) <= Count(q.running, x)
  {
    hide Picked, RunScan, QueueScan, RunningAfter;
    RunScanConserves(env, cfg, q.running, Books(onFly, FreshBudget(cfg), {}, clock, 0, 0), x);
  }

  lemma IgnoredCount(s: Scans, x: Group)
    ensures Count(Ignored(s), x)
         == Count(Picked(s.wait.scanned, Rejected), x) + Count(Picked(s.swap.scanned, Rejected), x)
  {}

  /** Told by membership. */
  lemma OneOfThree(env: Env, s: Scans, kept: seq<Group>, x: Group)
    requires Count(Ignored(s), x) + Count(GroupsOf(NewBatch(s)), x) + Count(kept, x) == 1
    ensures x in NewOutput(env, s).ignored <==> Count(Ignored(s), x) == 1
    ensures x in GroupsOf(NewOutput(env, s).batch) <==> Count(GroupsOf(NewBatch(s)), x) == 1
    ensures x in kept <==> Count(kept, x) == 1
  {
    hide Ignored, NewBatch, GroupsOf, NewRunning;
  }

  /** A scanned group is in the list its verdict names. */
  lemma ScannedKind(which: Queue, env: Env, cfg: Config, q: seq<Group>, h: seq<Standing>, r: ScanResult, i: nat)
    requires Explains(which, env, cfg, q, h, r.scanned, r.rest) && i < |r.scanned|
    ensures i < |q| && i < |h| && Count(Picked(r.scanned, r.scanned[i].kind), q[i]) >= 1
    ensures !Ends(which, env, cfg, q[i], h[i]) && Judged(which, env, cfg, q[i], h[i], r.scanned[i])
  {
    assert Turned(which, env, cfg, q[i], h[i], r.scanned[i], h[i + 1]);
    PickedMember(r.scanned, i);
    hide Ends, Judged, Follows, Picked;
    assert r.scanned[i].group == q[i] by { JudgedGroup(which, env, cfg, q[i], h[i], r.scanned[i]); }
  }

  lemma JudgedGroup(which: Queue, env: Env, cfg: Config, g: Group, p: Standing, v: Verdict)
    requires Judged(which, env, cfg, g, p, v)
    ensures v.group == g
  {}

  lemma KeptCount(r: ScanResult, x: Group)
    ensures Count(QueueAfter(r), x) >= Count(Picked(r.scanned, Leftover), x) + Count(Picked(r.scanned, Reserved), x)
  {}

  /** What becomes of a group of the waiting queue that the scan has come to: it is reported ignored
      exactly if it is free, its partial prefill has a place, and its prompt exceeds the limit or
      memory will never do; it is in the batch exactly if nothing is in its way; and it stays
      exactly if it is on the fly, or its partial prefill or its adapter has no place. */
  lemma WaitingGoes(env: Env, cfg: Config, q: Queues, onFly: set<Id>, clock: nat, wait: seq<Standing>, i: nat)
    requires var s := RunScans(env, cfg, q, onFly, clock);
      Explains(Waiting, env, cfg, q.waiting, wait, s.wait.scanned, s.wait.rest) && i < |s.wait.scanned|
    requires Once(q)
    ensures i < |q.waiting| && i < |wait|
    ensures var s, g, p := RunScans(env, cfg, q, onFly, clock), q.waiting[i], wait[i];
      var free, placed := g.id !in p.onFly, env.partialPrefillOk(p.clock, g);
      var fits, memory := WithinPromptLimit(env, cfg, g, p), env.canAllocate(p.clock, g);
      && (g in NewOutput(env, s).ignored <==> free && placed && (!fits || memory == Never))
      && (g in GroupsOf(NewOutput(env, s).batch) <==>
            free && placed && fits && memory == Ok && !NoAdapterPlace(cfg, g, p))
      && (g in QueueAfter(s.wait) <==>
            !free || !placed || (fits && memory == Ok && NoAdapterPlace(cfg, g, p)))
  {
    hide *;
    var s := RunScans(env, cfg, q, onFly, clock);
    ScannedKind(Waiting, env, cfg, q.waiting, wait, s.wait, i);
    PlacesOfWaiting(env, cfg, q, onFly, clock, q.waiting[i]);
    KeptCount(s.wait, q.waiting[i]);
    OneOfThree(env, s, QueueAfter(s.wait), q.waiting[i]);
    WaitingKinds(env, cfg, q.waiting[i], wait[i], s.wait.scanned[i]);
  }

  lemma WaitingKinds(env: Env, cfg: Config, g: Group, p: Standing, v: Verdict)
    requires !Ends(Waiting, env, cfg, g, p) && Judged(Waiting, env, cfg, g, p, v)
    ensures var free, placed := g.id !in p.onFly, env.partialPrefillOk(p.clock, g);
      var fits, memory := WithinPromptLimit(env, cfg, g, p), env.canAllocate(p.clock, g);
      && (v.kind.Rejected? <==> free && placed && (!fits || memory == Never))
      && (v.kind.Prefill? <==> free && placed && fits && memory == Ok && !NoAdapterPlace(cfg, g, p))
      && (v.kind.Leftover? || v.kind.Reserved? <==>
            !free || !placed || (fits && memory == Ok && NoAdapterPlace(cfg, g, p)))
      && (v.kind.Rejected? || v.kind.Prefill? || v.kind.Leftover? || v.kind.Reserved?)
  {}

  /** The same for the swapped queue, where only memory that will never do rejects a group. */
  lemma SwappedGoes(env: Env, cfg: Config, q: Queues, onFly: set<Id>, clock: nat, swap: seq<Standing>, i: nat)
    requires var s := RunScans(env, cfg, q, onFly, clock);
      Explains(Swapped, env, cfg, q.swapped, swap, s.swap.scanned, s.swap.rest) && i < |s.swap.scanned|
    requires Once(q)
    ensures i < |q.swapped| && i < |swap|
    ensures var s, g, p := RunScans(env, cfg, q, onFly, clock), q.swapped[i], swap[i];
      var free, memory := g.id !in p.onFly, env.canSwapIn(p.clock, g);
      && (g in NewOutput(env, s).ignored <==> free && memory == Never)
      && (g in GroupsOf(NewOutput(env, s).batch) <==> free && memory == Ok && !NoAdapterPlace(cfg, g, p))
      && (g in QueueAfter(s.swap) <==> !free || (memory == Ok && NoAdapterPlace(cfg, g, p)))
  {
    hide *;
    var s := RunScans(env, cfg, q, onFly, clock);
    ScannedKind(Swapped, env, cfg, q.swapped, swap, s.swap, i);
    PlacesOfSwapped(env, cfg, q, onFly, clock, q.swapped[i]);
    KeptCount(s.swap, q.swapped[i]);
    OneOfThree(env, s, QueueAfter(s.swap), q.swapped[i]);
    SwappedKinds(env, cfg, q.swapped[i], swap[i], s.swap.scanned[i]);
  }

  lemma SwappedKinds(env: Env, cfg: Config, g: Group, p: Standing, v: Verdict)
    requires !Ends(Swapped, env, cfg, g, p) && Judged(Swapped, env, cfg, g, p, v)
    ensures var free, memory := g.id !in p.onFly, env.canSwapIn(p.clock, g);
      && (v.kind.Rejected? <==> free && memory == Never)
      && (v.kind.Prefill? || v.kind.Decode? <==> free && memory == Ok && !NoAdapterPlace(cfg, g, p))
      && (v.kind.Leftover? || v.kind.Reserved? <==> !free || (memory == Ok && NoAdapterPlace(cfg, g, p)))
      && (v.kind.Rejected? || v.kind.Prefill? || v.kind.Decode? || v.kind.Leftover? || v.kind.Reserved?)
  {}

  /** After a preemption the swapped queue is left as it was: no group of it is swapped in. */
  lemma NoSwapInAfterPreemption(env: Env, cfg: Config, q: Queues, onFly: set<Id>, clock: nat)
    requires Once(q) && Preempts(RunScans(env, cfg, q, onFly, clock))
    ensures var s := RunScans(env, cfg, q, onFly, clock);
      && QueueAfter(s.swap) == q.swapped
      && forall g | g in q.swapped :: g !in GroupsOf(NewOutput(env, s).batch) && g !in Ignored(s)
  {
    var s := RunScans(env, cfg, q, onFly, clock);
    PreemptsWhen(s);
    NothingScanned(q.swapped, s.run.books.NewScan());
    hide Preempts, Picked, QueueScan, RunScan, QueueAfter, NewBatch, Ignored, GroupsOf, Once;
    assert s.swap == Unscanned(q.swapped, s.run.books.NewScan());
    forall g | g in q.swapped ensures g !in GroupsOf(NewOutput(env, s).batch) && g !in Ignored(s) {
      PlacesOfSwapped(env, cfg, q, onFly, clock, g);
      OneOfThree(env, s, q.swapped, g);
    }
  }

  /** With the token budget spent, the waiting queue is left as it was. */
  lemma NoPrefillWithoutBudget(env: Env, cfg: Config, q: Queues, onFly: set<Id>, clock: nat)
    requires Once(q) && RunScans(env, cfg, q, onFly, clock).swap.books.budget.Remaining() == 0
    ensures var s := RunScans(env, cfg, q, onFly, clock);
      && QueueAfter(s.wait) == q.waiting
      && forall g | g in q.waiting :: g !in GroupsOf(NewOutput(env, s).batch) && g !in Ignored(s)
  {
    var s := RunScans(env, cfg, q, onFly, clock);
    NothingScanned(q.waiting, s.swap.books.NewScan());
    hide Picked, QueueScan, RunScan, QueueAfter, NewBatch, Ignored, GroupsOf, Once;
    assert s.wait == Unscanned(q.waiting, s.swap.books.NewScan());
    forall g | g in q.waiting ensures g !in GroupsOf(NewOutput(env, s).batch) && g !in Ignored(s) {
      PlacesOfWaiting(env, cfg, q, onFly, clock, g);
      OneOfThree(env, s, q.waiting, g);
    }
  }

  lemma UnscannedStays(r: ScanResult, x: Group)
    requires r.scanned == [] && x in r.rest
    ensures x in QueueAfter(r)
  {}

  lemma EndsInFront(which: Queue, env: Env, cfg: Config, q: seq<Group>, h: seq<Standing>, r: ScanResult)
    requires Explains(which, env, cfg, q, h, r.scanned, r.rest) && q != []
    ensures |h| > 0
    ensures r.scanned == [] ==> r.rest == q && Ends(which, env, cfg, q[0], h[0])
    ensures r.scanned != [] ==> !Ends(which, env, cfg, q[0], h[0])
  {
    hide Ends, Judged, Follows;
    if r.scanned != [] {
      assert Turned(which, env, cfg, q[0], h[0], r.scanned[0], h[0 + 1]);
    }
  }

  /** When the first group of the swapped queue is swapped in: exactly if the step has preempted
      nothing, and it is free, memory and adapters have room for it, and it fits the budget. */
  lemma FirstSwappedIn(env: Env, cfg: Config, q: Queues, onFly: set<Id>, clock: nat, run: seq<Turn>,
                       swap: seq<Standing>, wait: seq<Standing>)
    requires Once(q) && q.swapped != []
    requires StepExplains(env, cfg, q, Standing(onFly, {}, clock, 0, 0, 0, 0), RunScans(env, cfg, q, onFly, clock),
                          run, swap, wait)
    ensures var s, g, p := RunScans(env, cfg, q, onFly, clock), q.swapped[0], swap[0];
      g in GroupsOf(NewOutput(env, s).batch)
      <==> && !Preempts(s) && g.id !in p.onFly && env.canSwapIn(p.clock, g) == Ok
           && !NoAdapterPlace(cfg, g, p) && !OverBudget(env, cfg, g, p)
  {
    var s, g := RunScans(env, cfg, q, onFly, clock), q.swapped[0];
    if Preempts(s) {
      hide *;
      NoSwapInAfterPreemption(env, cfg, q, onFly, clock);
    } else {
      assert Explains(Swapped, env, cfg, q.swapped, swap, s.swap.scanned, s.swap.rest);
      hide *;
      EndsInFront(Swapped, env, cfg, q.swapped, swap, s.swap);
      EndsSwapped(env, cfg, g, swap[0]);
      if s.swap.scanned == [] {
        UnscannedStays(s.swap, g);
        PlacesOfSwapped(env, cfg, q, onFly, clock, g);
        OneOfThree(env, s, QueueAfter(s.swap), g);
      } else {
        SwappedGoes(env, cfg, q, onFly, clock, swap, 0);
      }
    }
  }

  lemma EndsSwapped(env: Env, cfg: Config, g: Group, p: Standing)
    ensures Ends(Swapped, env, cfg, g, p)
       <==> g.id !in p.onFly && (|| env.canSwapIn(p.clock, g) == Later
                                 || (&& env.canSwapIn(p.clock, g) == Ok && !NoAdapterPlace(cfg, g, p)
                                     && OverBudget(env, cfg, g, p)))
  {}

  lemma EndsWaiting(env: Env, cfg: Config, g: Group, p: Standing)
    requires p.count == p.tokens == 0
    ensures var memory := env.canAllocate(p.clock, g);
      Ends(Waiting, env, cfg, g, p)
      <==> || !env.passedDelay(p.clock) || cfg.scheduleLimit <= 0 || (cfg.chunking && cfg.maxNumBatchedTokens == 0)
           || (&& g.id !in p.onFly && env.partialPrefillOk(p.clock, g) && WithinPromptLimit(env, cfg, g, p)
               && (|| memory == Later
                   || (&& memory == Ok && !NoAdapterPlace(cfg, g, p)
                       && (OverBudget(env, cfg, g, p) || p.batched >= cfg.maxNumBatchedTokens))))
  {}

  /** When the first group of the waiting queue is scheduled: exactly if token budget is left, the
      delay has passed and no limit is zero, and it is free and admissible, memory and adapters
      have room for it, and it fits the budget. */
  lemma FirstWaitingIn(env: Env, cfg: Config, q: Queues, onFly: set<Id>, clock: nat, run: seq<Turn>,
                       swap: seq<Standing>, wait: seq<Standing>)
    requires Once(q) && q.waiting != []
    requires StepExplains(env, cfg, q, Standing(onFly, {}, clock, 0, 0, 0, 0), RunScans(env, cfg, q, onFly, clock),
                          run, swap, wait)
    ensures var s, g, p := RunScans(env, cfg, q, onFly, clock), q.waiting[0], wait[0];
      g in GroupsOf(NewOutput(env, s).batch)
      <==> && p.batched < cfg.maxNumBatchedTokens && env.passedDelay(p.clock) && cfg.scheduleLimit > 0
           && (cfg.chunking ==> cfg.maxNumBatchedTokens > 0)
           && g.id !in p.onFly && env.partialPrefillOk(p.clock, g) && WithinPromptLimit(env, cfg, g, p)
           && env.canAllocate(p.clock, g) == Ok && !NoAdapterPlace(cfg, g, p) && !OverBudget(env, cfg, g, p)
  {
    var s, g, p := RunScans(env, cfg, q, onFly, clock), q.waiting[0], wait[0];
    assert p.count == p.tokens == 0;
    if p.batched == cfg.maxNumBatchedTokens {
      assert s.wait.scanned == [] && s.wait.rest == q.waiting;
      hide *;
      UnscannedStays(s.wait, g);
      PlacesOfWaiting(env, cfg, q, onFly, clock, g);
      OneOfThree(env, s, QueueAfter(s.wait), g);
    } else {
      assert Explains(Waiting, env, cfg, q.waiting, wait, s.wait.scanned, s.wait.rest);
      hide *;
      EndsInFront(Waiting, env, cfg, q.waiting, wait, s.wait);
      EndsWaiting(env, cfg, g, p);
      if s.wait.scanned == [] {
        UnscannedStays(s.wait, g);
        PlacesOfWaiting(env, cfg, q, onFly, clock, g);
        OneOfThree(env, s, QueueAfter(s.wait), g);
      } else {
        WaitingGoes(env, cfg, q, onFly, clock, wait, 0);
      }
    }
  }

  // -------------------------------------------------------------------- orders

  lemma {:induction false} FinishingOrder(env: Env, b: seq<Scheduled>, yes: bool)
    ensures var f := Finishing(env, b, yes);
      && Subsequence(f, b) && (forall x | x in f :: env.finishesPrompt(x.group, x.chunk) == yes)
      && (forall x | x in b && env.finishesPrompt(x.group, x.chunk) == yes :: x in f)
  {
    if b != [] {
      FinishingOrder(env, b[1..], yes);
      if env.finishesPrompt(b[0].group, b[0].chunk) == yes {
        assert Finishing(env, b, yes)[1..] == Finishing(env, b[1..], yes);
      } else {
        assert Finishing(env, b, yes) == Finishing(env, b[1..], yes);
      }
    }
  }

  /** What one scan puts in the batch keeps the order of its queue. */
  lemma ChosenKeepOrder(tr: seq<Verdict>, k: Kind, q: seq<Group>, more: seq<Group>)
    requires q == Groups(tr) + more
    ensures Subsequence(GroupsOf(Batch(tr, k)), q)
  {
    GroupsOfBatch(tr, k);
    PickedKeepsOrder(tr, k);
    SubsequencePrefix(Picked(tr, k), Groups(tr), more);
  }

  /** The parts a step hands out: prefills of the three queues, then the decodes of two. */
  datatype Parts = Parts(fromWaiting: seq<Scheduled>, fromRunning: seq<Scheduled>, fromSwapped: seq<Scheduled>,
                         decodes: seq<Scheduled>, swappedDecodes: seq<Scheduled>)

  /** Every part keeps the order of its queue and holds prefills or decodes only. */
  ghost predicate InOrder(q: Queues, p: Parts) {
    && Subsequence(GroupsOf(p.fromWaiting), q.waiting)
    && Subsequence(GroupsOf(p.fromRunning), q.running) && Limits.AllPrefill(p.fromRunning, true)
    && Subsequence(GroupsOf(p.decodes), q.running) && Limits.AllPrefill(p.decodes, false)
    && Subsequence(GroupsOf(p.fromSwapped), q.swapped) && Limits.AllPrefill(p.fromSwapped, true)
    && Subsequence(GroupsOf(p.swappedDecodes), q.swapped) && Limits.AllPrefill(p.swappedDecodes, false)
  }

  /** The prefills that finish their prompt with this step's chunk come before the others. */
  ghost predicate FinishersFirst(env: Env, prefills: seq<Scheduled>, first: seq<Scheduled>, later: seq<Scheduled>) {
    && Subsequence(first, prefills) && Subsequence(later, prefills)
    && forall x | x in prefills :: if env.finishesPrompt(x.group, x.chunk) then x in first && x !in later
                                   else x in later && x !in first
  }

  /** The batch puts prefills first, those of new requests in front. The new running queue keeps
      what was not scheduled in front, in its order; then come the groups swapped in, the running
      decodes, the running prefills, finishing ones first, and last the new requests. */
  lemma MergedOrder(env: Env, cfg: Config, q: Queues, onFly: set<Id>, clock: nat)
    returns (p: Parts, kept: seq<Group>, first: seq<Scheduled>, later: seq<Scheduled>)
    ensures InOrder(q, p) && Subsequence(kept, q.running) && FinishersFirst(env, p.fromRunning, first, later)
    ensures var s := RunScans(env, cfg, q, onFly, clock);
      && NewOutput(env, s).batch == p.fromWaiting + p.fromRunning + p.fromSwapped + p.decodes + p.swappedDecodes
      && NewQueues(env, s).running
         == kept + GroupsOf(p.swappedDecodes) + GroupsOf(p.fromSwapped) + GroupsOf(p.decodes)
            + (GroupsOf(first) + GroupsOf(later)) + GroupsOf(p.fromWaiting)
  {
    var s := RunScans(env, cfg, q, onFly, clock);
    var b := Books(onFly, FreshBudget(cfg), {}, clock, 0, 0);
    p := Parts(Batch(s.wait.scanned, Prefill), Batch(s.run.scanned, Prefill), Batch(s.swap.scanned, Prefill),
               Batch(s.run.scanned, Decode), Batch(s.swap.scanned, Decode));
    kept := RunningAfter(s.run);
    first, later := Finishing(env, p.fromRunning, true), Finishing(env, p.fromRunning, false);
    FinishingOrder(env, p.fromRunning, true);
    FinishingOrder(env, p.fromRunning, false);
    RunningKeepsOrder(env, cfg, q.running, b);
    ScanOrders(env, cfg, q, onFly, clock);
    Limits.FiledBatch(s.run.scanned);
    Limits.FiledBatch(s.swap.scanned);
    hide RunScan, QueueScan, Batch, Finishing, RunningAfter, Subsequence, Limits.AllPrefill, Limits.Filed;
  }

  /** What a scan of `q` chooses of either kind, if it took the front of the queue. */
  ghost predicate ScanInOrder(q: seq<Group>, tr: seq<Verdict>) {
    && Subsequence(GroupsOf(Batch(tr, Prefill)), q) && Subsequence(GroupsOf(Batch(tr, Decode)), q)
  }

  lemma ScanOrder(q: seq<Group>, tr: seq<Verdict>, more: seq<Group>)
    requires q == Groups(tr) + more
    ensures ScanInOrder(q, tr)
  {
    ChosenKeepOrder(tr, Prefill, q, more);
    ChosenKeepOrder(tr, Decode, q, more);
  }

  lemma RunOrder(env: Env, cfg: Config, q: seq<Group>, b: Books)
    ensures var tr := RunScan(env, cfg, q, b).scanned; ScanInOrder(q, tr) && Limits.Filed(tr)
  {
    RunScanShape(env, cfg, q, b);
    Limits.RunScanFiles(env, cfg, q, b);
    var r := RunScan(env, cfg, q, b);
    hide ScanInOrder, RunScan, Limits.Filed;
    Assoc(Groups(r.scanned), r.rest, Reverse(Groups(r.victims)));
    ScanOrder(q, r.scanned, r.rest + Reverse(Groups(r.victims)));
  }

  lemma QueueOrder(which: Queue, env: Env, cfg: Config, q: seq<Group>, b: Books)
    ensures ScanInOrder(q, QueueScan(which, env, cfg, q, b).scanned) && ScanInOrder(q, [])
    ensures which == Swapped ==> Limits.Filed(QueueScan(which, env, cfg, q, b).scanned)
  {
    QueueScanShape(which, env, cfg, q, b);
    if which == Swapped {
      Limits.QueueScanFiles(which, env, cfg, q, b);
    }
    var r := QueueScan(which, env, cfg, q, b);
    hide ScanInOrder, QueueScan, Limits.Filed;
    ScanOrder(q, r.scanned, r.rest);
    ScanOrder(q, [], q);
  }

  lemma ScanOrders(env: Env, cfg: Config, q: Queues, onFly: set<Id>, clock: nat)
    ensures var s := RunScans(env, cfg, q, onFly, clock);
      && ScanInOrder(q.running, s.run.scanned) && ScanInOrder(q.swapped, s.swap.scanned)
      && ScanInOrder(q.waiting, s.wait.scanned) && Limits.Filed(s.run.scanned) && Limits.Filed(s.swap.scanned)
  {
    var s := RunScans(env, cfg, q, onFly, clock);
    RunOrder(env, cfg, q.running, Books(onFly, FreshBudget(cfg), {}, clock, 0, 0));
    QueueOrder(Swapped, env, cfg, q.swapped, s.run.books.NewScan());
    QueueOrder(Waiting, env, cfg, q.waiting, s.swap.books.NewScan());
    hide ScanInOrder, RunScan, QueueScan, Picked;
  }

  lemma {:induction false} VictimsByKind(tr: seq<Verdict>)
    requires EvictKinds(tr)
    ensures |tr| == |Picked(tr, Preempted)| + |Picked(tr, SwappedOut)| + |Picked(tr, Finished)|
  {
    if tr != [] {
      VictimsByKind(tr[1..]);
    }
  }

  /** The step reports the size of the running queue it leaves, and as preempted every victim that
      did not turn out finished. */
  lemma ReportedCounts(env: Env, cfg: Config, q: Queues, onFly: set<Id>, clock: nat)
    ensures var s := RunScans(env, cfg, q, onFly, clock);
      && NewOutput(env, s).runningQueueSize == |NewQueues(env, s).running|
      && NewOutput(env, s).preempted == |s.run.victims| - |Picked(s.run.victims, Finished)|
  {
    var s := RunScans(env, cfg, q, onFly, clock);
    RunScanShape(env, cfg, q.running, Books(onFly, FreshBudget(cfg), {}, clock, 0, 0));
    VictimsByKind(s.run.victims);
  }
}
