/** Limits and accounting of one scheduling step: how many groups the running scan can put
    in a batch, when the two budget assertions hold, and what the reported numbers mean. */
module SchedulerBudget {
  import opened SchedulerSpec
  import opened SchedulerProofs

  // ------------------------------------------------------------------- limits

  function ChosenCount(tr: seq<Verdict>): (n: nat) {
    if tr == [] then 0 else (if IsChosen(tr[0]) then 1 else 0) + ChosenCount(tr[1..])
  }

  lemma ChosenCountCons(v: Verdict, tr: seq<Verdict>)
    ensures ChosenCount([v] + tr) == (if IsChosen(v) then 1 else 0) + ChosenCount(tr)
  {
    assert ([v] + tr)[1..] == tr;
  }

  /** In either mode the running scan schedules at most `scheduleLimit` groups, and a chunked
      scan stops as soon as the decode token limit is met. */
  lemma {:induction false} RunScanLimits(env: Env, cfg: Config, q: seq<Group>, b: Books)
    ensures var r := RunScan(env, cfg, q, b);
      && r.books.count == b.count + ChosenCount(r.scanned)
      && r.books.tokens == b.tokens + ChosenCount(r.scanned)
      && (ChosenCount(r.scanned) > 0 ==> r.books.count <= cfg.scheduleLimit)
      && (ChosenCount(r.scanned) > 0 && cfg.chunking ==> (r.books.tokens - 1) as real < cfg.decodeTokenLimit)
    decreases |q|
  {
    if q == [] { return; }
    var g := q[0];
    var j := JudgeRunning(env, cfg, g, q[1..], b);
    JudgeLimits(env, cfg, g, q[1..], b);
    hide JudgeRunning, MakeRoom;
    if j.Take? {
      RunScanLimits(env, cfg, j.tail, j.books);
      ChosenCountCons(j.verdict, RunScan(env, cfg, j.tail, j.books).scanned);
    }
  }

  /** A group is only chosen below both limits, and counted once. */
  lemma JudgeLimits(env: Env, cfg: Config, g: Group, tail: seq<Group>, b: Books)
    ensures var j := JudgeRunning(env, cfg, g, tail, b);
      && (j.GiveUp? ==> j.books.count == b.count && j.books.tokens == b.tokens)
      && (j.Take? ==>
            var one := if IsChosen(j.verdict) then 1 else 0;
            && j.books.count == b.count + one && j.books.tokens == b.tokens + one
            && b.count < cfg.scheduleLimit && (cfg.chunking ==> b.tokens as real < cfg.decodeTokenLimit))
  {
    MakeRoomMarksNothing(env, cfg, g, env.newTokens(b.clock, g, b.budget.Remaining()).uncached, tail, b.Tick());
    hide MakeRoom;
  }

  // --------------------------------------------------------------- accounting

  /** What the accounting needs of vLLM's token counting: with chunking it stays within the
      remaining budget, and a decode step computes one new token and no cached ones. */
  ghost predicate ChunkContract(env: Env) {
    forall c: nat, g: Group, rem: int :: var t := env.newTokens(c, g, rem);
      && (0 <= rem ==> t.uncached <= rem)
      && (!g.isPrefill ==> t.uncached <= 1 && t.cached == 0)
  }

  ghost predicate SingleSequence(q: seq<Group>) {
    forall i | 0 <= i < |q| :: q[i].numSeqs == 1
  }

  /** Only requests on the fly have been charged, within the token budget. */
  ghost predicate Sound(cfg: Config, b: Books) {
    && b.budget.tokenIds <= b.onFly && b.budget.seqIds <= b.onFly
    && 0 <= b.budget.batched <= b.budget.tokenBudget
    && b.budget.tokenBudget == cfg.maxNumBatchedTokens && b.budget.maxNumSeqs == cfg.maxNumSeqs
  }

  function ChunkSum(tr: seq<Verdict>): (n: nat) {
    if tr == [] then 0 else (if IsChosen(tr[0]) then tr[0].chunk else 0) + ChunkSum(tr[1..])
  }

  lemma ChunkSumCons(v: Verdict, tr: seq<Verdict>)
    ensures ChunkSum([v] + tr) == (if IsChosen(v) then v.chunk else 0) + ChunkSum(tr)
  {
    assert ([v] + tr)[1..] == tr;
  }

  function Total(b: Books): int { b.budget.batched + b.budget.cached }

  /** Releasing the charge of a group that is not on the fly releases nothing. */
  lemma {:induction false} MakeRoomCharges(env: Env, cfg: Config, g: Group, n: nat, tail: seq<Group>, b: Books)
    requires Sound(cfg, b) && g.id !in b.onFly
    ensures MakeRoom(env, cfg, g, n, tail, b).books.budget == b.budget
    decreases |tail|
  {
    if !env.canAppend(b.clock, g) && tail != [] {
      MakeRoomCharges(env, cfg, g, n, tail[..|tail| - 1], b.Release(g, n).Tick());
    }
  }

  lemma JudgeRunningCharges(env: Env, cfg: Config, g: Group, tail: seq<Group>, b: Books)
    requires cfg.chunking && ChunkContract(env) && Sound(cfg, b) && g.numSeqs == 1
    ensures var j := JudgeRunning(env, cfg, g, tail, b);
      && (j.Take? ==>
          && Sound(cfg, j.books)
          && Total(j.books) == Total(b) + (if IsChosen(j.verdict) then j.verdict.chunk else 0)
          && j.books.budget.seqs == b.budget.seqs + (if IsChosen(j.verdict) then 1 else 0)
          && j.books.budget.batched >= b.budget.batched + (if IsChosen(j.verdict) then 1 else 0))
      && (j.GiveUp? ==> Sound(cfg, j.books) && j.books.budget == b.budget)
  {
    if g.id !in b.onFly {
      var n := env.newTokens(b.clock, g, b.budget.Remaining()).uncached;
      MakeRoomMarksNothing(env, cfg, g, n, tail, b.Tick());
      MakeRoomCharges(env, cfg, g, n, tail, b.Tick());
    }
  }

  lemma {:induction false} RunScanCharges(env: Env, cfg: Config, q: seq<Group>, b: Books)
    requires cfg.chunking && ChunkContract(env) && Sound(cfg, b) && SingleSequence(q)
    ensures var r := RunScan(env, cfg, q, b);
      && Sound(cfg, r.books)
      && Total(r.books) == Total(b) + ChunkSum(r.scanned)
      && r.books.budget.seqs == b.budget.seqs + ChosenCount(r.scanned)
      && r.books.budget.batched >= b.budget.batched + ChosenCount(r.scanned)
    decreases |q|
  {
    if q == [] { return; }
    JudgeRunningCharges(env, cfg, q[0], q[1..], b);
    var j := JudgeRunning(env, cfg, q[0], q[1..], b);
    if j.Take? {
      JudgeRunningShape(env, cfg, q[0], q[1..], b);
      forall i | 0 <= i < |j.tail| ensures j.tail[i].numSeqs == 1 {
        assert q[1..][i] == j.tail[i];
      }
      RunScanCharges(env, cfg, j.tail, j.books);
      var r := RunScan(env, cfg, j.tail, j.books);
      ChosenCountCons(j.verdict, r.scanned);
      ChunkSumCons(j.verdict, r.scanned);
    }
  }

  /** The other two scans ask before they charge, so they never break a budget that held,
      nor mend one that did not. */
  lemma {:induction false} QueueScanCharges(which: Queue, env: Env, cfg: Config, q: seq<Group>, b: Books)
    requires ChunkContract(env) && Sound(cfg, b)
    ensures var r := QueueScan(which, env, cfg, q, b);
      && Sound(cfg, r.books)
      && b.budget.seqs <= r.books.budget.seqs
      && (b.budget.seqs <= cfg.maxNumSeqs ==> r.books.budget.seqs <= cfg.maxNumSeqs)
    decreases |q|
  {
    if q == [] { return; }
    var j := Judge(which, env, cfg, q[0], b);
    if j.Go? {
      QueueScanCharges(which, env, cfg, q[1..], j.books);
    }
  }

  lemma {:induction false} QueueScanTotals(which: Queue, env: Env, cfg: Config, q: seq<Group>, b: Books)
    requires ChunkContract(env) && Sound(cfg, b)
    ensures var r := QueueScan(which, env, cfg, q, b); Total(r.books) == Total(b) + ChunkSum(r.scanned)
    decreases |q|
  {
    if q == [] { return; }
    var j := Judge(which, env, cfg, q[0], b);
    JudgeTotals(which, env, cfg, q[0], b);
    hide Judge, Sound, ChunkContract, Total;
    if j.Go? {
      QueueScanTotals(which, env, cfg, q[1..], j.books);
      ChunkSumCons(Verdict(q[0], j.kind, j.chunk), QueueScan(which, env, cfg, q[1..], j.books).scanned);
    }
  }

  lemma JudgeTotals(which: Queue, env: Env, cfg: Config, g: Group, b: Books)
    requires ChunkContract(env) && Sound(cfg, b)
    ensures var j := Judge(which, env, cfg, g, b); j.Go? ==>
      && Sound(cfg, j.books)
      && Total(j.books) == Total(b) + if IsChosen(Verdict(g, j.kind, j.chunk)) then j.chunk else 0
  {
    match which
    case Swapped => assert Judge(which, env, cfg, g, b) == JudgeSwapped(env, cfg, g, b);
    case Waiting => assert Judge(which, env, cfg, g, b) == JudgeWaiting(env, cfg, g, b);
  }

  function BatchTokens(b: seq<Scheduled>): (n: nat) {
    if b == [] then 0 else b[0].chunk + BatchTokens(b[1..])
  }

  lemma {:induction false} BatchTokensAppend(a: seq<Scheduled>, b: seq<Scheduled>)
    ensures BatchTokens(a + b) == BatchTokens(a) + BatchTokens(b)
  {
    if a == [] {
      assert a + b == b;
    } else {
      BatchTokensAppend(a[1..], b);
      assert (a + b)[1..] == a[1..] + b;
    }
  }

  lemma {:induction false} ChunkSumByKind(tr: seq<Verdict>)
    ensures ChunkSum(tr) == BatchTokens(Batch(tr, Decode)) + BatchTokens(Batch(tr, Prefill))
  {
    if tr != [] {
      ChunkSumByKind(tr[1..]);
      var one := [Scheduled(tr[0].group, tr[0].chunk)];
      BatchTokensAppend(one, Batch(tr[1..], Decode));
      BatchTokensAppend(one, Batch(tr[1..], Prefill));
      if tr[0].kind != Decode { assert Batch(tr, Decode) == Batch(tr[1..], Decode); }
      if tr[0].kind != Prefill { assert Batch(tr, Prefill) == Batch(tr[1..], Prefill); }
    }
  }

  /** A group chosen by the running scan is in the batch. */
  lemma ChosenInBatch(s: Scans)
    ensures |NewBatch(s)| >= ChosenCount(s.run.scanned)
  {
    ChosenByKind(s.run.scanned);
  }

  lemma {:induction false} ChosenByKind(tr: seq<Verdict>)
    ensures ChosenCount(tr) == |Batch(tr, Decode)| + |Batch(tr, Prefill)|
  {
    if tr != [] {
      ChosenByKind(tr[1..]);
    }
  }

  lemma StepSound(env: Env, cfg: Config, q: Queues, onFly: set<Id>, clock: nat)
    requires cfg.chunking && ChunkContract(env) && SingleSequence(q.running)
    ensures var s := RunScans(env, cfg, q, onFly, clock);
      && Sound(cfg, s.wait.books)
      && s.run.books.budget.seqs == ChosenCount(s.run.scanned) <= cfg.maxNumBatchedTokens
      && Total(s.wait.books) == ChunkSum(s.run.scanned) + ChunkSum(s.swap.scanned) + ChunkSum(s.wait.scanned)
      && (s.wait.books.budget.seqs <= cfg.maxNumSeqs <==> ChosenCount(s.run.scanned) <= cfg.maxNumSeqs)
  {
    var s := RunScans(env, cfg, q, onFly, clock);
    RunScanCharges(env, cfg, q.running, Books(onFly, FreshBudget(cfg), {}, clock, 0, 0));
    QueueScanCharges(Swapped, env, cfg, q.swapped, s.run.books.NewScan());
    QueueScanTotals(Swapped, env, cfg, q.swapped, s.run.books.NewScan());
    QueueScanCharges(Waiting, env, cfg, q.waiting, s.swap.books.NewScan());
    QueueScanTotals(Waiting, env, cfg, q.waiting, s.swap.books.NewScan());
  }

  /** The number of batched tokens reported is the sum of the chunk sizes in the batch. */
  lemma ReportedTokens(env: Env, cfg: Config, q: Queues, onFly: set<Id>, clock: nat)
    requires cfg.chunking && ChunkContract(env) && SingleSequence(q.running)
    ensures var s := RunScans(env, cfg, q, onFly, clock);
      NewOutput(env, s).numBatchedTokens == BatchTokens(NewOutput(env, s).batch)
  {
    var s := RunScans(env, cfg, q, onFly, clock);
    StepSound(env, cfg, q, onFly, clock);
    ScansConserve(env, cfg, q, onFly, clock, Group("", false, 0, 0, 0));
    GroupsOfBatch(s.wait.scanned, Decode);
    assert Batch(s.wait.scanned, Decode) == [];
    ChunkSumByKind(s.run.scanned);
    ChunkSumByKind(s.swap.scanned);
    ChunkSumByKind(s.wait.scanned);
    var a, b := Batch(s.wait.scanned, Prefill), Batch(s.run.scanned, Prefill);
    var c, d := Batch(s.swap.scanned, Prefill), Batch(s.run.scanned, Decode);
    BatchTokensAppend(a, b);
    BatchTokensAppend(a + b, c);
    BatchTokensAppend(a + b + c, d);
    BatchTokensAppend(a + b + c + d, Batch(s.swap.scanned, Decode));
  }

  // ------------------------------------------------------ prefills come first

  ghost predicate AllPrefill(b: seq<Scheduled>, yes: bool) {
    forall i | 0 <= i < |b| :: b[i].group.isPrefill == yes
  }

  /** A scan files a group under Prefill or Decode as the group itself says. */
  ghost predicate Filed(tr: seq<Verdict>) {
    forall i | 0 <= i < |tr| ::
      && (tr[i].kind.Prefill? ==> tr[i].group.isPrefill)
      && (tr[i].kind.Decode? ==> !tr[i].group.isPrefill)
  }

  lemma FiledCons(v: Verdict, tr: seq<Verdict>)
    requires Filed([v]) && Filed(tr)
    ensures Filed([v] + tr)
  {
    assert [v][0] == v;
  }

  lemma {:induction false} FiledBatch(tr: seq<Verdict>)
    requires Filed(tr)
    ensures AllPrefill(Batch(tr, Prefill), true) && AllPrefill(Batch(tr, Decode), false)
  {
    if tr != [] {
      FiledBatch(tr[1..]);
      var one := [Scheduled(tr[0].group, tr[0].chunk)];
      if tr[0].kind.Prefill? { assert Batch(tr, Prefill) == one + Batch(tr[1..], Prefill); }
      if tr[0].kind.Decode? { assert Batch(tr, Decode) == one + Batch(tr[1..], Decode); }
    }
  }

  lemma {:induction false} RunScanFiles(env: Env, cfg: Config, q: seq<Group>, b: Books)
    ensures Filed(RunScan(env, cfg, q, b).scanned)
    decreases |q|
  {
    if q == [] { return; }
    var j := JudgeRunning(env, cfg, q[0], q[1..], b);
    if j.Take? {
      RunScanFiles(env, cfg, j.tail, j.books);
      FiledCons(j.verdict, RunScan(env, cfg, j.tail, j.books).scanned);
    }
  }

  lemma {:induction false} QueueScanFiles(which: Queue, env: Env, cfg: Config, q: seq<Group>, b: Books)
    requires which == Waiting ==> forall i | 0 <= i < |q| :: q[i].isPrefill
    ensures Filed(QueueScan(which, env, cfg, q, b).scanned)
    decreases |q|
  {
    if q == [] { return; }
    var j := Judge(which, env, cfg, q[0], b);
    if j.Go? {
      QueueScanFiles(which, env, cfg, q[1..], j.books);
      FiledCons(Verdict(q[0], j.kind, j.chunk), QueueScan(which, env, cfg, q[1..], j.books).scanned);
    }
  }

  /** The first `numPrefillGroups` entries of the batch are its prefills, the others its decodes. */
  lemma PrefillsFirst(env: Env, cfg: Config, q: Queues, onFly: set<Id>, clock: nat)
    requires forall i | 0 <= i < |q.waiting| :: q.waiting[i].isPrefill
    ensures var o := NewOutput(env, RunScans(env, cfg, q, onFly, clock));
      && o.numPrefillGroups <= |o.batch|
      && AllPrefill(o.batch[..o.numPrefillGroups], true) && AllPrefill(o.batch[o.numPrefillGroups..], false)
  {
    var s := RunScans(env, cfg, q, onFly, clock);
    RunScanFiles(env, cfg, q.running, Books(onFly, FreshBudget(cfg), {}, clock, 0, 0));
    QueueScanFiles(Swapped, env, cfg, q.swapped, s.run.books.NewScan());
    QueueScanFiles(Waiting, env, cfg, q.waiting, s.swap.books.NewScan());
    FiledBatch(s.run.scanned);
    FiledBatch(s.swap.scanned);
    FiledBatch(s.wait.scanned);
    hide RunScans, Batch, Filed, NewRunning;
    var pre := Batch(s.wait.scanned, Prefill) + Batch(s.run.scanned, Prefill) + Batch(s.swap.scanned, Prefill);
    var dec := Batch(s.run.scanned, Decode) + Batch(s.swap.scanned, Decode);
    assert NewBatch(s) == pre + dec;
    assert AllPrefill(pre, true) && AllPrefill(dec, false);
    assert NewBatch(s)[..|pre|] == pre && NewBatch(s)[|pre|..] == dec;
  }

  // ------------------------------------------------- when the assertions hold

  /** Running groups that the scan may put in the batch. */
  function Eligible(cfg: Config, q: seq<Group>, onFly: set<Id>): (n: nat) {
    if q == [] then 0
    else (if q[0].id !in onFly && !TooLong(cfg, q[0]) then 1 else 0) + Eligible(cfg, q[1..], onFly)
  }

  function Min(a: int, b: int): int { if a <= b then a else b }

  function Ceil(x: real): int { if x == x.Floor as real then x.Floor else x.Floor + 1 }

  /** The most groups the running scan can schedule before some limit stops it. */
  function Room(cfg: Config, b: Books): int {
    Min(cfg.scheduleLimit - b.count, Min(Ceil(cfg.decodeTokenLimit) - b.tokens, b.budget.Remaining()))
  }

  function MostChosen(cfg: Config, running: seq<Group>, onFly: set<Id>): int {
    Min(Room(cfg, Books(onFly, FreshBudget(cfg), {}, 0, 0, 0)), Eligible(cfg, running, onFly))
  }

  lemma {:induction false} EligiblePrefix(cfg: Config, a: seq<Group>, b: seq<Group>, onFly: set<Id>)
    ensures Eligible(cfg, a, onFly) <= Eligible(cfg, a + b, onFly)
  {
    if a != [] {
      EligiblePrefix(cfg, a[1..], b, onFly);
      assert (a + b)[1..] == a[1..] + b;
    }
  }

  lemma {:induction false} EligibleShrinks(cfg: Config, q: seq<Group>, onFly: set<Id>, more: set<Id>)
    requires onFly <= more
    ensures Eligible(cfg, q, more) <= Eligible(cfg, q, onFly)
  {
    if q != [] {
      EligibleShrinks(cfg, q[1..], onFly, more);
    }
  }

  lemma {:induction false} ChosenAtMostEligible(env: Env, cfg: Config, q: seq<Group>, b: Books)
    ensures ChosenCount(RunScan(env, cfg, q, b).scanned) <= Eligible(cfg, q, b.onFly)
    decreases |q|
  {
    if q == [] { return; }
    JudgeRunningShape(env, cfg, q[0], q[1..], b);
    JudgeRunningMarks(env, cfg, q[0], q[1..], b);
    var j := JudgeRunning(env, cfg, q[0], q[1..], b);
    if j.Take? {
      ChosenAtMostEligible(env, cfg, j.tail, j.books);
      ChosenCountCons(j.verdict, RunScan(env, cfg, j.tail, j.books).scanned);
      EligibleShrinks(cfg, j.tail, b.onFly, j.books.onFly);
      EligiblePrefix(cfg, j.tail, Reverse(Groups(j.victims)), b.onFly);
    }
  }

  /** An environment in which memory never runs out and every group gets one token. */
  function Generous(): Env {
    Env((c: nat, g: Group, rem: int) => Tokens(if rem > 0 then 1 else 0, 0),
        (c: nat, g: Group) => true, (c: nat, g: Group) => false, (c: nat, g: Group) => false,
        (c: nat, g: Group) => Ok, (c: nat, g: Group) => Ok, (c: nat, g: Group) => true,
        (c: nat, g: Group) => 1, (c: nat) => true, (g: Group, n: nat) => true)
  }

  lemma {:induction false} EligibleFrame(cfg: Config, q: seq<Group>, onFly: set<Id>, id: Id)
    requires forall i | 0 <= i < |q| :: q[i].id != id
    ensures Eligible(cfg, q, onFly + {id}) == Eligible(cfg, q, onFly)
  {
    if q != [] {
      EligibleFrame(cfg, q[1..], onFly, id);
    }
  }

  lemma {:induction false} GenerousChooses(cfg: Config, q: seq<Group>, b: Books)
    requires cfg.chunking && Sound(cfg, b) && DistinctIds(q)
    ensures ChosenCount(RunScan(Generous(), cfg, q, b).scanned) as int
         >= Min(Room(cfg, b), Eligible(cfg, q, b.onFly))
    decreases |q|
  {
    if q == [] { return; }
    var env, g := Generous(), q[0];
    var j := JudgeRunning(env, cfg, g, q[1..], b);
    GenerousJudge(cfg, g, q[1..], b);
    hide Generous, JudgeRunning, Room, Sound, TooLong;
    if j.Take? {
      GenerousChooses(cfg, j.tail, j.books);
      ChosenCountCons(j.verdict, RunScan(env, cfg, j.tail, j.books).scanned);
      if IsChosen(j.verdict) {
        EligibleFrame(cfg, q[1..], b.onFly, g.id);
      }
    }
  }

  /** The scan stops there only when a limit is reached; it chooses every eligible group, and
      each leaves room for one group less. */
  lemma GenerousJudge(cfg: Config, g: Group, tail: seq<Group>, b: Books)
    requires cfg.chunking && Sound(cfg, b)
    ensures var j := JudgeRunning(Generous(), cfg, g, tail, b);
      && !j.GiveUp? && (j.Halt? ==> Room(cfg, b) <= 0)
      && (j.Take? ==>
            && j.tail == tail && Sound(cfg, j.books)
            && (IsChosen(j.verdict) <==> g.id !in b.onFly && !TooLong(cfg, g))
            && (if IsChosen(j.verdict) then Room(cfg, j.books) >= Room(cfg, b) - 1 && j.books.onFly == b.onFly + {g.id}
                else Room(cfg, j.books) >= Room(cfg, b) && j.books.onFly == b.onFly))
  {}

  /** For single-sequence groups under the token contract, the assertions of a chunked step
      hold in every environment exactly when the running scan cannot choose more groups than
      `maxNumSeqs`: the scan never asks. A schedule limit within `maxNumSeqs` is enough; if
      the bound is exceeded, there is an environment in which the step fails. */
  lemma AssertionsHoldWhenRoom(env: Env, cfg: Config, q: Queues, onFly: set<Id>, clock: nat)
    requires cfg.chunking && ChunkContract(env) && SingleSequence(q.running)
    requires MostChosen(cfg, q.running, onFly) <= cfg.maxNumSeqs
    ensures BudgetHeld(cfg, RunScans(env, cfg, q, onFly, clock))
  {
    var b := Books(onFly, FreshBudget(cfg), {}, clock, 0, 0);
    StepSound(env, cfg, q, onFly, clock);
    ChosenAtMostEligible(env, cfg, q.running, b);
    RunScanLimits(env, cfg, q.running, b);
  }

  lemma AssertionsFailWithoutRoom(cfg: Config, q: Queues, onFly: set<Id>, clock: nat)
    requires cfg.chunking && SingleSequence(q.running) && DistinctIds(q.running)
    requires MostChosen(cfg, q.running, onFly) > cfg.maxNumSeqs
    ensures ChunkContract(Generous()) && !BudgetHeld(cfg, RunScans(Generous(), cfg, q, onFly, clock))
  {
    GenerousChooses(cfg, q.running, Books(onFly, FreshBudget(cfg), {}, clock, 0, 0));
    StepSound(Generous(), cfg, q, onFly, clock);
  }

  /** The premise a caller can check. */
  lemma LimitWithinSeqs(env: Env, cfg: Config, q: Queues, onFly: set<Id>, clock: nat)
    requires cfg.chunking && ChunkContract(env) && SingleSequence(q.running)
    requires cfg.scheduleLimit <= cfg.maxNumSeqs
    ensures BudgetHeld(cfg, RunScans(env, cfg, q, onFly, clock))
  {
    AssertionsHoldWhenRoom(env, cfg, q, onFly, clock);
  }
}
