/** What one scheduling step of the on-the-fly scheduler does, as functions on values.
    The class in Scheduler.dfy is proved equal to these functions; the properties the
    step is for are proved about them in SchedulerProofs.dfy.

    vLLM code that the scheduler calls into (block manager, token counting, preemption,
    output callback, clock) appears as `Env`: one function per question, indexed by the
    number of the question, so that the answers may change arbitrarily during a step. */
module SchedulerSpec {

  type Id = string

  /** A sequence group, as far as one scheduling step looks at it. */
  datatype Group = Group(id: Id, isPrefill: bool, length: nat, numSeqs: nat, lora: nat)

  datatype Config = Config(
    chunking: bool,
    scheduleLimit: int,
    decodeTokenLimit: real,
    maxNumBatchedTokens: nat,
    maxNumSeqs: nat,
    maxModelLen: nat,
    useAsyncOutputProc: bool,
    loraEnabled: bool,
    maxLoras: nat)

  datatype AllocStatus = Ok | Later | Never

  /** New tokens to compute for a group, and those already in the prefix cache. */
  datatype Tokens = Tokens(uncached: nat, cached: nat)

  datatype Env = Env(
    newTokens: (nat, Group, int) -> Tokens,
    canAppend: (nat, Group) -> bool,
    finishes: (nat, Group) -> bool,
    recompute: (nat, Group) -> bool,
    canSwapIn: (nat, Group) -> AllocStatus,
    canAllocate: (nat, Group) -> AllocStatus,
    partialPrefillOk: (nat, Group) -> bool,
    promptLimit: (nat, Group) -> nat,
    passedDelay: nat -> bool,
    finishesPrompt: (Group, nat) -> bool)

  /** vLLM's SchedulingBudget: every request is charged at most once. */
  datatype Budget = Budget(
    tokenBudget: nat, maxNumSeqs: nat,
    tokenIds: set<Id>, seqIds: set<Id>,
    batched: int, cached: int, seqs: int)
  {
    function Remaining(): int { tokenBudget - batched }

    predicate CanSchedule(newTokens: nat, newSeqs: nat) {
      batched + newTokens <= tokenBudget && seqs + newSeqs <= maxNumSeqs
    }

    function AddTokens(id: Id, n: nat, c: nat): Budget {
      if id in tokenIds then this
      else this.(tokenIds := tokenIds + {id}, batched := batched + n, cached := cached + c)
    }

    function SubtractTokens(id: Id, n: nat): Budget {
      if id in tokenIds then this.(tokenIds := tokenIds - {id}, batched := batched - n) else this
    }

    function AddSeqs(id: Id, n: nat): Budget {
      if id in seqIds then this else this.(seqIds := seqIds + {id}, seqs := seqs + n)
    }

    function SubtractSeqs(id: Id, n: nat): Budget {
      if id in seqIds then this.(seqIds := seqIds - {id}, seqs := seqs - n) else this
    }
  }

  function FreshBudget(cfg: Config): Budget {
    Budget(cfg.maxNumBatchedTokens, cfg.maxNumSeqs, {}, {}, 0, 0, 0)
  }

  /** The bookkeeping shared by the three scans of a step. `clock` numbers the questions
      put to the environment; `count` and `tokens` are per scan. */
  datatype Books = Books(
    onFly: set<Id>, budget: Budget, loras: set<nat>, clock: nat, count: nat, tokens: nat)
  {
    function Tick(): Books { this.(clock := clock + 1) }

    function NewScan(): Books { this.(count := 0, tokens := 0) }

    /** What a failed attempt to find room for `g` gives back. */
    function Release(g: Group, n: nat): Books {
      this.(budget := budget.SubtractTokens(g.id, n).SubtractSeqs(g.id, g.numSeqs),
            loras := if g.lora > 0 then loras - {g.lora} else loras)
    }
  }

  /** What a scan did with a group it took off its queue. */
  datatype Kind =
    | Reserved     // in another micro-batch: parked and put back
    | Leftover     // no room for its adapter or partial prefill: put back in front
    | Rejected     // reported ignored or infeasible
    | Stopped      // past the model length, handed to the async stop list
    | Decode | Prefill   // put in the batch
    | Preempted | SwappedOut | Finished   // evicted to make room

  datatype Verdict = Verdict(group: Group, kind: Kind, chunk: nat)

  datatype Scheduled = Scheduled(group: Group, chunk: nat)

  function Groups(tr: seq<Verdict>): (r: seq<Group>) {
    if tr == [] then [] else [tr[0].group] + Groups(tr[1..])
  }

  /** The groups of one kind, in the order in which the scan met them. */
  function Picked(tr: seq<Verdict>, k: Kind): (r: seq<Group>) {
    if tr == [] then []
    else (if tr[0].kind == k then [tr[0].group] else []) + Picked(tr[1..], k)
  }

  function Batch(tr: seq<Verdict>, k: Kind): (r: seq<Scheduled>) {
    if tr == [] then []
    else (if tr[0].kind == k then [Scheduled(tr[0].group, tr[0].chunk)] else []) + Batch(tr[1..], k)
  }

  function GroupsOf(b: seq<Scheduled>): (r: seq<Group>) {
    if b == [] then [] else [b[0].group] + GroupsOf(b[1..])
  }

  function Reverse<T>(s: seq<T>): (r: seq<T>) {
    if s == [] then [] else Reverse(s[1..]) + [s[0]]
  }

  // ---------------------------------------------------------------- running scan

  function EvictKind(env: Env, cfg: Config, clock: nat, v: Group): Kind {
    if cfg.useAsyncOutputProc && env.finishes(clock, v) then Finished
    else if env.recompute(clock, v) then Preempted
    else SwappedOut
  }

  datatype Room = Room(victims: seq<Verdict>, tail: seq<Group>, fits: bool, books: Books)
  {
    function After(victims0: seq<Verdict>): Room { this.(victims := victims0 + victims) }
  }

  /** Evicts groups from the tail, last one first, until `g` fits; when the tail is used
      up, `g` itself is the last victim. */
  function MakeRoom(env: Env, cfg: Config, g: Group, n: nat, tail: seq<Group>, b: Books): (r: Room)
    ensures |r.tail| <= |tail|
    decreases |tail|
  {
    if env.canAppend(b.clock, g) then Room([], tail, true, b.Tick())
    else if tail == [] then
      Room([Verdict(g, EvictKind(env, cfg, b.clock, g), 0)], [], false, b.Release(g, n).Tick())
    else
      var v := tail[|tail| - 1];
      var r := MakeRoom(env, cfg, g, n, tail[..|tail| - 1], b.Release(g, n).Tick());
      r.After([Verdict(v, EvictKind(env, cfg, b.clock, v), 0)])
  }

  predicate RunLimitReached(cfg: Config, b: Books) {
    (cfg.chunking && b.tokens as real >= cfg.decodeTokenLimit) || b.count >= cfg.scheduleLimit
  }

  predicate TooLong(cfg: Config, g: Group) {
    cfg.useAsyncOutputProc && g.length > cfg.maxModelLen
  }

  function RunVerdict(g: Group, n: nat): Verdict {
    if g.isPrefill then Verdict(g, Prefill, n) else Verdict(g, Decode, 1)
  }

  function ChooseRunning(cfg: Config, b: Books, g: Group, n: nat): Books {
    var b1 := b.budget.AddTokens(g.id, n, 0);
    b.(budget := if cfg.chunking then b1.AddSeqs(g.id, g.numSeqs) else b1,
       loras := if g.lora > 0 then b.loras + {g.lora} else b.loras,
       onFly := b.onFly + {g.id},
       count := b.count + 1, tokens := b.tokens + 1)
  }

  /** `scanned` were taken from the front, `victims` from the back (in eviction order, the
      current group last if it had to go too), `rest` stayed where it was. */
  datatype RunResult = RunResult(scanned: seq<Verdict>, rest: seq<Group>, victims: seq<Verdict>, books: Books)
  {
    function After(scanned0: seq<Verdict>, victims0: seq<Verdict>): RunResult {
      this.(scanned := scanned0 + scanned, victims := victims0 + victims)
    }
  }

  /** What happens to the group at the front: the scan halts before it, takes it (evicting
      `victims` from the tail if need be), or finds that nothing at all fits any more. */
  datatype RunJudgment =
    | Halt
    | Take(verdict: Verdict, victims: seq<Verdict>, tail: seq<Group>, books: Books)
    | GiveUp(victims: seq<Verdict>, books: Books)

  function JudgeRunning(env: Env, cfg: Config, g: Group, tail: seq<Group>, b: Books): (j: RunJudgment)
    ensures j.Take? ==> |j.tail| <= |tail|
  {
    if RunLimitReached(cfg, b) then Halt
    else if g.id in b.onFly then Take(Verdict(g, Reserved, 0), [], tail, b)
    else
      var n := env.newTokens(b.clock, g, b.budget.Remaining()).uncached;
      if n == 0 then Halt
      else if TooLong(cfg, g) then Take(Verdict(g, Stopped, 0), [], tail, b.Tick())
      else
        var room := MakeRoom(env, cfg, g, n, tail, b.Tick());
        if room.fits then
          Take(RunVerdict(g, n), room.victims, room.tail, ChooseRunning(cfg, room.books, g, n))
        else GiveUp(room.victims, room.books)
  }

  function RunScan(env: Env, cfg: Config, q: seq<Group>, b: Books): (r: RunResult)
    decreases |q|
  {
    if q == [] then RunResult([], [], [], b)
    else match JudgeRunning(env, cfg, q[0], q[1..], b)
      case Halt => RunResult([], q, [], b)
      case Take(v, victims, tail, b') => RunScan(env, cfg, tail, b').After([v], victims)
      case GiveUp(victims, b') => RunResult([], [], victims, b')
  }

  /** The running queue after the scan: parked groups back in front of the unscanned ones. */
  function RunningAfter(r: RunResult): seq<Group> { Picked(r.scanned, Reserved) + r.rest }

  // ------------------------------------------------- swapped and waiting scans

  datatype Queue = Swapped | Waiting

  datatype Judgment = Stop | Go(kind: Kind, chunk: nat, books: Books)

  predicate NoLoraSpace(cfg: Config, b: Books, g: Group) {
    cfg.loraEnabled && g.lora > 0 && g.lora !in b.loras && |b.loras| >= cfg.maxLoras
  }

  function ChooseNew(cfg: Config, b: Books, g: Group, t: Tokens): Books {
    b.(budget := b.budget.AddTokens(g.id, t.uncached, t.cached).AddSeqs(g.id, g.numSeqs),
       loras := if cfg.loraEnabled && g.lora > 0 then b.loras + {g.lora} else b.loras,
       onFly := b.onFly + {g.id},
       count := b.count + 1, tokens := b.tokens + t.uncached)
  }

  function JudgeSwapIn(env: Env, cfg: Config, g: Group, b: Books): Judgment {
    match env.canSwapIn(b.clock, g)
    case Later => Stop
    case Never => Go(Rejected, 0, b.Tick())
    case Ok =>
      if NoLoraSpace(cfg, b, g) then Go(Leftover, 0, b.Tick())
      else
        var t := env.newTokens(b.clock, g, b.budget.Remaining());
        if t.uncached == 0 || !b.budget.CanSchedule(t.uncached, g.numSeqs) then Stop
        else if g.isPrefill then Go(Prefill, t.uncached + t.cached, ChooseNew(cfg, b.Tick(), g, t))
        else Go(Decode, 1, ChooseNew(cfg, b.Tick(), g, t))
  }

  function JudgeSwapped(env: Env, cfg: Config, g: Group, b: Books): Judgment {
    if g.id in b.onFly then Go(Reserved, 0, b) else JudgeSwapIn(env, cfg, g, b)
  }

  predicate PrefillLimitReached(cfg: Config, b: Books) {
    (cfg.chunking && b.tokens >= cfg.maxNumBatchedTokens) || b.count >= cfg.scheduleLimit
  }

  /** A waiting group that no guard of the loop has set aside. */
  function JudgePrefill(env: Env, cfg: Config, g: Group, b: Books): Judgment {
    var t := env.newTokens(b.clock, g, b.budget.Remaining());
    if t.uncached + t.cached > env.promptLimit(b.clock, g) then Go(Rejected, 0, b.Tick())
    else match env.canAllocate(b.clock, g)
      case Later => Stop
      case Never => Go(Rejected, 0, b.Tick())
      case Ok =>
        if NoLoraSpace(cfg, b, g) then Go(Leftover, 0, b.Tick())
        else if b.budget.batched >= cfg.maxNumBatchedTokens then Stop
        else if t.uncached == 0 || !b.budget.CanSchedule(t.uncached, g.numSeqs) then Stop
        else Go(Prefill, t.uncached + t.cached, ChooseNew(cfg, b.Tick(), g, t))
  }

  function JudgeWaiting(env: Env, cfg: Config, g: Group, b: Books): Judgment {
    if !env.passedDelay(b.clock) || PrefillLimitReached(cfg, b) then Stop
    else if g.id in b.onFly then Go(Reserved, 0, b.Tick())
    else if !env.partialPrefillOk(b.clock, g) then Go(Leftover, 0, b.Tick())
    else JudgePrefill(env, cfg, g, b)
  }

  function Judge(which: Queue, env: Env, cfg: Config, g: Group, b: Books): Judgment {
    match which
    case Swapped => JudgeSwapped(env, cfg, g, b)
    case Waiting => JudgeWaiting(env, cfg, g, b)
  }

  datatype ScanResult = ScanResult(scanned: seq<Verdict>, rest: seq<Group>, books: Books)
  {
    function After(scanned0: seq<Verdict>): ScanResult { this.(scanned := scanned0 + scanned) }
  }

  function QueueScan(which: Queue, env: Env, cfg: Config, q: seq<Group>, b: Books): (r: ScanResult)
    decreases |q|
  {
    if q == [] then ScanResult([], [], b)
    else match Judge(which, env, cfg, q[0], b)
      case Stop => ScanResult([], q, b)
      case Go(kind, chunk, b') => QueueScan(which, env, cfg, q[1..], b').After([Verdict(q[0], kind, chunk)])
  }

  /** Leftovers, then parked groups, then what was not looked at. */
  function QueueAfter(r: ScanResult): seq<Group> {
    Picked(r.scanned, Leftover) + Picked(r.scanned, Reserved) + r.rest
  }

  // ------------------------------------------------------------- one whole step

  datatype Queues = Queues(waiting: seq<Group>, running: seq<Group>, swapped: seq<Group>)

  function Unscanned(q: seq<Group>, b: Books): ScanResult { ScanResult([], q, b) }

  /** The results of the three scans, in the order in which they run. */
  datatype Scans = Scans(run: RunResult, swap: ScanResult, wait: ScanResult)

  function RunScans(env: Env, cfg: Config, q: Queues, onFly: set<Id>, clock: nat): Scans {
    var run := RunScan(env, cfg, q.running, Books(onFly, FreshBudget(cfg), {}, clock, 0, 0));
    var evicted := Picked(run.victims, Preempted) + Picked(run.victims, SwappedOut);
    var swap := if evicted == [] then QueueScan(Swapped, env, cfg, q.swapped, run.books.NewScan())
                else Unscanned(q.swapped, run.books.NewScan());
    var wait := if swap.books.budget.Remaining() == 0 then Unscanned(q.waiting, swap.books.NewScan())
                else QueueScan(Waiting, env, cfg, q.waiting, swap.books.NewScan());
    Scans(run, swap, wait)
  }

  /** Prefills whose prompt completes with this chunk go first. */
  function FinishingFirst(env: Env, b: seq<Scheduled>): seq<Group> {
    GroupsOf(Finishing(env, b, true)) + GroupsOf(Finishing(env, b, false))
  }

  function Finishing(env: Env, b: seq<Scheduled>, yes: bool): seq<Scheduled> {
    if b == [] then []
    else (if env.finishesPrompt(b[0].group, b[0].chunk) == yes then [b[0]] else [])
         + Finishing(env, b[1..], yes)
  }

  function NewRunning(env: Env, s: Scans): seq<Group> {
    RunningAfter(s.run)
    + GroupsOf(Batch(s.swap.scanned, Decode)) + GroupsOf(Batch(s.swap.scanned, Prefill))
    + GroupsOf(Batch(s.run.scanned, Decode)) + FinishingFirst(env, Batch(s.run.scanned, Prefill))
    + GroupsOf(Batch(s.wait.scanned, Prefill))
  }

  /** Preempted groups are pushed one by one to the front of the waiting queue. */
  function NewWaiting(s: Scans): seq<Group> {
    Reverse(Picked(s.run.victims, Preempted)) + QueueAfter(s.wait)
  }

  function NewSwapped(s: Scans): seq<Group> {
    QueueAfter(s.swap) + Picked(s.run.victims, SwappedOut)
  }

  function NewBatch(s: Scans): seq<Scheduled> {
    Batch(s.wait.scanned, Prefill) + Batch(s.run.scanned, Prefill) + Batch(s.swap.scanned, Prefill)
    + Batch(s.run.scanned, Decode) + Batch(s.swap.scanned, Decode)
  }

  /** The two assertions the step makes about its budget before it rebuilds the queues. */
  predicate BudgetHeld(cfg: Config, s: Scans) {
    s.wait.books.budget.batched <= cfg.maxNumBatchedTokens
    && s.wait.books.budget.seqs <= cfg.maxNumSeqs
  }

  datatype Output = Output(
    batch: seq<Scheduled>, numPrefillGroups: nat, numBatchedTokens: int,
    ignored: seq<Group>, runningQueueSize: nat, preempted: nat)

  function Ignored(s: Scans): seq<Group> { Picked(s.wait.scanned, Rejected) + Picked(s.swap.scanned, Rejected) }

  function NewOutput(env: Env, s: Scans): Output {
    Output(NewBatch(s),
           |Batch(s.wait.scanned, Prefill)| + |Batch(s.swap.scanned, Prefill)| + |Batch(s.run.scanned, Prefill)|,
           s.wait.books.budget.batched + s.wait.books.budget.cached,
           Ignored(s),
           |NewRunning(env, s)|,
           |Picked(s.run.victims, Preempted)| + |Picked(s.run.victims, SwappedOut)|)
  }

  function NewQueues(env: Env, s: Scans): Queues {
    Queues(NewWaiting(s), NewRunning(env, s), NewSwapped(s))
  }

  /** A failing budget assertion leaves the queues as the scans left them. */
  function AbandonedQueues(s: Scans): Queues {
    Queues(QueueAfter(s.wait), RunningAfter(s.run), QueueAfter(s.swap))
  }
}
