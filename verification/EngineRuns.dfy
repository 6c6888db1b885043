/** The engine around the scheduler: up to ten step tasks, one per context, share one
    scheduler. Between two awaits a task runs undisturbed, so a run is a sequence of the
    events below in any order; what is proved here holds after every prefix of every run. */
module EngineRuns {
  import opened SchedulerSpec
  import Proofs = SchedulerProofs
  import Limits = SchedulerBudget

  const MAX_BATCH_NUM := 10

  /** A step task that has not called the scheduler yet, that waits for the model to run its
      batch, or that is done. */
  datatype Phase = Created | InFlight(ids: seq<Id>) | Over

  datatype Task = Task(ctx: nat, phase: Phase)

  // ------------------------------------------------------------ the engine loop

  /** `log` lists every task ever created; `tasks[i]` is the task the loop last created for
      context `i`, `inProgress[i]` the loop's flag for it. */
  datatype Loop = Loop(log: seq<Task>, tasks: seq<nat>, inProgress: seq<bool>, batchNum: nat)

  predicate Live(l: Loop, k: nat) { k < |l.log| && !l.log[k].phase.Over? }

  ghost predicate Tracked(l: Loop) {
    && |l.tasks| == |l.inProgress| <= MAX_BATCH_NUM
    && (forall i | 0 <= i < |l.tasks| :: l.tasks[i] < |l.log| && l.log[l.tasks[i]].ctx == i)
    && (forall k | 0 <= k < |l.log| && Live(l, k) :: l.log[k].ctx < |l.tasks| && l.tasks[l.log[k].ctx] == k)
  }

  /** Before the first pass there is no task; afterwards context 0 always has one. */
  ghost predicate LoopInv(l: Loop) {
    && 1 <= l.batchNum <= MAX_BATCH_NUM
    && if l.log == [] then l.tasks == [] && true !in l.inProgress
       else Tracked(l) && l.tasks != [] && l.inProgress[0]
  }

  /** Creates a task for context `i`, which is the next free one or has a finished task. */
  function Spawn(l: Loop, i: nat): Loop
    requires i <= |l.tasks| == |l.inProgress|
  {
    var k := |l.log|;
    if i < |l.tasks| then
      Loop(l.log + [Task(i, Created)], l.tasks[i := k], l.inProgress[i := true], l.batchNum)
    else
      Loop(l.log + [Task(i, Created)], l.tasks + [k], l.inProgress + [true], l.batchNum)
  }

  function SpawnUpTo(l: Loop, n: nat): (r: Loop)
    requires |l.tasks| == |l.inProgress|
    ensures |r.tasks| == |r.inProgress| && |r.tasks| == (if |l.tasks| < n then n else |l.tasks|)
    ensures r.batchNum == l.batchNum
    decreases n - |l.tasks|
  {
    if |l.tasks| < n then SpawnUpTo(Spawn(l, |l.tasks|), n) else l
  }

  /** The loop's visit to context `i`: contexts beyond the batch count are flagged idle, and
      a finished task is replaced; at context 0 the batch count is computed again. */
  function Visit(l: Loop, i: nat, n: nat): (r: Loop)
    requires i < |l.tasks| == |l.inProgress| && l.tasks[i] < |l.log|
    ensures |r.tasks| == |r.inProgress| == |l.tasks|
  {
    if i >= l.batchNum then l.(inProgress := l.inProgress[i := false])
    else if l.log[l.tasks[i]].phase.Over? then
      var r := Spawn(l, i);
      if i == 0 then r.(batchNum := n) else r
    else l
  }

  function VisitFrom(l: Loop, i: nat, n: nat): (r: Loop)
    requires |l.tasks| == |l.inProgress|
    requires forall j | 0 <= j < |l.tasks| :: l.tasks[j] < |l.log|
    decreases |l.tasks| - i
  {
    if i < |l.tasks| then VisitFrom(Visit(l, i, n), i + 1, n) else l
  }

  /** The loop as it stands when it starts to visit its tasks. */
  function Prepare(l: Loop, n: nat): (r: Loop)
    requires |l.tasks| == |l.inProgress| || true !in l.inProgress
    ensures |r.tasks| == |r.inProgress|
  {
    var l1 := if true !in l.inProgress then SpawnUpTo(Loop(l.log, [], [], n), n) else l;
    SpawnUpTo(l1, l1.batchNum)
  }

  lemma SpawnTracked(l: Loop, i: nat)
    requires Tracked(l) && i <= |l.tasks| && i < MAX_BATCH_NUM
    requires i < |l.tasks| ==> l.log[l.tasks[i]].phase.Over?
    ensures Tracked(Spawn(l, i))
  {
    var r := Spawn(l, i);
    forall k | 0 <= k < |r.log| && Live(r, k) ensures r.log[k].ctx < |r.tasks| && r.tasks[r.log[k].ctx] == k {
      if k < |l.log| {
        assert Live(l, k);
      }
    }
  }

  lemma {:induction false} SpawnUpToTracked(l: Loop, n: nat)
    requires Tracked(l) && n <= MAX_BATCH_NUM
    ensures var r := SpawnUpTo(l, n);
      Tracked(r) && |l.log| <= |r.log| && (|l.tasks| < n ==> |l.log| < |r.log|)
      && (l.inProgress != [] ==> r.inProgress[0] == l.inProgress[0])
      && (l.inProgress == [] && n > 0 ==> r.inProgress[0])
    decreases n - |l.tasks|
  {
    if |l.tasks| < n {
      SpawnTracked(l, |l.tasks|);
      SpawnUpToTracked(Spawn(l, |l.tasks|), n);
    }
  }

  ghost predicate Passing(l: Loop) {
    Tracked(l) && l.tasks != [] && l.inProgress[0] && 1 <= l.batchNum <= MAX_BATCH_NUM
  }

  lemma VisitKeeps(l: Loop, i: nat, n: nat)
    requires Passing(l) && i < |l.tasks| && 1 <= n <= MAX_BATCH_NUM
    ensures Passing(Visit(l, i, n))
  {
    if i < l.batchNum && l.log[l.tasks[i]].phase.Over? {
      SpawnTracked(l, i);
    }
    var r := Visit(l, i, n);
    assert forall k | 0 <= k < |r.log| :: Live(r, k) ==> Live(Spawn(l, i), k) || Live(l, k);
  }

  lemma {:induction false} VisitFromKeeps(l: Loop, i: nat, n: nat)
    requires Passing(l) && 1 <= n <= MAX_BATCH_NUM
    ensures Passing(VisitFrom(l, i, n)) && |VisitFrom(l, i, n).log| >= |l.log|
    decreases |l.tasks| - i
  {
    if i < |l.tasks| {
      VisitKeeps(l, i, n);
      VisitFromKeeps(Visit(l, i, n), i + 1, n);
    }
  }

  function Pass(l: Loop, n: nat): Loop
    requires LoopInv(l) && 1 <= n <= MAX_BATCH_NUM
  {
    PrepareKeeps(l, n);
    VisitFrom(Prepare(l, n), 0, n)
  }

  lemma PrepareKeeps(l: Loop, n: nat)
    requires LoopInv(l) && 1 <= n <= MAX_BATCH_NUM
    ensures Passing(Prepare(l, n)) && |Prepare(l, n).log| >= |l.log|
  {
    if l.log == [] {
      var empty := Loop(l.log, [], [], n);
      SpawnUpToTracked(empty, n);
      SpawnUpToTracked(SpawnUpTo(empty, n), n);
    } else {
      assert l.inProgress[0] in l.inProgress;
      SpawnUpToTracked(l, l.batchNum);
    }
  }

  lemma LaterVisit(l: Loop, i: nat, n: nat, m: nat)
    requires 0 < i < |l.tasks| == |l.inProgress| && l.tasks[i] < |l.log|
    ensures Visit(l, i, n) == Visit(l, i, m)
  {}

  lemma VisitsNext(l: Loop, i: nat, n: nat)
    requires Passing(l) && i < |l.tasks|
    ensures VisitFrom(l, i, n) == VisitFrom(Visit(l, i, n), i + 1, n)
  {}

  lemma VisitsOver(l: Loop, i: nat, n: nat)
    requires Passing(l) && i >= |l.tasks|
    ensures VisitFrom(l, i, n) == l
  {}

  lemma PassVisits(l: Loop, n: nat)
    requires LoopInv(l) && 1 <= n <= MAX_BATCH_NUM
    ensures Passing(Prepare(l, n)) && Pass(l, n) == VisitFrom(Prepare(l, n), 0, n)
  {
    PrepareKeeps(l, n);
  }

  /** A pass uses one batch count: it is computed while preparing if no task is in progress, and
      context 0 then has a fresh task; otherwise at context 0, if its task is finished. */
  lemma OneBatchNum(l: Loop, n: nat, m: nat)
    requires LoopInv(l) && 1 <= n <= MAX_BATCH_NUM && 1 <= m <= MAX_BATCH_NUM
    ensures Passing(Prepare(l, n)) && Passing(Prepare(l, m))
    ensures true !in l.inProgress ==> Visit(Prepare(l, n), 0, m) == Visit(Prepare(l, n), 0, n)
    ensures true in l.inProgress ==> Prepare(l, n) == Prepare(l, m)
  {
    PrepareKeeps(l, n);
    PrepareKeeps(l, m);
    PrepareLog(l, n);
    assert l.log != [] ==> l.inProgress[0] in l.inProgress;
  }

  /** A pass of the loop creates a task for a context only when that context has no live one:
      the two lists stay in step and within bounds while the batch count grows and shrinks. */
  lemma PassKeeps(l: Loop, n: nat)
    requires LoopInv(l) && 1 <= n <= MAX_BATCH_NUM
    ensures LoopInv(Pass(l, n)) && Pass(l, n).log != []
  {
    PrepareKeeps(l, n);
    VisitFromKeeps(Prepare(l, n), 0, n);
  }

  // --------------------------------------------------------- the whole engine

  datatype Engine = Engine(loop: Loop, queues: Queues, onFly: set<Id>, clock: nat)

  datatype Event =
    | Schedule(task: nat, env: Env, cfg: Config, idle: bool)  // schedule() in step_async
    | Compose(task: nat, scans: seq<OneScan>, ids: seq<Id>, queues: Queues, clock: nat, held: bool, idle: bool)
                                  // schedule() in step_async, by another composition of the scans
    | Refuse(task: nat)           // schedule() fails before it scans anything
    | Complete(task: nat)         // outputs processed, requests marked schedule-free
    | Evolve(queues: Queues)      // arrivals, aborts, finished or changed groups
    | LoopPass(batchNum: nat)     // one pass of run_engine_loop

  /** One scan of a schedule, with the books it starts from. */
  datatype OneScan =
    | OverRunning(env: Env, cfg: Config, q: seq<Group>, books: Books)
    | OverQueue(which: Queue, env: Env, cfg: Config, q: seq<Group>, books: Books)

  function ChosenBy(p: OneScan): seq<Id> {
    match p
    case OverRunning(env, cfg, q, b) => Proofs.ChosenIds(RunScan(env, cfg, q, b).scanned)
    case OverQueue(which, env, cfg, q, b) => Proofs.ChosenIds(QueueScan(which, env, cfg, q, b).scanned)
  }

  function MarksAfter(p: OneScan): set<Id> {
    match p
    case OverRunning(env, cfg, q, b) => RunScan(env, cfg, q, b).books.onFly
    case OverQueue(which, env, cfg, q, b) => QueueScan(which, env, cfg, q, b).books.onFly
  }

  /** Scans in any order, and any of them, each starting from the marks that the one before it
      has left; their budgets and queues may be anything. */
  ghost predicate Follows(onFly: set<Id>, scans: seq<OneScan>)
    decreases |scans|
  {
    scans != [] ==> scans[0].books.onFly == onFly && Follows(MarksAfter(scans[0]), scans[1..])
  }

  function AllChosen(scans: seq<OneScan>): seq<Id>
    decreases |scans|
  {
    if scans == [] then [] else ChosenBy(scans[0]) + AllChosen(scans[1..])
  }

  function FinalMarks(onFly: set<Id>, scans: seq<OneScan>): set<Id>
    decreases |scans|
  {
    if scans == [] then onFly else FinalMarks(MarksAfter(scans[0]), scans[1..])
  }

  /** Whatever the composition, it marks exactly what its scans choose, each request once and none
      that was marked before. */
  lemma {:induction false} CompositionMarks(onFly: set<Id>, scans: seq<OneScan>)
    requires Follows(onFly, scans)
    ensures Proofs.Marks(onFly, AllChosen(scans), FinalMarks(onFly, scans))
    decreases |scans|
  {
    if scans == [] {
      Proofs.MarksOne(onFly, "");
    } else {
      match scans[0] {
        case OverRunning(env, cfg, q, b) => Proofs.RunScanMarks(env, cfg, q, b);
        case OverQueue(which, env, cfg, q, b) => Proofs.QueueScanMarks(which, env, cfg, q, b);
      }
      var after := MarksAfter(scans[0]);
      CompositionMarks(after, scans[1..]);
      hide Proofs.Marks, ChosenBy, MarksAfter;
      Proofs.MarksCompose(onFly, ChosenBy(scans[0]), after, AllChosen(scans[1..]), FinalMarks(after, scans[1..]));
    }
  }

  /** No request is in two places. */
  ghost predicate UniqueIds(m: multiset<Group>) {
    (forall g | g in m :: m[g] == 1)
    && (forall g, h | g in m && h in m && g.id == h.id :: g == h)
  }

  ghost predicate Enabled(e: Engine, ev: Event) {
    match ev
    case Schedule(k, env, cfg, idle) =>
      && k < |e.loop.log| && e.loop.log[k].phase.Created?
      && (idle ==> NewBatch(ScansOf(e, env, cfg)) == [])
    case Compose(k, scans, ids, queues, _, _, idle) =>
      && k < |e.loop.log| && e.loop.log[k].phase.Created?
      && Follows(e.onFly, scans) && multiset(ids) == multiset(AllChosen(scans))
      && UniqueIds(Proofs.Content(queues)) && (idle ==> ids == [])
    case Refuse(k) => k < |e.loop.log| && e.loop.log[k].phase.Created?
    case Complete(k) => k < |e.loop.log| && e.loop.log[k].phase.InFlight?
    case Evolve(q) => UniqueIds(Proofs.Content(q))
    case LoopPass(n) => LoopInv(e.loop) && 1 <= n <= MAX_BATCH_NUM
  }

  function ScansOf(e: Engine, env: Env, cfg: Config): Scans {
    RunScans(env, cfg, e.queues, e.onFly, e.clock)
  }

  function Elems(ids: seq<Id>): set<Id> { set x | x in ids }

  function SetPhase(l: Loop, k: nat, p: Phase): Loop
    requires k < |l.log|
  {
    l.(log := l.log[k := l.log[k].(phase := p)])
  }

  /** A schedule that fails one of its assertions ends the task; the marks it has made stay. */
  ghost function Apply(e: Engine, ev: Event): Engine
    requires Enabled(e, ev)
  {
    match ev
    case Schedule(k, env, cfg, idle) =>
      var s := ScansOf(e, env, cfg);
      var held := BudgetHeld(cfg, s);
      var phase := if idle || !held then Over else InFlight(Proofs.IdsOf(NewBatch(s)));
      Engine(SetPhase(e.loop, k, phase), if held then NewQueues(env, s) else AbandonedQueues(s),
             s.wait.books.onFly, s.wait.books.clock)
    case Compose(k, scans, ids, queues, clock, held, idle) =>
      var phase := if idle || !held then Over else InFlight(ids);
      Engine(SetPhase(e.loop, k, phase), queues, FinalMarks(e.onFly, scans), clock)
    case Refuse(k) => e.(loop := SetPhase(e.loop, k, Over))
    case Complete(k) =>
      var ids := e.loop.log[k].phase.ids;
      e.(loop := SetPhase(e.loop, k, Over), onFly := e.onFly - Elems(ids))
    case Evolve(q) => e.(queues := q)
    case LoopPass(n) => e.(loop := Pass(e.loop, n))
  }

  ghost predicate Fails(e: Engine, ev: Event) {
    || (ev.Schedule? && !BudgetHeld(ev.cfg, ScansOf(e, ev.env, ev.cfg)))
    || (ev.Compose? && !ev.held)
  }

  /** The requests a failing schedule had chosen: marked, and in no batch. */
  ghost function Strands(e: Engine, ev: Event): set<Id> {
    if !Fails(e, ev) then {}
    else if ev.Compose? then Elems(ev.ids)
    else Elems(Proofs.IdsOf(NewBatch(ScansOf(e, ev.env, ev.cfg))))
  }

  ghost predicate Init(e: Engine) {
    && e.loop.log == [] && e.loop.tasks == [] && true !in e.loop.inProgress && e.loop.batchNum == 1
    && e.onFly == {} && UniqueIds(Proofs.Content(e.queues))
  }

  ghost predicate InBatch(l: Loop, k: int, x: Id) {
    0 <= k < |l.log| && l.log[k].phase.InFlight? && x in l.log[k].phase.ids
  }

  ghost predicate StillInBatch(l: Loop, x: Id) { exists k :: InBatch(l, k, x) }

  ghost function InFlightIds(l: Loop): set<Id> {
    set k, x | 0 <= k < |l.log| && l.log[k].phase.InFlight? && x in l.log[k].phase.ids :: x
  }

  /** No request is in two micro-batches in flight, or twice in one, or both in one and lost;
      the requests on the fly are exactly those in a batch and the lost ones. */
  ghost predicate Exclusive(l: Loop, onFly: set<Id>, lost: set<Id>) {
    && lost <= onFly
    && (forall x | x in onFly :: x in lost || StillInBatch(l, x))
    && (forall k, x | InBatch(l, k, x) :: x in onFly && x !in lost && multiset(l.log[k].phase.ids)[x] == 1)
    && (forall k1, k2, x | InBatch(l, k1, x) && InBatch(l, k2, x) :: k1 == k2)
  }

  ghost predicate Inv(e: Engine, lost: set<Id>) {
    LoopInv(e.loop) && Exclusive(e.loop, e.onFly, lost) && UniqueIds(Proofs.Content(e.queues))
  }

  lemma SetPhaseKeepsLoop(l: Loop, k: nat, p: Phase)
    requires LoopInv(l) && Live(l, k)
    ensures LoopInv(SetPhase(l, k, p))
  {
    var r := SetPhase(l, k, p);
    assert forall j | 0 <= j < |r.log| :: Live(r, j) ==> Live(l, j);
  }

  lemma ScheduleExclusive(l: Loop, onFly: set<Id>, lost: set<Id>, k: nat, ids: seq<Id>, onFly': set<Id>)
    requires Exclusive(l, onFly, lost) && k < |l.log| && l.log[k].phase.Created?
    requires Proofs.Marks(onFly, ids, onFly')
    ensures Exclusive(SetPhase(l, k, InFlight(ids)), onFly', lost)
  {
    var r := SetPhase(l, k, InFlight(ids));
    forall j, x ensures InBatch(r, j, x) <==> (if j == k then x in ids else InBatch(l, j, x)) {}
    forall j, x | InBatch(r, j, x) ensures x in onFly' && x !in lost && multiset(r.log[j].phase.ids)[x] == 1 {
      if j == k { assert r.log[j].phase.ids == ids; } else { assert InBatch(l, j, x); }
    }
    forall x | x in onFly' ensures x in lost || StillInBatch(r, x) {
      if x in ids {
        assert InBatch(r, k, x);
      } else if x !in lost {
        var j :| InBatch(l, j, x);
        assert InBatch(r, j, x);
      }
    }
  }

  /** A task that ends without a batch: what was marked for it is lost. */
  lemma FailExclusive(l: Loop, onFly: set<Id>, lost: set<Id>, k: nat, ids: seq<Id>, onFly': set<Id>)
    requires Exclusive(l, onFly, lost) && k < |l.log| && l.log[k].phase.Created?
    requires Proofs.Marks(onFly, ids, onFly')
    ensures Exclusive(SetPhase(l, k, Over), onFly', lost + Elems(ids))
  {
    var r := SetPhase(l, k, Over);
    forall j, x ensures InBatch(r, j, x) <==> InBatch(l, j, x) {}
    forall j, x | InBatch(r, j, x) ensures x !in Elems(ids) && multiset(r.log[j].phase.ids)[x] == 1 {
      assert InBatch(l, j, x);
    }
    forall x | x in onFly' ensures x in lost + Elems(ids) || StillInBatch(r, x) {
      if x !in lost + Elems(ids) {
        var j :| InBatch(l, j, x);
        assert InBatch(r, j, x);
      }
    }
  }

  lemma CompleteExclusive(l: Loop, onFly: set<Id>, lost: set<Id>, k: nat)
    requires Exclusive(l, onFly, lost) && k < |l.log| && l.log[k].phase.InFlight?
    ensures var ids := l.log[k].phase.ids; Exclusive(SetPhase(l, k, Over), onFly - Elems(ids), lost)
  {
    var ids := l.log[k].phase.ids;
    var r := SetPhase(l, k, Over);
    forall j, x ensures InBatch(r, j, x) <==> j != k && InBatch(l, j, x) {}
    forall x | x in lost ensures x !in Elems(ids) { assert x in ids ==> InBatch(l, k, x); }
    forall x | x in onFly - Elems(ids) ensures x in lost || StillInBatch(r, x) {
      if x !in lost {
        var j :| InBatch(l, j, x);
        assert InBatch(r, j, x);
      }
    }
    forall j, x | InBatch(r, j, x) ensures x in onFly - Elems(ids) && multiset(r.log[j].phase.ids)[x] == 1 {
      assert InBatch(l, j, x);
      assert x in ids ==> InBatch(l, k, x);
    }
  }

  lemma {:induction false} SpawnUpToLog(l: Loop, n: nat)
    requires |l.tasks| == |l.inProgress|
    ensures var r := SpawnUpTo(l, n); OnlyCreated(l.log, r.log)
    decreases n - |l.tasks|
  {
    if |l.tasks| < n {
      SpawnUpToLog(Spawn(l, |l.tasks|), n);
    }
  }

  /** A pass of the loop only adds tasks that have not scheduled anything. */
  ghost predicate OnlyCreated(a: seq<Task>, b: seq<Task>) {
    |a| <= |b| && b[..|a|] == a && forall k | |a| <= k < |b| :: b[k].phase.Created?
  }

  lemma OnlyCreatedTransitive(a: seq<Task>, b: seq<Task>, c: seq<Task>)
    requires OnlyCreated(a, b) && OnlyCreated(b, c)
    ensures OnlyCreated(a, c)
  {
    assert c[..|a|] == c[..|b|][..|a|];
    forall k | |a| <= k < |c| ensures c[k].phase.Created? {
      if k < |b| { assert c[k] == c[..|b|][k] == b[k]; }
    }
  }

  // ----------------------------------------------- which tasks a pass creates

  /** What a visit under the batch count `m` makes of context `j`: beyond the count it is flagged
      idle, a finished task gives way to a new one, and a live one goes on. */
  ghost predicate Served(l: Loop, r: Loop, j: nat, m: nat)
    requires j < |l.tasks| == |l.inProgress| && j < |r.tasks| == |r.inProgress| && l.tasks[j] < |l.log|
  {
    if j >= m then r.tasks[j] == l.tasks[j] && !r.inProgress[j]
    else if l.log[l.tasks[j]].phase.Over? then NewTask(l, r, j)
    else SameTask(l, r, j)
  }

  ghost predicate NewTask(l: Loop, r: Loop, j: nat)
    requires j < |r.tasks| == |r.inProgress|
  {
    |l.log| <= r.tasks[j] < |r.log| && r.log[r.tasks[j]] == Task(j, Created) && r.inProgress[j]
  }

  ghost predicate SameTask(l: Loop, r: Loop, j: nat)
    requires j < |l.tasks| == |l.inProgress| && j < |r.tasks| == |r.inProgress|
  {
    r.tasks[j] == l.tasks[j] && r.inProgress[j] == l.inProgress[j]
  }

  lemma {:induction false} SpawnUpToAt(l: Loop, n: nat, r: Loop)
    requires |l.tasks| == |l.inProgress| && r == SpawnUpTo(l, n)
    ensures forall j: nat | j < |l.tasks| :: SameTask(l, r, j)
    ensures forall j: nat | |l.tasks| <= j < |r.tasks| :: NewTask(l, r, j)
    decreases n - |l.tasks|
  {
    if |l.tasks| < n {
      var next := Spawn(l, |l.tasks|);
      SpawnUpToAt(next, n, r);
      SpawnUpToLog(next, n);
      assert SameTask(next, r, |l.tasks|);
      assert r.log[|l.log|] == r.log[..|next.log|][|l.log|];
      forall j: nat | j < |l.tasks| ensures SameTask(l, r, j) { assert SameTask(next, r, j); }
      forall j: nat | |l.tasks| < j < |r.tasks| ensures NewTask(l, r, j) { assert NewTask(next, r, j); }
    }
  }

  /** From context 1 on the count stays, and every context is served under it. */
  lemma {:induction false} VisitFromServes(l: Loop, i: nat, n: nat)
    requires 1 <= i && |l.tasks| == |l.inProgress|
    requires forall j | 0 <= j < |l.tasks| :: l.tasks[j] < |l.log|
    ensures var r := VisitFrom(l, i, n);
      && |r.tasks| == |r.inProgress| == |l.tasks| && r.batchNum == l.batchNum
      && (forall j: nat | j < |l.tasks| && j < i :: SameTask(l, r, j))
      && (forall j: nat | i <= j < |l.tasks| :: Served(l, r, j, l.batchNum))
    decreases |l.tasks| - i
  {
    if i < |l.tasks| {
      var next := Visit(l, i, n);
      VisitFromServes(next, i + 1, n);
      VisitFromLog(next, i + 1, n);
      var r := VisitFrom(l, i, n);
      assert SameTask(next, r, i);
      assert forall k | 0 <= k < |next.log| :: r.log[k] == r.log[..|next.log|][k];
      forall j: nat | j < |l.tasks| ensures if j < i then SameTask(l, r, j) else Served(l, r, j, l.batchNum) {
        if j < i {
          assert SameTask(next, r, j);
        } else if j > i {
          assert Served(next, r, j, next.batchNum);
        }
      }
    }
  }

  lemma {:induction false} VisitFromLog(l: Loop, i: nat, n: nat)
    requires |l.tasks| == |l.inProgress|
    requires forall j | 0 <= j < |l.tasks| :: l.tasks[j] < |l.log|
    ensures OnlyCreated(l.log, VisitFrom(l, i, n).log)
    decreases |l.tasks| - i
  {
    if i < |l.tasks| {
      VisitFromLog(Visit(l, i, n), i + 1, n);
      OnlyCreatedTransitive(l.log, Visit(l, i, n).log, VisitFrom(l, i, n).log);
    }
  }

  lemma PrepareLog(l: Loop, n: nat)
    requires LoopInv(l) && 1 <= n <= MAX_BATCH_NUM
    ensures OnlyCreated(l.log, Prepare(l, n).log)
  {
    var l0 := if true !in l.inProgress then Loop(l.log, [], [], n) else l;
    var l1 := if true !in l.inProgress then SpawnUpTo(l0, n) else l;
    SpawnUpToLog(l0, n);
    SpawnUpToLog(l1, l1.batchNum);
    OnlyCreatedTransitive(l.log, l1.log, Prepare(l, n).log);
  }

  lemma PassLog(l: Loop, n: nat)
    requires LoopInv(l) && 1 <= n <= MAX_BATCH_NUM
    ensures OnlyCreated(l.log, Pass(l, n).log)
  {
    PrepareKeeps(l, n);
    PrepareLog(l, n);
    VisitFromLog(Prepare(l, n), 0, n);
    OnlyCreatedTransitive(l.log, Prepare(l, n).log, Pass(l, n).log);
  }

  /** When a pass computes the batch count: if nothing is in progress, or context 0 has finished. */
  ghost predicate Recounts(l: Loop)
    requires LoopInv(l)
  {
    true !in l.inProgress || l.log[l.tasks[0]].phase.Over?
  }

  ghost predicate HasLive(l: Loop, j: nat) { j < |l.tasks| && Live(l, l.tasks[j]) }

  /** A pass uses the new batch count exactly when it computes one, and the old one otherwise. It
      never replaces a live task, and leaves context 0 and every other context below the count
      with a live one, new exactly if there was none; contexts beyond the count are flagged idle
      and keep what they have. Contexts are added up to the count the pass starts with. */
  lemma PassServes(l: Loop, n: nat)
    requires LoopInv(l) && 1 <= n <= MAX_BATCH_NUM
    ensures var r := Pass(l, n);
      && r.batchNum == (if Recounts(l) then n else l.batchNum)
      && |r.tasks| == |r.inProgress|
      && |r.tasks| == (var first := if true !in l.inProgress then n else l.batchNum;
                       if |l.tasks| < first then first else |l.tasks|)
      && (forall j: nat | j < |r.tasks| :: AtContext(l, r, j))
  {
    PrepareKeeps(l, n);
    PrepareServes(l, n);
    var p := Prepare(l, n);
    var v := Visit(p, 0, n);
    FirstVisit(p, n);
    VisitFromServes(v, 1, n);
    VisitFromLog(v, 1, n);
    var r := Pass(l, n);
    assert r == VisitFrom(v, 1, n) && Rest(v, r);
    assert |l.tasks| <= |p.tasks|;
    hide LoopInv, Prepared, FirstVisited, Rest, Pass, Prepare, Visit, VisitFrom, Passing, OnlyCreated, Recounts;
    hide NewTask, SameTask, Served, Live;
    AtContextZero(l, p, v, r, n);
    hide AtContext;
    forall j: nat | j < |r.tasks| ensures AtContext(l, r, j) {
      if j > 0 { AtLaterContext(l, p, v, r, n, j); }
    }
  }

  /** Nothing of the old tasks changes while the lists are prepared; what is added is new. */
  ghost predicate Prepared(l: Loop, p: Loop, n: nat)
    requires LoopInv(l)
  {
    && |p.tasks| == |p.inProgress| && OnlyCreated(l.log, p.log)
    && (forall j | 0 <= j < |p.tasks| :: p.tasks[j] < |p.log|)
    && p.batchNum == (if true !in l.inProgress then n else l.batchNum)
    && |p.tasks| == (if |l.tasks| < p.batchNum then p.batchNum else |l.tasks|)
    && (forall j: nat | j < |l.tasks| :: l.tasks[j] < |l.log| && SameTask(l, p, j))
    && (forall j: nat | |l.tasks| <= j < |p.tasks| :: NewTask(l, p, j))
  }

  ghost predicate FirstVisited(p: Loop, v: Loop, n: nat) {
    && 0 < |p.tasks| == |p.inProgress| == |v.tasks| == |v.inProgress| && OnlyCreated(p.log, v.log)
    && p.tasks[0] < |p.log|
    && (forall j: nat | 0 < j < |p.tasks| :: SameTask(p, v, j))
    && (if p.log[p.tasks[0]].phase.Over? then v.batchNum == n && NewTask(p, v, 0)
        else v.batchNum == p.batchNum && SameTask(p, v, 0))
  }

  ghost predicate Rest(v: Loop, r: Loop) {
    && 0 < |v.tasks| == |v.inProgress| == |r.tasks| == |r.inProgress| && OnlyCreated(v.log, r.log)
    && (forall j | 0 <= j < |v.tasks| :: v.tasks[j] < |v.log|)
    && r.batchNum == v.batchNum && SameTask(v, r, 0)
    && (forall j: nat | 0 < j < |v.tasks| :: Served(v, r, j, r.batchNum))
  }

  /** What a pass makes of context `j`. */
  ghost predicate AtContext(l: Loop, r: Loop, j: nat)
    requires j < |r.tasks| == |r.inProgress|
  {
    && (j < r.batchNum ==> HasLive(r, j) && (!HasLive(l, j) ==> NewTask(l, r, j)))
    && (HasLive(l, j) ==> r.tasks[j] == l.tasks[j])
    && (j >= r.batchNum ==> !r.inProgress[j] && (j < |l.tasks| ==> r.tasks[j] == l.tasks[j]))
  }

  lemma FirstVisit(p: Loop, n: nat)
    requires Passing(p)
    ensures FirstVisited(p, Visit(p, 0, n), n)
    ensures forall j | 0 <= j < |p.tasks| :: Visit(p, 0, n).tasks[j] < |Visit(p, 0, n).log|
  {}

  lemma PrepareServes(l: Loop, n: nat)
    requires LoopInv(l) && 1 <= n <= MAX_BATCH_NUM
    ensures Prepared(l, Prepare(l, n), n)
  {
    var p := Prepare(l, n);
    PrepareKeeps(l, n);
    PrepareLog(l, n);
    if l.log == [] {
      var empty := Loop(l.log, [], [], n);
      SpawnUpToAt(empty, n, p);
      assert forall j: nat | j < |p.tasks| :: NewTask(empty, p, j) ==> NewTask(l, p, j);
    } else {
      assert l.inProgress[0] in l.inProgress;
      SpawnUpToAt(l, l.batchNum, p);
    }
  }

  /** Context 0 is found finished exactly if it was so before, and not because the lists are new. */
  lemma FirstIsOver(l: Loop, n: nat)
    requires LoopInv(l) && 1 <= n <= MAX_BATCH_NUM
    ensures var p := Prepare(l, n);
      && Passing(p) && (p.log[p.tasks[0]].phase.Over? <==> true in l.inProgress && Recounts(l))
  {
    var p := Prepare(l, n);
    PrepareKeeps(l, n);
    PrepareServes(l, n);
    if l.log == [] {
      assert NewTask(l, p, 0);
    } else {
      assert l.inProgress[0] in l.inProgress;
      assert SameTask(l, p, 0);
      Unchanged(l.log, p.log, l.tasks[0]);
    }
  }

  lemma Unchanged(a: seq<Task>, b: seq<Task>, k: nat)
    requires OnlyCreated(a, b) && k < |a|
    ensures k < |b| && b[k] == a[k]
  {
    assert b[k] == b[..|a|][k];
  }

  lemma AtContextZero(l: Loop, p: Loop, v: Loop, r: Loop, n: nat)
    requires LoopInv(l) && Prepared(l, p, n) && FirstVisited(p, v, n) && Rest(v, r) && n > 0
    ensures r.batchNum == (if Recounts(l) then n else l.batchNum)
    ensures 0 < |r.tasks| == |r.inProgress| == |p.tasks| && AtContext(l, r, 0)
  {
    Unchanged(v.log, r.log, v.tasks[0]);
    Unchanged(p.log, v.log, p.tasks[0]);
    if l.log == [] {
      assert NewTask(l, p, 0);
    } else {
      assert l.inProgress[0] in l.inProgress;
      assert SameTask(l, p, 0);
      Unchanged(l.log, p.log, l.tasks[0]);
    }
  }

  lemma AtLaterContext(l: Loop, p: Loop, v: Loop, r: Loop, n: nat, j: nat)
    requires LoopInv(l) && Prepared(l, p, n) && FirstVisited(p, v, n) && Rest(v, r)
    requires 0 < j < |r.tasks| == |r.inProgress|
    ensures AtContext(l, r, j)
  {
    assert SameTask(p, v, j) && Served(v, r, j, r.batchNum);
    Unchanged(v.log, r.log, v.tasks[j]);
    Unchanged(p.log, v.log, p.tasks[j]);
    if j < |l.tasks| {
      assert SameTask(l, p, j);
      Unchanged(l.log, p.log, l.tasks[j]);
    } else {
      assert NewTask(l, p, j);
    }
  }

  lemma PassExclusive(l: Loop, n: nat, onFly: set<Id>, lost: set<Id>)
    requires LoopInv(l) && 1 <= n <= MAX_BATCH_NUM && Exclusive(l, onFly, lost)
    ensures Exclusive(Pass(l, n), onFly, lost)
  {
    PassLog(l, n);
    var r := Pass(l, n);
    forall k, x ensures InBatch(r, k, x) <==> InBatch(l, k, x) {
      if 0 <= k < |l.log| { assert r.log[k] == r.log[..|l.log|][k]; }
    }
    forall x | x in onFly ensures x in lost || StillInBatch(r, x) {
      if x !in lost {
        var k :| InBatch(l, k, x);
        assert InBatch(r, k, x);
      }
    }
    forall k, x | InBatch(r, k, x) ensures multiset(r.log[k].phase.ids)[x] == 1 {
      assert InBatch(l, k, x) && r.log[k] == r.log[..|l.log|][k];
    }
  }

  lemma UniqueSmaller(m: multiset<Group>, n: multiset<Group>)
    requires UniqueIds(m) && n <= m
    ensures UniqueIds(n)
  {
    forall g | g in n ensures n[g] == 1 && g in m { assert n[g] <= m[g]; }
  }

  lemma QueuesStayUnique(e: Engine, env: Env, cfg: Config)
    requires UniqueIds(Proofs.Content(e.queues))
    ensures UniqueIds(Proofs.Content(NewQueues(env, ScansOf(e, env, cfg))))
    ensures UniqueIds(Proofs.Content(AbandonedQueues(ScansOf(e, env, cfg))))
  {
    var s := ScansOf(e, env, cfg);
    Proofs.StepConserves(env, cfg, e.queues, e.onFly, e.clock);
    Proofs.FailingStepDrops(env, cfg, e.queues, e.onFly, e.clock);
    hide RunScans, NewQueues, AbandonedQueues, UniqueIds, Proofs.Removed, Proofs.Dropped, Proofs.Content;
    UniqueSmaller(Proofs.Content(e.queues), Proofs.Content(NewQueues(env, s)));
    UniqueSmaller(Proofs.Content(e.queues), Proofs.Content(AbandonedQueues(s)));
  }

  lemma ScheduleKeeps(e: Engine, lost: set<Id>, ev: Event)
    requires Inv(e, lost) && Enabled(e, ev) && ev.Schedule?
    ensures Inv(Apply(e, ev), lost + Strands(e, ev))
  {
    hide RunScans, NewBatch, NewQueues, AbandonedQueues, BudgetHeld, LoopInv, Exclusive, UniqueIds;
    hide Proofs.Content, Proofs.IdsOf, Elems, Proofs.Marks;
    var s := ScansOf(e, ev.env, ev.cfg);
    var ids := Proofs.IdsOf(NewBatch(s));
    QueuesStayUnique(e, ev.env, ev.cfg);
    ScheduleMarks(e, ev.env, ev.cfg);
    SetPhaseKeepsLoop(e.loop, ev.task, Over);
    SetPhaseKeepsLoop(e.loop, ev.task, InFlight(ids));
    ScheduleExclusive(e.loop, e.onFly, lost, ev.task, ids, s.wait.books.onFly);
    FailExclusive(e.loop, e.onFly, lost, ev.task, ids, s.wait.books.onFly);
    assert lost + {} == lost;
  }

  lemma ComposeKeeps(e: Engine, lost: set<Id>, ev: Event)
    requires Inv(e, lost) && Enabled(e, ev) && ev.Compose?
    ensures Inv(Apply(e, ev), lost + Strands(e, ev))
  {
    hide LoopInv, Exclusive, UniqueIds, Proofs.Content, Proofs.Marks, AllChosen, FinalMarks, Follows;
    CompositionMarks(e.onFly, ev.scans);
    var after := FinalMarks(e.onFly, ev.scans);
    SameMarks(e.onFly, AllChosen(ev.scans), ev.ids, after);
    SetPhaseKeepsLoop(e.loop, ev.task, Over);
    SetPhaseKeepsLoop(e.loop, ev.task, InFlight(ev.ids));
    ScheduleExclusive(e.loop, e.onFly, lost, ev.task, ev.ids, after);
    FailExclusive(e.loop, e.onFly, lost, ev.task, ev.ids, after);
    NoElems(ev.ids);
    assert lost + {} == lost;
  }

  lemma NoElems(ids: seq<Id>)
    ensures ids == [] ==> Elems(ids) == {}
  {}

  lemma SameMarks(a: set<Id>, m: seq<Id>, n: seq<Id>, b: set<Id>)
    requires Proofs.Marks(a, m, b) && multiset(m) == multiset(n)
    ensures Proofs.Marks(a, n, b)
  {
    forall x ensures x in m <==> x in n { assert x in multiset(m) <==> x in multiset(n); }
  }

  lemma ScheduleMarks(e: Engine, env: Env, cfg: Config)
    ensures var s := ScansOf(e, env, cfg);
      && Proofs.Marks(e.onFly, Proofs.IdsOf(NewBatch(s)), s.wait.books.onFly)
      && (NewBatch(s) == [] ==> Elems(Proofs.IdsOf(NewBatch(s))) == {})
  {
    Proofs.StepMarksBatch(env, cfg, e.queues, e.onFly, e.clock);
  }

  /** Every event keeps the invariant; only a failing schedule loses requests. */
  lemma StepKeeps(e: Engine, lost: set<Id>, ev: Event)
    requires Inv(e, lost) && Enabled(e, ev)
    ensures Inv(Apply(e, ev), lost + Strands(e, ev))
  {
    assert lost + {} == lost;
    match ev
    case Schedule(_, _, _, _) => ScheduleKeeps(e, lost, ev);
    case Compose(_, _, _, _, _, _, _) => ComposeKeeps(e, lost, ev);
    case Refuse(k) =>
      SetPhaseKeepsLoop(e.loop, k, Over);
      FailExclusive(e.loop, e.onFly, lost, k, [], e.onFly);
    case Complete(k) =>
      SetPhaseKeepsLoop(e.loop, k, Over);
      CompleteExclusive(e.loop, e.onFly, lost, k);
    case Evolve(q) =>
    case LoopPass(n) =>
      PassKeeps(e.loop, n);
      PassExclusive(e.loop, n, e.onFly, lost);
  }

  // --------------------------------------------------------------------- runs

  ghost predicate Transition(e: Engine, ev: Event, e': Engine) { Enabled(e, ev) && e' == Apply(e, ev) }

  ghost predicate IsRun(states: seq<Engine>, events: seq<Event>) {
    && |states| == |events| + 1 && Init(states[0])
    && forall i | 0 <= i < |events| :: Transition(states[i], events[i], states[i + 1])
  }

  /** What the failing schedules of a run's first `i` events had chosen. */
  ghost function Stranded(states: seq<Engine>, events: seq<Event>, i: nat): set<Id>
    requires |states| == |events| + 1 && i < |states|
  {
    if i == 0 then {} else Stranded(states, events, i - 1) + Strands(states[i - 1], events[i - 1])
  }

  /** In every state of every run, micro-batches in flight share no request, and the set kept
      by the scheduler is exactly their union and the requests stranded by failed schedules. */
  lemma {:induction false} RunsKeepExclusion(states: seq<Engine>, events: seq<Event>, i: nat)
    requires IsRun(states, events) && i < |states|
    ensures Inv(states[i], Stranded(states, events, i))
    ensures states[i].onFly == InFlightIds(states[i].loop) + Stranded(states, events, i)
    ensures InFlightIds(states[i].loop) !! Stranded(states, events, i)
  {
    hide Strands, Apply, Enabled, LoopInv, Exclusive, UniqueIds, InFlightIds;
    if i > 0 {
      RunsKeepExclusion(states, events, i - 1);
      assert Transition(states[i - 1], events[i - 1], states[i]);
      StepKeeps(states[i - 1], Stranded(states, events, i - 1), events[i - 1]);
    }
    InitKeeps(states[0]);
    UnionOf(states[i].loop, states[i].onFly, Stranded(states, events, i));
  }

  lemma InitKeeps(e: Engine)
    requires Init(e)
    ensures Inv(e, {})
  {}

  lemma UnionOf(l: Loop, onFly: set<Id>, lost: set<Id>)
    requires Exclusive(l, onFly, lost)
    ensures onFly == InFlightIds(l) + lost && InFlightIds(l) !! lost
  {
    forall x ensures x in InFlightIds(l) <==> StillInBatch(l, x) {
      if StillInBatch(l, x) {
        var k :| InBatch(l, k, x);
        assert 0 <= k < |l.log|;
      }
      if x in InFlightIds(l) {
        var k: nat :| k < |l.log| && l.log[k].phase.InFlight? && x in l.log[k].phase.ids;
        assert InBatch(l, k, x);
      }
    }
    forall x | x in InFlightIds(l) ensures x in onFly && x !in lost {
      var k :| InBatch(l, k, x);
    }
  }

  /** No schedule before this point failed after it had chosen a group. */
  ghost predicate NoneStranded(states: seq<Engine>, events: seq<Event>, i: nat)
    requires |states| == |events| + 1 && i < |states|
  {
    forall j | 0 <= j < i :: Strands(states[j], events[j]) == {}
  }

  lemma {:induction false} StrandedEmpty(states: seq<Engine>, events: seq<Event>, i: nat)
    requires |states| == |events| + 1 && i < |states|
    ensures Stranded(states, events, i) == {} <==> NoneStranded(states, events, i)
  {
    hide Strands;
    if i > 0 {
      StrandedEmpty(states, events, i - 1);
      var a, b := Stranded(states, events, i - 1), Strands(states[i - 1], events[i - 1]);
      assert a <= a + b && b <= a + b;
    }
  }

  /** The set is exactly the union of the batches in flight if and only if no failed schedule
      had chosen a group. */
  lemma ExactIffNoneStranded(states: seq<Engine>, events: seq<Event>, i: nat)
    requires IsRun(states, events) && i < |states|
    ensures states[i].onFly == InFlightIds(states[i].loop) <==> NoneStranded(states, events, i)
  {
    RunsKeepExclusion(states, events, i);
    StrandedEmpty(states, events, i);
    var a, b := InFlightIds(states[i].loop), Stranded(states, events, i);
    assert a + b == a <==> b == {} by {
      if a + b == a { assert b <= a; assert forall x :: x !in b; }
    }
  }

  /** With no batch in flight, what is still held back is what was stranded: nothing, exactly if
      no failed schedule had chosen a group. */
  lemma NothingHeldBack(states: seq<Engine>, events: seq<Event>, i: nat)
    requires IsRun(states, events) && i < |states|
    requires forall k | 0 <= k < |states[i].loop.log| :: !states[i].loop.log[k].phase.InFlight?
    ensures states[i].onFly == Stranded(states, events, i)
    ensures states[i].onFly == {} <==> NoneStranded(states, events, i)
  {
    RunsKeepExclusion(states, events, i);
    StrandedEmpty(states, events, i);
    assert InFlightIds(states[i].loop) == {};
  }

  // --------------------------------------------- when no schedule strands a group

  /** Chunked schedules over single-sequence groups, under vLLM's token contract. */
  ghost predicate Contract(e: Engine, ev: Event) {
    !ev.Compose? &&
    (ev.Schedule? ==>
       ev.cfg.chunking && Limits.ChunkContract(ev.env) && Limits.SingleSequence(e.queues.running))
  }

  ghost predicate HasRoom(e: Engine, ev: Event) {
    ev.Schedule? ==> Limits.MostChosen(ev.cfg, e.queues.running, e.onFly) <= ev.cfg.maxNumSeqs
  }

  /** Under the contract a schedule that fails has always chosen something. */
  lemma FailureStrands(e: Engine, ev: Event)
    requires Fails(e, ev) && Contract(e, ev)
    ensures Strands(e, ev) != {}
  {
    var s := ScansOf(e, ev.env, ev.cfg);
    Limits.StepSound(ev.env, ev.cfg, e.queues, e.onFly, e.clock);
    Limits.ChosenInBatch(s);
    var ids := Proofs.IdsOf(NewBatch(s));
    assert NewBatch(s) != [] && ids != [];
    assert ids[0] in Elems(ids);
  }

  /** Under the contract, the set is exact if and only if no schedule has failed. */
  lemma ExactIffNoFailure(states: seq<Engine>, events: seq<Event>, i: nat)
    requires IsRun(states, events) && i < |states|
    requires forall j | 0 <= j < i :: Contract(states[j], events[j])
    ensures states[i].onFly == InFlightIds(states[i].loop) <==> forall j | 0 <= j < i :: !Fails(states[j], events[j])
  {
    ExactIffNoneStranded(states, events, i);
    forall j | 0 <= j < i ensures Strands(states[j], events[j]) == {} <==> !Fails(states[j], events[j]) {
      if Fails(states[j], events[j]) { FailureStrands(states[j], events[j]); }
    }
  }

  /** What a caller can check: if before each schedule no more groups could be chosen than
      `max_num_seqs`, no schedule fails and the set is exact throughout. */
  lemma ExactWithRoom(states: seq<Engine>, events: seq<Event>, i: nat)
    requires IsRun(states, events) && i < |states|
    requires forall j | 0 <= j < i ::
               Contract(states[j], events[j]) && HasRoom(states[j], events[j])
    ensures states[i].onFly == InFlightIds(states[i].loop)
  {
    forall j | 0 <= j < i ensures !Fails(states[j], events[j]) {
      var e, ev := states[j], events[j];
      if ev.Schedule? {
        assert Contract(e, ev) && HasRoom(e, ev);
        Limits.AssertionsHoldWhenRoom(ev.env, ev.cfg, e.queues, e.onFly, e.clock);
      }
    }
    ExactIffNoFailure(states, events, i);
  }

  /** So a schedule limit within `max_num_seqs` at each schedule keeps the set exact. */
  lemma ExactWithLimit(states: seq<Engine>, events: seq<Event>, i: nat)
    requires IsRun(states, events) && i < |states|
    requires forall j | 0 <= j < i ::
               Contract(states[j], events[j])
               && (events[j].Schedule? ==> events[j].cfg.scheduleLimit <= events[j].cfg.maxNumSeqs)
    ensures states[i].onFly == InFlightIds(states[i].loop)
  {
    forall j | 0 <= j < i ensures Contract(states[j], events[j]) && HasRoom(states[j], events[j]) {
      LimitGivesRoom(states[j], events[j]);
    }
    ExactWithRoom(states, events, i);
  }

  lemma LimitGivesRoom(e: Engine, ev: Event)
    requires ev.Schedule? ==> ev.cfg.scheduleLimit <= ev.cfg.maxNumSeqs
    ensures HasRoom(e, ev)
  {}

  /** Without room, the next schedule can fail and strand requests: there is an environment that
      keeps the contract and does it. */
  lemma RoomNeeded(states: seq<Engine>, events: seq<Event>, i: nat, k: nat, cfg: Config) returns (ev: Event)
    requires IsRun(states, events) && i < |states|
    requires k < |states[i].loop.log| && states[i].loop.log[k].phase.Created?
    requires cfg.chunking && Limits.SingleSequence(states[i].queues.running)
    requires Limits.MostChosen(cfg, states[i].queues.running, states[i].onFly) > cfg.maxNumSeqs
    ensures ev.Schedule? && ev.cfg == cfg && Contract(states[i], ev)
    ensures Enabled(states[i], ev) && Strands(states[i], ev) != {}
  {
    var e := states[i];
    ev := Schedule(k, Limits.Generous(), cfg, false);
    RunsKeepExclusion(states, events, i);
    RunningDistinct(e.queues);
    Limits.AssertionsFailWithoutRoom(cfg, e.queues, e.onFly, e.clock);
    FailureStrands(e, ev);
  }

  lemma RunningDistinct(q: Queues)
    requires UniqueIds(Proofs.Content(q))
    ensures Proofs.DistinctIds(q.running)
  {
    var m := Proofs.Content(q);
    forall i, j | 0 <= i < j < |q.running| ensures q.running[i].id != q.running[j].id {
      var g, h := q.running[i], q.running[j];
      assert g in m && h in m && m[g] >= multiset(q.running)[g];
      Twice(q.running, i, j);
    }
  }

  lemma Twice(s: seq<Group>, i: nat, j: nat)
    requires i < j < |s|
    ensures s[i] == s[j] ==> multiset(s)[s[i]] >= 2
  {
    assert s == s[..j] + [s[j]] + s[j + 1..];
    assert s[..j][i] == s[i];
  }

  // ---------------------------------------------------------- requests in flight

  /** A request in flight, even one evicted from the tail by another context's schedule, stays
      marked and in its batch, and is not in a new batch, so it cannot run twice. */
  lemma InFlightVictimStaysMarked(states: seq<Engine>, events: seq<Event>, i: nat, j: nat, x: Id)
    requires IsRun(states, events) && i < |events| && InBatch(states[i].loop, j, x)
    requires events[i].Schedule? || events[i].Compose?
    ensures x in states[i + 1].onFly && OnlyIn(states[i + 1].loop, j, x)
  {
    RunsKeepExclusion(states, events, i + 1);
    assert Transition(states[i], events[i], states[i + 1]);
    BatchStays(states[i], events[i], j, x);
    hide IsRun, Transition, Enabled, Apply, LoopInv, UniqueIds, Stranded, InFlightIds;
    InOneBatch(states[i + 1].loop, states[i + 1].onFly, Stranded(states, events, i + 1), j, x);
  }

  lemma BatchStays(e: Engine, ev: Event, j: nat, x: Id)
    requires Enabled(e, ev) && (ev.Schedule? || ev.Compose?) && InBatch(e.loop, j, x)
    ensures InBatch(Apply(e, ev).loop, j, x)
  {
    hide RunScans, NewBatch, BudgetHeld, Follows, AllChosen, FinalMarks, UniqueIds;
  }

  lemma InOneBatch(l: Loop, onFly: set<Id>, lost: set<Id>, j: nat, x: Id)
    requires Exclusive(l, onFly, lost) && InBatch(l, j, x)
    ensures x in onFly && OnlyIn(l, j, x)
  {
    hide InBatch;
  }

  ghost predicate OnlyIn(l: Loop, j: nat, x: Id) {
    InBatch(l, j, x) && forall k | InBatch(l, k, x) :: k == j
  }

  /** In every run the two task lists stay in step, and two live tasks never work on the same
      context: there are at most ten of them, and as many batches in flight. */
  lemma OneTaskPerContext(states: seq<Engine>, events: seq<Event>, i: nat, k1: nat, k2: nat)
    requires IsRun(states, events) && i < |states| && Live(states[i].loop, k1) && Live(states[i].loop, k2)
    ensures var l := states[i].loop;
      && l.log[k1].ctx < |l.tasks| == |l.inProgress| <= MAX_BATCH_NUM
      && (l.log[k1].ctx == l.log[k2].ctx ==> k1 == k2)
  {
    RunsKeepExclusion(states, events, i);
  }
}
