/** How schedules alone fill the running queue beyond `max_num_seqs`: each context's schedule
    counts only its own batch, so two contexts put two groups there, and the next schedule that
    finds both free takes both and fails. */
module BudgetOverrun {
  import opened SchedulerSpec
  import opened EngineRuns
  import Proofs = SchedulerProofs
  import Limits = SchedulerBudget

  /** One sequence at a time, and room for two tokens. */
  predicate OneSequence(cfg: Config) {
    && cfg.chunking && cfg.maxNumSeqs == 1 && cfg.scheduleLimit >= 2 && cfg.decodeTokenLimit >= 2.0
    && cfg.maxNumBatchedTokens >= 2 && !cfg.useAsyncOutputProc && !cfg.loraEnabled
  }

  function NewGroup(id: Id): Group { Group(id, true, 1, 1, 0) }

  function Env0(): Env { Limits.Generous() }

  function StartBooks(cfg: Config, onFly: set<Id>, clock: nat): Books {
    Books(onFly, FreshBudget(cfg), {}, clock, 0, 0)
  }

  /** A group on the fly is parked. */
  lemma ParksRunning(cfg: Config, running: seq<Group>, b: Books)
    requires OneSequence(cfg) && |running| <= 1 && (forall g | g in running :: g.id in b.onFly)
    requires b.count == 0 && b.tokens == 0
    ensures RunScan(Env0(), cfg, running, b)
         == RunResult(if running == [] then [] else [Verdict(running[0], Reserved, 0)], [], [], b)
  {
    if running != [] {
      assert RunScan(Env0(), cfg, running[1..], b) == RunResult([], [], [], b);
    }
  }

  /** The budget has room for one waiting group. */
  lemma AdmitsOne(cfg: Config, id: Id, rest: seq<Group>, b: Books) returns (after: Books)
    requires OneSequence(cfg) && id !in b.onFly && b.budget == FreshBudget(cfg) && b.count == 0 && b.tokens == 0
    requires |rest| <= 1 && forall g | g in rest :: g.id !in b.onFly && g.id != id && g.numSeqs == 1
    ensures QueueScan(Waiting, Env0(), cfg, [NewGroup(id)] + rest, b)
         == ScanResult([Verdict(NewGroup(id), Prefill, 1)], rest, after)
    ensures after.onFly == b.onFly + {id} && after.budget.batched <= cfg.maxNumBatchedTokens && after.budget.seqs <= 1
  {
    var g, q := NewGroup(id), [NewGroup(id)] + rest;
    var j := JudgeWaiting(Env0(), cfg, g, b);
    assert j == Go(Prefill, 1, ChooseNew(cfg, b.Tick(), g, Tokens(1, 0)));
    after := j.books;
    assert q[0] == g && q[1..] == rest;
    if rest != [] {
      assert JudgeWaiting(Env0(), cfg, rest[0], after) == Stop;
    }
    assert QueueScan(Waiting, Env0(), cfg, rest, after) == ScanResult([], rest, after);
  }

  /** So a schedule over a running queue in flight moves one waiting group to it, as its batch. */
  lemma SchedulesOne(cfg: Config, running: seq<Group>, id: Id, rest: seq<Group>, onFly: set<Id>, clock: nat)
    requires OneSequence(cfg) && |running| <= 1 && |rest| <= 1 && id !in onFly
    requires forall g | g in running :: g.id in onFly
    requires forall g | g in rest :: g.id !in onFly && g.id != id && g.numSeqs == 1
    ensures var s := RunScans(Env0(), cfg, Queues([NewGroup(id)] + rest, running, []), onFly, clock);
      && BudgetHeld(cfg, s) && s.wait.books.onFly == onFly + {id}
      && NewBatch(s) == [Scheduled(NewGroup(id), 1)]
      && NewQueues(Env0(), s) == Queues(rest, running + [NewGroup(id)], [])
  {
    var b := StartBooks(cfg, onFly, clock);
    var s := RunScans(Env0(), cfg, Queues([NewGroup(id)] + rest, running, []), onFly, clock);
    ParksRunning(cfg, running, b);
    assert s.swap == ScanResult([], [], b.NewScan());
    var after := AdmitsOne(cfg, id, rest, b.NewScan());
    assert s.wait == ScanResult([Verdict(NewGroup(id), Prefill, 1)], rest, after);
    hide RunScan, QueueScan;
    Merged(s, running, NewGroup(id), rest);
  }

  lemma Merged(s: Scans, running: seq<Group>, g: Group, rest: seq<Group>)
    requires |running| <= 1
    requires s.run.scanned == (if running == [] then [] else [Verdict(running[0], Reserved, 0)])
    requires s.run.rest == [] && s.run.victims == [] && s.swap.scanned == [] && s.swap.rest == []
    requires s.wait.scanned == [Verdict(g, Prefill, 1)] && s.wait.rest == rest
    ensures NewBatch(s) == [Scheduled(g, 1)]
    ensures NewQueues(Env0(), s) == Queues(rest, running + [g], [])
  {
    var v := Verdict(g, Prefill, 1);
    assert [v][1..] == [];
    assert Batch([v], Prefill) == [Scheduled(g, 1)] && GroupsOf([Scheduled(g, 1)]) == [g];
    ParkedBack(s.run, running);
    assert Batch(s.run.scanned, Prefill) == [] && Batch(s.run.scanned, Decode) == [];
  }

  lemma ParkedBack(r: RunResult, running: seq<Group>)
    requires |running| <= 1 && r.rest == []
    requires r.scanned == (if running == [] then [] else [Verdict(running[0], Reserved, 0)])
    ensures RunningAfter(r) == running
  {
    if running != [] {
      assert r.scanned[1..] == [] && Picked(r.scanned[1..], Reserved) == [];
      assert [running[0]] + [] == running;
    }
  }

  // ---------------------------------------------------------------- the run

  function TwoTasks(p: Phase, q: Phase): Loop { Loop([Task(0, p), Task(1, q)], [0, 1], [true, true], 2) }

  lemma FirstPass(l: Loop)
    requires l == Loop([], [], [], 1)
    ensures LoopInv(l) && Pass(l, 2) == TwoTasks(Created, Created)
  {
    var l1 := SpawnUpTo(Loop([], [], [], 2), 2);
    assert l1 == Spawn(Spawn(Loop([], [], [], 2), 0), 1);
    assert l1 == TwoTasks(Created, Created);
    assert Prepare(l, 2) == l1;
    assert Visit(l1, 0, 2) == l1 && Visit(l1, 1, 2) == l1;
    assert VisitFrom(l1, 2, 2) == l1 && VisitFrom(l1, 1, 2) == l1;
  }

  /** After both tasks are over, a pass gives each context a new one. */
  lemma SecondPass(l: Loop)
    requires l == TwoTasks(Over, Over)
    ensures LoopInv(l)
    ensures Pass(l, 2) == Loop(l.log + [Task(0, Created), Task(1, Created)], [2, 3], [true, true], 2)
  {
    var l1, l2 := Visit(l, 0, 2), Visit(Visit(l, 0, 2), 1, 2);
    assert Prepare(l, 2) == l;
    assert l1 == Loop(l.log + [Task(0, Created)], [2, 1], [true, true], 2);
    assert l1.log[1] == Task(1, Over);
    assert l2.log == l.log + [Task(0, Created), Task(1, Created)];
    assert VisitFrom(l2, 2, 2) == l2 && VisitFrom(l1, 1, 2) == l2;
  }

  function Start(a: Id, b: Id): Engine {
    Engine(Loop([], [], [], 1), Queues([NewGroup(a), NewGroup(b)], [], []), {}, 0)
  }

  lemma StartsUnique(a: Id, b: Id)
    requires a != b
    ensures Init(Start(a, b))
  {}

  /** One task's schedule of the only admissible waiting group. */
  lemma TaskSchedules(cfg: Config, l: Loop, k: nat, running: seq<Group>, id: Id, rest: seq<Group>, onFly: set<Id>,
                      clock: nat)
    returns (e': Engine)
    requires OneSequence(cfg) && |running| <= 1 && |rest| <= 1 && id !in onFly
    requires forall g | g in running :: g.id in onFly
    requires forall g | g in rest :: g.id !in onFly && g.id != id && g.numSeqs == 1
    requires k < |l.log| && l.log[k].phase.Created?
    ensures var e := Engine(l, Queues([NewGroup(id)] + rest, running, []), onFly, clock);
      var ev := Schedule(k, Env0(), cfg, false);
      && Transition(e, ev, e') && !Fails(e, ev)
      && e'.loop == SetPhase(l, k, InFlight([id])) && e'.queues == Queues(rest, running + [NewGroup(id)], [])
      && e'.onFly == onFly + {id}
  {
    var e, ev := Engine(l, Queues([NewGroup(id)] + rest, running, []), onFly, clock), Schedule(k, Env0(), cfg, false);
    SchedulesOne(cfg, running, id, rest, onFly, clock);
    assert Proofs.IdsOf([Scheduled(NewGroup(id), 1)]) == [id];
    hide RunScans, NewBatch, NewQueues, BudgetHeld, Limits.Generous;
    e' := Apply(e, ev);
  }

  /** Two contexts take one group each. */
  lemma BothSchedule(cfg: Config, l: Loop, a: Id, b: Id) returns (e1: Engine, e2: Engine)
    requires OneSequence(cfg) && a != b && l == TwoTasks(Created, Created)
    ensures var e, g, h := Engine(l, Queues([NewGroup(a), NewGroup(b)], [], []), {}, 0), NewGroup(a), NewGroup(b);
      var ev1, ev2 := Schedule(0, Env0(), cfg, false), Schedule(1, Env0(), cfg, false);
      && Transition(e, ev1, e1) && !Fails(e, ev1) && Transition(e1, ev2, e2) && !Fails(e1, ev2)
      && e2.loop == TwoTasks(InFlight([a]), InFlight([b])) && e2.queues == Queues([], [g, h], []) && e2.onFly == {a, b}
  {
    hide Transition, Fails, OneSequence, Limits.Generous;
    var g, h := NewGroup(a), NewGroup(b);
    assert [g] + [h] == [g, h] && [h] + [] == [h] && [] + [g] == [g] && {} + {a} == {a} && {a} + {b} == {a, b};
    e1 := TaskSchedules(cfg, l, 0, [], a, [h], {}, 0);
    e2 := TaskSchedules(cfg, e1.loop, 1, [g], b, [], {a}, e1.clock);
  }

  lemma SixSteps(s: seq<Engine>, evs: seq<Event>)
    requires |s| == 7 && |evs| == 6 && Init(s[0])
    requires Transition(s[0], evs[0], s[1]) && Transition(s[1], evs[1], s[2]) && Transition(s[2], evs[2], s[3])
    requires Transition(s[3], evs[3], s[4]) && Transition(s[4], evs[4], s[5]) && Transition(s[5], evs[5], s[6])
    ensures IsRun(s, evs)
  {
    hide Transition, Init;
  }

  ghost predicate ByTasksAlone(states: seq<Engine>, events: seq<Event>)
    requires |states| == |events| + 1
  {
    forall j | 0 <= j < |events| :: !events[j].Evolve? && !events[j].Compose? && !Fails(states[j], events[j])
  }

  lemma SixEvents(cfg: Config, a: Id, b: Id) returns (s: seq<Engine>, evs: seq<Event>)
    requires OneSequence(cfg) && a != b
    ensures IsRun(s, evs) && s[0] == Start(a, b) && |evs| == 6 && ByTasksAlone(s, evs)
    ensures |s| == 7 && s[6].queues == Queues([], [NewGroup(a), NewGroup(b)], []) && s[6].onFly == {}
    ensures |s[6].loop.log| == 4 && s[6].loop.log[2] == Task(0, Created)
  {
    hide Transition, Init, IsRun, ByTasksAlone, Fails, Pass, LoopInv, OneSequence;
    var s0 := Start(a, b);
    StartsUnique(a, b);
    FirstPass(s0.loop);
    var s1 := s0.(loop := TwoTasks(Created, Created));
    var s2, s3 := BothSchedule(cfg, s1.loop, a, b);
    var s4 := Engine(TwoTasks(Over, InFlight([b])), s3.queues, {b}, s3.clock);
    var s5 := Engine(TwoTasks(Over, Over), s3.queues, {}, s3.clock);
    BothComplete(s3, s4, s5, a, b);
    SecondPass(s5.loop);
    var s6 := s5.(loop := Pass(s5.loop, 2));
    PassSteps(s0, s1, s5, s6);
    s := [s0, s1, s2, s3, s4, s5, s6];
    evs := [LoopPass(2), Schedule(0, Env0(), cfg, false), Schedule(1, Env0(), cfg, false), Complete(0), Complete(1),
            LoopPass(2)];
    SixSteps(s, evs);
    NoFailures(s, evs);
  }

  lemma NoFailures(s: seq<Engine>, evs: seq<Event>)
    requires |s| == 7 && |evs| == 6 && !Fails(s[1], evs[1]) && !Fails(s[2], evs[2])
    requires evs[0].LoopPass? && evs[1].Schedule? && evs[2].Schedule?
    requires evs[3].Complete? && evs[4].Complete? && evs[5].LoopPass?
    ensures ByTasksAlone(s, evs)
  {
    hide ScansOf, BudgetHeld;
    forall j | 0 <= j < 6 ensures !evs[j].Evolve? && !evs[j].Compose? && !Fails(s[j], evs[j]) {
      if j != 1 && j != 2 { assert j == 0 || j == 3 || j == 4 || j == 5; }
    }
  }

  /** Schedules alone reach it: two contexts take one group each within their limit, both complete,
      and then more groups can be chosen than `max_num_seqs`; there is a schedule within the
      contract that fails and strands requests. */
  lemma TwoContextsOverrun(cfg: Config, a: Id, b: Id) returns (states: seq<Engine>, events: seq<Event>, ev: Event)
    requires OneSequence(cfg) && a != b
    ensures IsRun(states, events) && states[0] == Start(a, b) && |events| == 6 && ByTasksAlone(states, events)
    ensures Enabled(states[6], ev) && ev.Schedule? && ev.cfg == cfg && Contract(states[6], ev)
    ensures Strands(states[6], ev) != {}
  {
    hide IsRun, ByTasksAlone, Enabled, Contract, Strands, Start, Limits.MostChosen, Limits.SingleSequence;
    states, events := SixEvents(cfg, a, b);
    BothChosen(cfg, NewGroup(a), NewGroup(b));
    ev := RoomNeeded(states, events, 6, 2, cfg);
  }

  lemma PassSteps(s0: Engine, s1: Engine, s5: Engine, s6: Engine)
    requires LoopInv(s0.loop) && LoopInv(s5.loop)
    requires s1 == s0.(loop := Pass(s0.loop, 2)) && s6 == s5.(loop := Pass(s5.loop, 2))
    ensures Transition(s0, LoopPass(2), s1) && Transition(s5, LoopPass(2), s6)
  {
    hide Pass;
  }

  lemma BothComplete(s3: Engine, s4: Engine, s5: Engine, a: Id, b: Id)
    requires a != b && s3.loop == TwoTasks(InFlight([a]), InFlight([b])) && s3.onFly == {a, b}
    requires s4 == Engine(TwoTasks(Over, InFlight([b])), s3.queues, {b}, s3.clock)
    requires s5 == Engine(TwoTasks(Over, Over), s3.queues, {}, s3.clock)
    ensures Transition(s3, Complete(0), s4) && Transition(s4, Complete(1), s5)
  {
    assert Elems([a]) == {a} && Elems([b]) == {b};
    assert {a, b} - {a} == {b} && {b} - {b} == {};
    assert s3.loop.log[0 := Task(0, Over)] == s4.loop.log && s4.loop.log[1 := Task(1, Over)] == s5.loop.log;
  }

  lemma BothChosen(cfg: Config, g: Group, h: Group)
    requires OneSequence(cfg) && g.numSeqs == 1 && h.numSeqs == 1
    ensures Limits.MostChosen(cfg, [g, h], {}) == 2 && Limits.SingleSequence([g, h])
  {
    var q := [g, h];
    assert q[1..] == [h] && [h][1..] == [];
    assert Limits.Eligible(cfg, [h], {}) == 1 + Limits.Eligible(cfg, [], {});
    assert Limits.Eligible(cfg, q, {}) == 1 + Limits.Eligible(cfg, q[1..], {});
    assert cfg.decodeTokenLimit.Floor >= 2;
  }
}
