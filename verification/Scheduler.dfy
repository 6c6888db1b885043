/** The on-the-fly scheduler itself: queues, set of requests on the fly and budget updated
    in place, proved equal to the functions of SchedulerSpec.dfy. */
module Scheduler {
  import opened SchedulerSpec
  import Proofs = SchedulerProofs

  /** The contract taken for vLLM's budget object: a request is charged once, and what it has been
      charged can be taken back once. */
  class SchedulingBudget {
    const tokenBudget: nat
    const maxNumSeqs: nat
    var tokenIds: set<Id>
    var seqIds: set<Id>
    var numBatchedTokens: int
    var numCachedTokens: int
    var numCurrSeqs: int

    constructor (tokenBudget: nat, maxNumSeqs: nat)
      ensures Value() == Budget(tokenBudget, maxNumSeqs, {}, {}, 0, 0, 0)
    {
      this.tokenBudget, this.maxNumSeqs := tokenBudget, maxNumSeqs;
      tokenIds, seqIds := {}, {};
      numBatchedTokens, numCachedTokens, numCurrSeqs := 0, 0, 0;
    }

    function Value(): Budget
      reads this
    {
      Budget(tokenBudget, maxNumSeqs, tokenIds, seqIds, numBatchedTokens, numCachedTokens, numCurrSeqs)
    }

    method AddNumBatchedTokens(id: Id, n: nat, cached: nat)
      modifies this
      ensures Value() == old(Value()).AddTokens(id, n, cached)
      ensures if id !in old(tokenIds)
              then numBatchedTokens == old(numBatchedTokens) + n && numCachedTokens == old(numCachedTokens) + cached
              else Value() == old(Value())
    {
      if id !in tokenIds {
        tokenIds := tokenIds + {id};
        numBatchedTokens := numBatchedTokens + n;
        numCachedTokens := numCachedTokens + cached;
      }
    }

    method SubtractNumBatchedTokens(id: Id, n: nat)
      modifies this
      ensures Value() == old(Value()).SubtractTokens(id, n)
      ensures if id in old(tokenIds) then numBatchedTokens == old(numBatchedTokens) - n
              else Value() == old(Value())
    {
      if id in tokenIds {
        tokenIds := tokenIds - {id};
        numBatchedTokens := numBatchedTokens - n;
      }
    }

    method AddNumSeqs(id: Id, n: nat)
      modifies this
      ensures Value() == old(Value()).AddSeqs(id, n)
      ensures if id !in old(seqIds) then numCurrSeqs == old(numCurrSeqs) + n
              else Value() == old(Value())
    {
      if id !in seqIds {
        seqIds := seqIds + {id};
        numCurrSeqs := numCurrSeqs + n;
      }
    }

    method SubtractNumSeqs(id: Id, n: nat)
      modifies this
      ensures Value() == old(Value()).SubtractSeqs(id, n)
      ensures if id in old(seqIds) then numCurrSeqs == old(numCurrSeqs) - n
              else Value() == old(Value())
    {
      if id in seqIds {
        seqIds := seqIds - {id};
        numCurrSeqs := numCurrSeqs - n;
      }
    }
  }

  datatype StepResult = AssertionFailed | Done(output: Output)

  /** The lists a scan files its victims in. */
  datatype Evictions = Evictions(preempted: seq<Group>, swappedOut: seq<Group>, freed: seq<Group>)
  {
    function Plus(e: Evictions): Evictions {
      Evictions(preempted + e.preempted, swappedOut + e.swappedOut, freed + e.freed)
    }

    function File(v: Verdict): Evictions {
      match v.kind
      case Preempted => this.(preempted := preempted + [v.group])
      case SwappedOut => this.(swappedOut := swappedOut + [v.group])
      case Finished => this.(freed := freed + [v.group])
      case _ => this
    }
  }

  function FileVictims(victims: seq<Verdict>): Evictions {
    Evictions(Picked(victims, Preempted), Picked(victims, SwappedOut), Picked(victims, Finished))
  }

  lemma FileVictimsAppend(a: seq<Verdict>, b: seq<Verdict>)
    ensures FileVictims(a + b) == FileVictims(a).Plus(FileVictims(b))
  {
    Proofs.PickedAppend(a, b, Preempted);
    Proofs.PickedAppend(a, b, SwappedOut);
    Proofs.PickedAppend(a, b, Finished);
  }

  lemma FileVictimsLast(victims: seq<Verdict>, v: Verdict)
    ensures FileVictims(victims + [v]) == FileVictims(victims).File(v)
  {
    PickedLast(victims, v, Preempted);
    PickedLast(victims, v, SwappedOut);
    PickedLast(victims, v, Finished);
  }

  /** The lists a scan files the groups in that it took from the front. A leftover goes to
      the left end of its list. */
  datatype Files = Files(decodes: seq<Scheduled>, prefills: seq<Scheduled>, rejected: seq<Group>,
                         stopped: seq<Group>, reserve: seq<Group>, leftover: seq<Group>)
  {
    function File(v: Verdict): Files {
      match v.kind
      case Decode => this.(decodes := decodes + [Scheduled(v.group, v.chunk)])
      case Prefill => this.(prefills := prefills + [Scheduled(v.group, v.chunk)])
      case Rejected => this.(rejected := rejected + [v.group])
      case Stopped => this.(stopped := stopped + [v.group])
      case Reserved => this.(reserve := reserve + [v.group])
      case Leftover => this.(leftover := [v.group] + leftover)
      case _ => this
    }
  }

  function FileScanned(scanned: seq<Verdict>): Files {
    Files(Batch(scanned, Decode), Batch(scanned, Prefill), Picked(scanned, Rejected),
          Picked(scanned, Stopped), Picked(scanned, Reserved), Reverse(Picked(scanned, Leftover)))
  }

  lemma PickedLast(scanned: seq<Verdict>, v: Verdict, k: Kind)
    ensures Picked(scanned + [v], k) == Picked(scanned, k) + if v.kind == k then [v.group] else []
    ensures Batch(scanned + [v], k) == Batch(scanned, k) + if v.kind == k then [Scheduled(v.group, v.chunk)] else []
  {
    Proofs.PickedAppend(scanned, [v], k);
    Proofs.BatchAppend(scanned, [v], k);
  }

  lemma FileScannedLast(scanned: seq<Verdict>, v: Verdict)
    ensures FileScanned(scanned + [v]) == FileScanned(scanned).File(v)
  {
    PickedLast(scanned, v, Decode);
    PickedLast(scanned, v, Prefill);
    PickedLast(scanned, v, Rejected);
    PickedLast(scanned, v, Stopped);
    PickedLast(scanned, v, Reserved);
    LeftoverLast(scanned, v);
  }

  lemma FileNothing()
    ensures FileVictims([]) == Evictions([], [], []) && FileScanned([]) == Files([], [], [], [], [], [])
  {}

  lemma LeftoverLast(scanned: seq<Verdict>, v: Verdict)
    ensures Reverse(Picked(scanned + [v], Leftover))
         == (if v.kind.Leftover? then [v.group] else []) + Reverse(Picked(scanned, Leftover))
  {
    PickedLast(scanned, v, Leftover);
    var one := [v.group];
    assert Reverse(one) == Reverse(one[1..]) + one && one[1..] == [];
    Proofs.ReverseAppend(Picked(scanned, Leftover), one);
    if !v.kind.Leftover? {
      assert Picked(scanned, Leftover) + [] == Picked(scanned, Leftover);
    }
  }

  /** One more victim: the rest of the search still completes the whole. */
  lemma RoomStep(env: Env, cfg: Config, g: Group, n: nat, tail: seq<Group>, b: Books, victims: seq<Verdict>)
    requires !env.canAppend(b.clock, g) && tail != []
    ensures var v := Verdict(tail[|tail| - 1], EvictKind(env, cfg, b.clock, tail[|tail| - 1]), 0);
      MakeRoom(env, cfg, g, n, tail, b).After(victims)
      == MakeRoom(env, cfg, g, n, tail[..|tail| - 1], b.Release(g, n).Tick()).After(victims + [v])
  {
    var v := Verdict(tail[|tail| - 1], EvictKind(env, cfg, b.clock, tail[|tail| - 1]), 0);
    var r := MakeRoom(env, cfg, g, n, tail[..|tail| - 1], b.Release(g, n).Tick());
    assert victims + ([v] + r.victims) == (victims + [v]) + r.victims;
  }

  lemma RoomEnds(env: Env, cfg: Config, g: Group, n: nat, tail: seq<Group>, b: Books, victims: seq<Verdict>)
    requires env.canAppend(b.clock, g) || tail == []
    ensures MakeRoom(env, cfg, g, n, tail, b).After(victims)
         == if env.canAppend(b.clock, g) then Room(victims, tail, true, b.Tick())
            else Room(victims + [Verdict(g, EvictKind(env, cfg, b.clock, g), 0)], [], false, b.Release(g, n).Tick())
  {
    assert victims + [] == victims;
  }

  lemma RunScanStep(env: Env, cfg: Config, q: seq<Group>, b: Books, scanned: seq<Verdict>, victims: seq<Verdict>)
    requires q != [] && JudgeRunning(env, cfg, q[0], q[1..], b).Take?
    ensures var j := JudgeRunning(env, cfg, q[0], q[1..], b);
      RunScan(env, cfg, q, b).After(scanned, victims)
      == RunScan(env, cfg, j.tail, j.books).After(scanned + [j.verdict], victims + j.victims)
  {
    var j := JudgeRunning(env, cfg, q[0], q[1..], b);
    var r := RunScan(env, cfg, j.tail, j.books);
    assert scanned + ([j.verdict] + r.scanned) == (scanned + [j.verdict]) + r.scanned;
    assert victims + (j.victims + r.victims) == (victims + j.victims) + r.victims;
  }

  lemma QueueScanStep(which: Queue, env: Env, cfg: Config, q: seq<Group>, b: Books, scanned: seq<Verdict>)
    requires q != [] && Judge(which, env, cfg, q[0], b).Go?
    ensures var j := Judge(which, env, cfg, q[0], b);
      QueueScan(which, env, cfg, q, b).After(scanned)
      == QueueScan(which, env, cfg, q[1..], j.books).After(scanned + [Verdict(q[0], j.kind, j.chunk)])
  {
    var j := Judge(which, env, cfg, q[0], b);
    var v, r := Verdict(q[0], j.kind, j.chunk), QueueScan(which, env, cfg, q[1..], j.books);
    assert scanned + ([v] + r.scanned) == (scanned + [v]) + r.scanned;
  }

  lemma {:induction false} ReverseTwice<T>(s: seq<T>)
    ensures Reverse(Reverse(s)) == s
  {
    if s != [] {
      ReverseTwice(s[1..]);
      Proofs.ReverseAppend(Reverse(s[1..]), [s[0]]);
    }
  }

  /** Pops a parked queue from its right end, pushing on the left of `q`. */
  method PushBack(reserve: seq<Group>, q: seq<Group>) returns (r: seq<Group>)
    ensures r == reserve + q
  {
    r := q;
    var left := reserve;
    while |left| > 0
      invariant left + r == reserve + q
    {
      var sg := left[|left| - 1];
      left := left[..|left| - 1];
      r := [sg] + r;
    }
  }

  /** Python's deque.extendleft. */
  method ExtendLeft(q: seq<Group>, items: seq<Group>) returns (r: seq<Group>)
    ensures r == Reverse(items) + q
  {
    r := q;
    for i := 0 to |items|
      invariant r == Reverse(items[..i]) + q
    {
      Proofs.ReverseAppend(items[..i], [items[i]]);
      assert items[..i + 1] == items[..i] + [items[i]];
      r := [items[i]] + r;
    }
    assert items[..|items|] == items;
  }

  /** Parked groups go back in front of what was not looked at, and leftovers in front of both. */
  method PutBack(q: seq<Group>, files: Files, ghost r: ScanResult) returns (q': seq<Group>)
    requires q == r.rest && files == FileScanned(r.scanned)
    ensures q' == QueueAfter(r)
  {
    hide Picked, Batch;
    q' := PushBack(files.reserve, q);
    ReverseTwice(Picked(r.scanned, Leftover));
    q' := ExtendLeft(q', files.leftover);
  }

  class MolinkScheduler {
    const env: Env
    var config: Config
    var waiting: seq<Group>
    var running: seq<Group>
    var swapped: seq<Group>
    var requestsOnFly: set<Id>
    var asyncStopped: seq<Group>
    var clock: nat  // questions put to the environment so far

    constructor (env: Env, config: Config)
      ensures this.env == env
      ensures this.config == config.(scheduleLimit := 10, decodeTokenLimit := config.maxNumBatchedTokens as real)
      ensures waiting == [] && running == [] && swapped == [] && requestsOnFly == {} && asyncStopped == [] && clock == 0
    {
      this.env := env;
      this.config := config.(scheduleLimit := 10, decodeTokenLimit := config.maxNumBatchedTokens as real);
      waiting, running, swapped, asyncStopped := [], [], [], [];
      requestsOnFly := {};
      clock := 0;
    }

    method SetScheduleLimit(limit: int)
      modifies `config
      ensures config == old(config).(scheduleLimit := limit)
    {
      config := config.(scheduleLimit := limit);
    }

    method SetScheduleLimitChunkedPrefill(decodeTokens: real, prefillTokens: nat)
      modifies `config
      ensures config == old(config).(decodeTokenLimit := decodeTokens, maxNumBatchedTokens := prefillTokens)
    {
      config := config.(decodeTokenLimit := decodeTokens, maxNumBatchedTokens := prefillTokens);
    }

    method MarkSeqAsScheduleFree(id: Id)
      modifies `requestsOnFly
      ensures requestsOnFly == old(requestsOnFly) - {id}
    {
      if id in requestsOnFly {
        requestsOnFly := requestsOnFly - {id};
      }
    }

    ghost function BooksNow(budget: SchedulingBudget, loras: set<nat>, count: nat, tokens: nat): Books
      reads `requestsOnFly, `clock, budget
    {
      Books(requestsOnFly, budget.Value(), loras, clock, count, tokens)
    }

    /** The inner loop of the running scan: preempts until a slot can be appended for `g`. */
    method FindRoom(g: Group, n: nat, budget: SchedulingBudget, currLoras: set<nat>,
                    ghost count: nat, ghost tokens: nat)
      returns (fits: bool, loras: set<nat>, evicted: Evictions)
      modifies `running, `clock, budget
      ensures
        var room := MakeRoom(env, config, g, n, old(running), old(BooksNow(budget, currLoras, count, tokens)));
        && fits == room.fits && running == room.tail && evicted == FileVictims(room.victims)
        && BooksNow(budget, loras, count, tokens) == room.books
    {
      FileNothing();
      hide Picked, MakeRoom, EvictKind;
      loras, evicted := currLoras, Evictions([], [], []);
      ghost var whole := MakeRoom(env, config, g, n, running, BooksNow(budget, currLoras, count, tokens));
      ghost var victims: seq<Verdict> := [];
      while true
        invariant whole == MakeRoom(env, config, g, n, running, BooksNow(budget, loras, count, tokens)).After(victims)
        invariant evicted == FileVictims(victims)
        decreases |running|
      {
        ghost var now := BooksNow(budget, loras, count, tokens);
        if env.canAppend(clock, g) {
          RoomEnds(env, config, g, n, running, now, victims);
          clock := clock + 1;
          fits := true;
          break;
        }
        loras := ReleaseCharge(g, n, budget, loras, count, tokens);
        var contLoop, victim := true, g;
        if |running| > 0 {
          RoomStep(env, config, g, n, running, now, victims);
          victim := running[|running| - 1];
          running := running[..|running| - 1];
        } else {
          RoomEnds(env, config, g, n, running, now, victims);
          contLoop := false;
        }
        ghost var v := Verdict(victim, EvictKind(env, config, clock, victim), 0);
        FileVictimsLast(victims, v);
        evicted := Evict(victim, evicted);
        victims := victims + [v];
        clock := clock + 1;
        if !contLoop {
          fits := false;
          break;
        }
      }
    }

    /** Takes back what a group has been charged. */
    method ReleaseCharge(g: Group, n: nat, budget: SchedulingBudget, currLoras: set<nat>,
                         ghost count: nat, ghost tokens: nat)
      returns (loras: set<nat>)
      modifies budget
      ensures BooksNow(budget, loras, count, tokens) == old(BooksNow(budget, currLoras, count, tokens)).Release(g, n)
    {
      loras := currLoras;
      budget.SubtractNumBatchedTokens(g.id, n);
      budget.SubtractNumSeqs(g.id, g.numSeqs);
      if g.lora > 0 && g.lora in loras {
        loras := loras - {g.lora};
      }
    }

    /** Lets a victim's pending outputs be processed first; a victim that turns out finished
        is freed, any other one preempted. */
    method Evict(victim: Group, evicted: Evictions) returns (r: Evictions)
      ensures r == evicted.File(Verdict(victim, EvictKind(env, config, clock, victim), 0))
    {
      r := evicted;
      var doPreempt := true;
      if config.useAsyncOutputProc && env.finishes(clock, victim) {
        r := evicted.(freed := evicted.freed + [victim]);
        doPreempt := false;
      }
      if doPreempt {
        if env.recompute(clock, victim) {
          r := evicted.(preempted := evicted.preempted + [victim]);
        } else {
          r := evicted.(swappedOut := evicted.swappedOut + [victim]);
        }
      }
    }

    /** Charges the budget for a group of the running queue and marks it as on the fly. */
    method AdmitRunning(g: Group, n: nat, budget: SchedulingBudget, currLoras: set<nat>, count: nat, tokens: nat)
      returns (loras: set<nat>, count': nat, tokens': nat)
      modifies `requestsOnFly, budget
      ensures BooksNow(budget, loras, count', tokens')
           == ChooseRunning(config, old(BooksNow(budget, currLoras, count, tokens)), g, n)
    {
      loras := currLoras;
      budget.AddNumBatchedTokens(g.id, n, 0);
      if config.chunking {
        budget.AddNumSeqs(g.id, g.numSeqs);
      }
      if g.lora > 0 {
        loras := loras + {g.lora};
      }
      requestsOnFly := requestsOnFly + {g.id};
      count' := count + 1;
      tokens' := tokens + 1;
    }

    /** One pass of the loop over the running queue. */
    method StepRunning(budget: SchedulingBudget, currLoras: set<nat>, count: nat, tokens: nat, files: Files)
      returns (go: bool, loras: set<nat>, count': nat, tokens': nat, files': Files, evicted: Evictions)
      requires |running| > 0
      modifies `running, `requestsOnFly, `clock, budget
      ensures
        var j := JudgeRunning(env, config, old(running[0]), old(running[1..]),
                              old(BooksNow(budget, currLoras, count, tokens)));
        && go == j.Take?
        && evicted == FileVictims(if j.Halt? then [] else j.victims)
        && files' == (if j.Take? then files.File(j.verdict) else files)
        && running == (if j.Take? then j.tail else if j.GiveUp? then [] else old(running))
        && BooksNow(budget, loras, count', tokens')
           == (if j.Halt? then old(BooksNow(budget, currLoras, count, tokens)) else j.books)
    {
      FileNothing();
      hide Picked, Batch, MakeRoom, ChooseRunning;
      go, loras, count', tokens', files', evicted := false, currLoras, count, tokens, files, Evictions([], [], []);
      if config.chunking && tokens as real >= config.decodeTokenLimit {
        return;
      } else if count >= config.scheduleLimit {
        return;
      }
      var g := running[0];
      if g.id in requestsOnFly {
        running := running[1..];
        files' := files.(reserve := files.reserve + [g]);
        go := true;
        return;
      }
      var n := env.newTokens(clock, g, budget.tokenBudget - budget.numBatchedTokens).uncached;
      if n == 0 {
        return;
      }
      running := running[1..];
      clock := clock + 1;
      if config.useAsyncOutputProc && g.length > config.maxModelLen {
        files' := files.(stopped := files.stopped + [g]);
        go := true;
        return;
      }
      go, loras, count', tokens', files', evicted := TryAppend(g, n, budget, loras, count, tokens, files);
    }

    /** Finds room for a group that is to run and schedules it, or gives up. */
    method TryAppend(g: Group, n: nat, budget: SchedulingBudget, currLoras: set<nat>, count: nat, tokens: nat,
                     files: Files)
      returns (go: bool, loras: set<nat>, count': nat, tokens': nat, files': Files, evicted: Evictions)
      modifies `running, `requestsOnFly, `clock, budget
      ensures
        var room := MakeRoom(env, config, g, n, old(running), old(BooksNow(budget, currLoras, count, tokens)));
        && go == room.fits && evicted == FileVictims(room.victims)
        && files' == (if go then files.File(RunVerdict(g, n)) else files)
        && running == (if go then room.tail else [])
        && BooksNow(budget, loras, count', tokens')
           == (if go then ChooseRunning(config, room.books, g, n) else room.books)
    {
      hide MakeRoom, ChooseRunning, Picked;
      count', tokens', files' := count, tokens, files;
      MakeRoomEmpties(env, config, g, n, running, BooksNow(budget, currLoras, count, tokens));
      go, loras, evicted := FindRoom(g, n, budget, currLoras, count, tokens);
      if go {
        if g.isPrefill {
          files' := files.(prefills := files.prefills + [Scheduled(g, n)]);
        } else {
          files' := files.(decodes := files.decodes + [Scheduled(g, 1)]);
        }
        loras, count', tokens' := AdmitRunning(g, n, budget, loras, count, tokens);
      }
    }

    method ScheduleRunning(budget: SchedulingBudget, currLoras: set<nat>)
      returns (files: Files, evicted: Evictions, loras: set<nat>)
      requires asyncStopped == []
      modifies `running, `requestsOnFly, `asyncStopped, `clock, budget
      ensures
        var r := RunScan(env, config, old(running), old(BooksNow(budget, currLoras, 0, 0)));
        && running == RunningAfter(r) && asyncStopped == Picked(r.scanned, Stopped)
        && files == FileScanned(r.scanned) && evicted == FileVictims(r.victims)
        && BooksNow(budget, loras, r.books.count, r.books.tokens) == r.books
    {
      FileNothing();
      hide Picked, Batch, JudgeRunning;
      loras, files, evicted := currLoras, Files([], [], [], [], [], []), Evictions([], [], []);
      var count, tokens, go := 0, 0, true;
      ghost var whole := RunScan(env, config, running, BooksNow(budget, currLoras, 0, 0));
      ghost var scanned: seq<Verdict>, victims: seq<Verdict> := [], [];
      while go && |running| > 0
        invariant go ==>
                    whole == RunScan(env, config, running, BooksNow(budget, loras, count, tokens))
                             .After(scanned, victims)
        invariant !go ==> whole == RunResult(scanned, running, victims, BooksNow(budget, loras, count, tokens))
        invariant files == FileScanned(scanned) && evicted == FileVictims(victims)
        invariant asyncStopped == []
        decreases go, |running|
      {
        ghost var now, q := BooksNow(budget, loras, count, tokens), running;
        ghost var j := JudgeRunning(env, config, q[0], q[1..], now);
        var more;
        go, loras, count, tokens, files, more := StepRunning(budget, loras, count, tokens, files);
        evicted := evicted.Plus(more);
        if j.Take? {
          RunScanStep(env, config, q, now, scanned, victims);
          FileScannedLast(scanned, j.verdict);
          FileVictimsAppend(victims, j.victims);
          scanned, victims := scanned + [j.verdict], victims + j.victims;
        } else if j.GiveUp? {
          FileVictimsAppend(victims, j.victims);
          victims := victims + j.victims;
        }
      }
      assert whole.scanned == scanned && whole.victims == victims && whole.rest == running by {
        assert scanned + [] == scanned && victims + [] == victims;
      }
      assert [] + files.stopped == files.stopped;
      asyncStopped := asyncStopped + files.stopped;
      running := PushBack(files.reserve, running);
    }
  
    /** Charges the budget for a group of the swapped or waiting queue and marks it. */
    method AdmitNew(g: Group, t: Tokens, budget: SchedulingBudget, currLoras: set<nat>,
                    ghost count: nat, ghost tokens: nat)
      returns (loras: set<nat>)
      modifies `requestsOnFly, budget
      ensures BooksNow(budget, loras, count + 1, tokens + t.uncached)
           == ChooseNew(config, old(BooksNow(budget, currLoras, count, tokens)), g, t)
    {
      loras := currLoras;
      if config.loraEnabled && g.lora > 0 {
        loras := loras + {g.lora};
      }
      budget.AddNumBatchedTokens(g.id, t.uncached, t.cached);
      budget.AddNumSeqs(g.id, g.numSeqs);
      requestsOnFly := requestsOnFly + {g.id};
    }

    /** Tries to swap a group back in. */
    method TrySwapIn(g: Group, budget: SchedulingBudget, currLoras: set<nat>, files: Files,
                     ghost count: nat, ghost tokens: nat)
      returns (go: bool, loras: set<nat>, files': Files, ghost count': nat, ghost tokens': nat)
      modifies `requestsOnFly, `clock, budget
      ensures
        var now := old(BooksNow(budget, currLoras, count, tokens));
        var j := JudgeSwapIn(env, config, g, now);
        && go == j.Go?
        && files' == (if go then files.File(Verdict(g, j.kind, j.chunk)) else files)
        && BooksNow(budget, loras, count', tokens') == (if go then j.books else now)
    {
      hide ChooseNew;
      go, loras, files', count', tokens' := false, currLoras, files, count, tokens;
      var status := env.canSwapIn(clock, g);
      if status == Later {
        return;
      }
      if status == Never {
        files' := files.(rejected := files.rejected + [g]);
        clock := clock + 1;
      } else if config.loraEnabled && g.lora > 0 && g.lora !in loras && |loras| >= config.maxLoras {
        files' := files.(leftover := [g] + files.leftover);
        clock := clock + 1;
      } else {
        var t := env.newTokens(clock, g, budget.tokenBudget - budget.numBatchedTokens);
        if t.uncached == 0 || !budget.Value().CanSchedule(t.uncached, g.numSeqs) {
          return;
        }
        if g.isPrefill {
          files' := files.(prefills := files.prefills + [Scheduled(g, t.uncached + t.cached)]);
        } else {
          files' := files.(decodes := files.decodes + [Scheduled(g, 1)]);
        }
        clock := clock + 1;
        loras := AdmitNew(g, t, budget, loras, count, tokens);
        count', tokens' := count + 1, tokens + t.uncached;
      }
      go := true;
    }

    /** One pass of the loop over the swapped queue. */
    method StepSwapped(budget: SchedulingBudget, currLoras: set<nat>, files: Files, ghost count: nat, ghost tokens: nat)
      returns (go: bool, loras: set<nat>, files': Files, ghost count': nat, ghost tokens': nat)
      requires |swapped| > 0
      modifies `swapped, `requestsOnFly, `clock, budget
      ensures
        var g, now := old(swapped[0]), old(BooksNow(budget, currLoras, count, tokens));
        var j := Judge(Swapped, env, config, g, now);
        && go == j.Go?
        && files' == (if go then files.File(Verdict(g, j.kind, j.chunk)) else files)
        && swapped == (if go then old(swapped[1..]) else old(swapped))
        && BooksNow(budget, loras, count', tokens') == (if go then j.books else now)
    {
      hide JudgeSwapIn;
      var g := swapped[0];
      if g.id in requestsOnFly {
        loras, count', tokens' := currLoras, count, tokens;
        files' := files.(reserve := files.reserve + [g]);
        go := true;
      } else {
        go, loras, files', count', tokens' := TrySwapIn(g, budget, currLoras, files, count, tokens);
      }
      if go {
        swapped := swapped[1..];
      }
    }

    method ScheduleSwapped(budget: SchedulingBudget, currLoras: set<nat>)
      returns (files: Files, loras: set<nat>)
      modifies `swapped, `requestsOnFly, `clock, budget
      ensures
        var r := QueueScan(Swapped, env, config, old(swapped), old(BooksNow(budget, currLoras, 0, 0)));
        && swapped == QueueAfter(r) && files == FileScanned(r.scanned)
        && BooksNow(budget, loras, r.books.count, r.books.tokens) == r.books
    {
      FileNothing();
      hide Picked, Batch, Judge, JudgeSwapped, Reverse;
      loras, files := currLoras, Files([], [], [], [], [], []);
      var go := true;
      ghost var count: nat, tokens: nat := 0, 0;
      ghost var whole := QueueScan(Swapped, env, config, swapped, BooksNow(budget, currLoras, 0, 0));
      ghost var scanned: seq<Verdict> := [];
      while go && |swapped| > 0
        invariant go ==>
                    whole == QueueScan(Swapped, env, config, swapped, BooksNow(budget, loras, count, tokens))
                             .After(scanned)
        invariant !go ==> whole == ScanResult(scanned, swapped, BooksNow(budget, loras, count, tokens))
        invariant files == FileScanned(scanned)
        decreases go, |swapped|
      {
        ghost var now, q := BooksNow(budget, loras, count, tokens), swapped;
        ghost var j := Judge(Swapped, env, config, q[0], now);
        go, loras, files, count, tokens := StepSwapped(budget, loras, files, count, tokens);
        if go {
          QueueScanStep(Swapped, env, config, q, now, scanned);
          FileScannedLast(scanned, Verdict(q[0], j.kind, j.chunk));
          scanned := scanned + [Verdict(q[0], j.kind, j.chunk)];
        } else {
          assert scanned + [] == scanned;
        }
      }
      assert whole.scanned == scanned && whole.rest == swapped by {
        assert scanned + [] == scanned;
      }
      swapped := PutBack(swapped, files, whole);
      assert swapped == QueueAfter(whole);
    }

    /** Tries to put a waiting group in the batch. */
    method TryPrefill(g: Group, budget: SchedulingBudget, currLoras: set<nat>, count: nat, tokens: nat, files: Files)
      returns (go: bool, loras: set<nat>, count': nat, tokens': nat, files': Files)
      modifies `requestsOnFly, `clock, budget
      ensures
        var now := old(BooksNow(budget, currLoras, count, tokens));
        var j := JudgePrefill(env, config, g, now);
        && go == j.Go?
        && files' == (if go then files.File(Verdict(g, j.kind, j.chunk)) else files)
        && BooksNow(budget, loras, count', tokens') == (if go then j.books else now)
    {
      hide ChooseNew;
      go, loras, count', tokens', files' := false, currLoras, count, tokens, files;
      var t := env.newTokens(clock, g, budget.tokenBudget - budget.numBatchedTokens);
      if t.uncached + t.cached > env.promptLimit(clock, g) {
        files' := files.(rejected := files.rejected + [g]);
        clock := clock + 1;
      } else {
        var status := env.canAllocate(clock, g);
        if status == Later {
          return;
        }
        if status == Never {
          files' := files.(rejected := files.rejected + [g]);
          clock := clock + 1;
        } else if config.loraEnabled && g.lora > 0 && g.lora !in loras && |loras| >= config.maxLoras {
          files' := files.(leftover := [g] + files.leftover);
          clock := clock + 1;
        } else {
          if budget.numBatchedTokens >= config.maxNumBatchedTokens {
            return;
          }
          if t.uncached == 0 || !budget.Value().CanSchedule(t.uncached, g.numSeqs) {
            return;
          }
          files' := files.(prefills := files.prefills + [Scheduled(g, t.uncached + t.cached)]);
          clock := clock + 1;
          loras := AdmitNew(g, t, budget, loras, count, tokens);
          count', tokens' := count + 1, tokens + t.uncached;
        }
      }
      go := true;
    }

    /** One pass of the loop over the waiting queue. */
    method StepWaiting(budget: SchedulingBudget, currLoras: set<nat>, count: nat, tokens: nat, files: Files)
      returns (go: bool, loras: set<nat>, count': nat, tokens': nat, files': Files)
      requires |waiting| > 0
      modifies `waiting, `requestsOnFly, `clock, budget
      ensures
        var g, now := old(waiting[0]), old(BooksNow(budget, currLoras, count, tokens));
        var j := Judge(Waiting, env, config, g, now);
        && go == j.Go?
        && files' == (if go then files.File(Verdict(g, j.kind, j.chunk)) else files)
        && waiting == (if go then old(waiting[1..]) else old(waiting))
        && BooksNow(budget, loras, count', tokens') == (if go then j.books else now)
    {
      hide JudgePrefill;
      go, loras, count', tokens', files' := false, currLoras, count, tokens, files;
      if !env.passedDelay(clock) {
        return;
      }
      if config.chunking && tokens >= config.maxNumBatchedTokens {
        return;
      } else if count >= config.scheduleLimit {
        return;
      }
      var g := waiting[0];
      if g.id in requestsOnFly {
        files' := files.(reserve := files.reserve + [g]);
        clock := clock + 1;
        go := true;
      } else if !env.partialPrefillOk(clock, g) {
        files' := files.(leftover := [g] + files.leftover);
        clock := clock + 1;
        go := true;
      } else {
        go, loras, count', tokens', files' := TryPrefill(g, budget, loras, count, tokens, files);
      }
      if go {
        waiting := waiting[1..];
      }
    }

    method SchedulePrefills(budget: SchedulingBudget, currLoras: set<nat>)
      returns (files: Files, loras: set<nat>)
      modifies `waiting, `requestsOnFly, `clock, budget
      ensures
        var now := old(BooksNow(budget, currLoras, 0, 0));
        var r := if now.budget.Remaining() == 0 then Unscanned(old(waiting), now)
                 else QueueScan(Waiting, env, config, old(waiting), now);
        && waiting == QueueAfter(r) && files == FileScanned(r.scanned)
        && BooksNow(budget, loras, r.books.count, r.books.tokens) == r.books
    {
      FileNothing();
      ghost var now0 := BooksNow(budget, currLoras, 0, 0);
      if budget.tokenBudget - budget.numBatchedTokens == 0 {
        loras, files := currLoras, Files([], [], [], [], [], []);
        assert QueueAfter(Unscanned(waiting, now0)) == waiting;
        return;
      }
      hide Picked, Batch, Judge, JudgeWaiting, Reverse;
      loras, files := currLoras, Files([], [], [], [], [], []);
      var count, tokens, go := 0, 0, true;
      ghost var whole := QueueScan(Waiting, env, config, waiting, now0);
      ghost var scanned: seq<Verdict> := [];
      while go && |waiting| > 0
        invariant go ==>
                    whole == QueueScan(Waiting, env, config, waiting, BooksNow(budget, loras, count, tokens))
                             .After(scanned)
        invariant !go ==> whole == ScanResult(scanned, waiting, BooksNow(budget, loras, count, tokens))
        invariant files == FileScanned(scanned)
        decreases go, |waiting|
      {
        ghost var now, q := BooksNow(budget, loras, count, tokens), waiting;
        ghost var j := Judge(Waiting, env, config, q[0], now);
        go, loras, count, tokens, files := StepWaiting(budget, loras, count, tokens, files);
        if go {
          QueueScanStep(Waiting, env, config, q, now, scanned);
          FileScannedLast(scanned, Verdict(q[0], j.kind, j.chunk));
          scanned := scanned + [Verdict(q[0], j.kind, j.chunk)];
        } else {
          assert scanned + [] == scanned;
        }
      }
      assert whole.scanned == scanned && whole.rest == waiting by {
        assert scanned + [] == scanned;
      }
      waiting := PutBack(waiting, files, whole);
      assert waiting == QueueAfter(whole);
    }

    ghost function QueuesNow(): Queues
      reads this
    {
      Queues(waiting, running, swapped)
    }

    /** Puts what the scans took from the queues into the queues where it goes next. */
    method MergeQueues(run: Files, evicted: Evictions, swap: Files, wait: Files)
      modifies `waiting, `running, `swapped
      ensures waiting == Reverse(evicted.preempted) + old(waiting)
      ensures swapped == old(swapped) + evicted.swappedOut
      ensures running == old(running) + GroupsOf(swap.decodes) + GroupsOf(swap.prefills)
                       + GroupsOf(run.decodes) + FinishingFirst(env, run.prefills) + GroupsOf(wait.prefills)
    {
      waiting := ExtendLeft(waiting, evicted.preempted);
      running := running + GroupsOf(swap.decodes);
      running := running + GroupsOf(swap.prefills);
      running := running + GroupsOf(run.decodes);
      running := running + FinishingFirst(env, run.prefills);
      running := running + GroupsOf(wait.prefills);
      swapped := swapped + evicted.swappedOut;
    }

    /** One chunked scheduling step. It fails at once, with nothing changed, if groups stopped by
        an earlier step have not been processed. If one of the two budget assertions fails, the
        exception leaves the queues as the scans left them. */
    method ScheduleChunkedPrefill() returns (result: StepResult)
      modifies this
      ensures config == old(config)
      ensures old(asyncStopped) != [] ==>
                result == AssertionFailed && QueuesNow() == old(QueuesNow()) && clock == old(clock)
                && requestsOnFly == old(requestsOnFly) && asyncStopped == old(asyncStopped)
      ensures old(asyncStopped) == [] ==>
                Stepped(old(QueuesNow()), old(requestsOnFly), old(clock), result)
    {
      if asyncStopped != [] {
        return AssertionFailed;
      }
      result := ScanAndMerge();
    }

    /** What a step that scans makes of the scheduler. */
    ghost predicate Stepped(q: Queues, onFly: set<Id>, clock0: nat, result: StepResult)
      reads this
    {
      var s := RunScans(env, config, q, onFly, clock0);
      && asyncStopped == Picked(s.run.scanned, Stopped)
      && requestsOnFly == s.wait.books.onFly && clock == s.wait.books.clock
      && result == (if BudgetHeld(config, s) then Done(NewOutput(env, s)) else AssertionFailed)
      && QueuesNow() == (if BudgetHeld(config, s) then NewQueues(env, s) else AbandonedQueues(s))
    }

    /** The three scans, the assertions and the merge. */
    method ScanAndMerge() returns (result: StepResult)
      requires asyncStopped == []
      modifies this
      ensures config == old(config) && Stepped(old(QueuesNow()), old(requestsOnFly), old(clock), result)
    {
      FileNothing();
      hide Picked, Batch, RunScan, QueueScan, Reverse, GroupsOf, FinishingFirst, QueueAfter, RunningAfter;
      var budget := new SchedulingBudget(config.maxNumBatchedTokens, config.maxNumSeqs);
      ghost var s := RunScans(env, config, QueuesNow(), requestsOnFly, clock);
      var run, evicted, loras := ScheduleRunning(budget, {});
      var swap := Files([], [], [], [], [], []);
      if |evicted.preempted| + |evicted.swappedOut| == 0 {
        swap, loras := ScheduleSwapped(budget, loras);
      } else {
        Proofs.NothingScanned(swapped, s.swap.books);
      }
      assert swap == FileScanned(s.swap.scanned) && swapped == QueueAfter(s.swap);
      var wait;
      wait, loras := SchedulePrefills(budget, loras);
      if budget.numBatchedTokens > config.maxNumBatchedTokens || budget.numCurrSeqs > config.maxNumSeqs {
        return AssertionFailed;
      }
      MergeQueues(run, evicted, swap, wait);
      var batch := wait.prefills + run.prefills + swap.prefills + run.decodes + swap.decodes;
      result := Done(Output(batch, |wait.prefills| + |swap.prefills| + |run.prefills|,
                            budget.numBatchedTokens + budget.numCachedTokens,
                            wait.rejected + swap.rejected, |running|,
                            |evicted.preempted| + |evicted.swappedOut|));
    }
  }

  lemma {:induction false} MakeRoomEmpties(env: Env, cfg: Config, g: Group, n: nat, tail: seq<Group>, b: Books)
    ensures var r := MakeRoom(env, cfg, g, n, tail, b); !r.fits ==> r.tail == []
  {
    Proofs.MakeRoomShape(env, cfg, g, n, tail, b);
  }
}
