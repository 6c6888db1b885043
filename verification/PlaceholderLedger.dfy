/** The asynchronous v1 scheduler's ledger: a request may be scheduled again before the token
    of its last step is known; placeholders stand for the tokens still to come. */
module PlaceholderLedger {
  import opened Wrappers

  type Id = string

  /** `tokens` counts the known tokens, prompt and output. */
  datatype Request = Request(tokens: nat, computed: nat, placeholders: int, structured: bool)

  /** A scheduled step whose output has not been processed. */
  datatype Step = Step(id: Id, produces: bool)

  datatype Scheduled = Scheduled(id: Id, numTokens: nat)

  datatype Ledger = Ledger(requests: map<Id, Request>, pending: multiset<Step>)

  /** The step reaches the end of what is known or expected, so it will sample a token. */
  predicate Produces(r: Request, n: nat) { r.computed + n == r.tokens + r.placeholders }

  function AfterSchedule(r: Request, n: nat): Request {
    r.(computed := r.computed + n, placeholders := r.placeholders + if Produces(r, n) then 1 else 0)
  }

  function ScheduleAll(rs: map<Id, Request>, batch: seq<Scheduled>): map<Id, Request>
    requires forall s | s in batch :: s.id in rs
    decreases |batch|
  {
    if batch == [] then rs
    else ScheduleAll(rs[batch[0].id := AfterSchedule(rs[batch[0].id], batch[0].numTokens)], batch[1..])
  }

  ghost predicate DistinctIds(batch: seq<Scheduled>) {
    forall i, j | 0 <= i < j < |batch| :: batch[i].id != batch[j].id
  }

  predicate Among(batch: seq<Scheduled>, id: Id) { exists i | 0 <= i < |batch| :: batch[i].id == id }

  lemma AmongTail(batch: seq<Scheduled>, id: Id)
    requires batch != []
    ensures Among(batch, id) <==> batch[0].id == id || Among(batch[1..], id)
  {
    assert forall i | 0 <= i < |batch| - 1 :: batch[1..][i] == batch[i + 1];
    if Among(batch, id) {
      var i :| 0 <= i < |batch| && batch[i].id == id;
      assert i > 0 ==> batch[1..][i - 1].id == id;
    }
  }

  /** A request in the batch takes its own step, all others stay. */
  lemma {:induction false} ScheduleAllAt(rs: map<Id, Request>, batch: seq<Scheduled>)
    requires (forall s | s in batch :: s.id in rs) && DistinctIds(batch)
    ensures var rs' := ScheduleAll(rs, batch);
      && rs'.Keys == rs.Keys
      && (forall s | s in batch :: rs'[s.id] == AfterSchedule(rs[s.id], s.numTokens))
      && (forall id | id in rs && !Among(batch, id) :: rs'[id] == rs[id])
    decreases |batch|
  {
    if batch != [] {
      var first, rest := batch[0], batch[1..];
      var rs1 := rs[first.id := AfterSchedule(rs[first.id], first.numTokens)];
      assert DistinctIds(rest) by { assert forall i | 0 <= i < |rest| :: rest[i] == batch[i + 1]; }
      ScheduleAllAt(rs1, rest);
      forall s | s in rest ensures s.id != first.id {
        var i :| 0 <= i < |rest| && rest[i] == s;
        assert batch[i + 1] == s;
      }
      assert forall s | s in batch :: s == first || s in rest;
      forall id ensures Among(batch, id) <==> id == first.id || Among(rest, id) {
        AmongTail(batch, id);
      }
      assert !Among(rest, first.id);
    }
  }

  // ----------------------------------------------------------- the scheduler

  /** What vLLM's own part of an output step does: `n` more tokens are known. */
  function WithTokens(r: Request, n: nat): Request { r.(tokens := r.tokens + n) }

  datatype OutputResult =
    | AssertionFailed
    | Updated(cached: Option<int>)   // the length passed to cache_blocks, if it was called

  class MolinkAsyncScheduler {
    var requests: map<Id, Request>

    constructor ()
      ensures requests == map[]
    {
      requests := map[];
    }

    /** First vLLM advances every scheduled request, then the placeholders are updated; the
        result is as if each request had taken its step alone. */
    method UpdateAfterSchedule(batch: seq<Scheduled>) returns (pendingStructured: bool)
      requires (forall s | s in batch :: s.id in requests) && DistinctIds(batch)
      modifies this
      ensures requests == ScheduleAll(old(requests), batch)
      ensures pendingStructured
         <==> exists s :: s in batch && old(requests)[s.id].structured && old(requests)[s.id].placeholders > 0
    {
      ghost var before := requests;
      assert forall k | 0 <= k < |batch| :: batch[k] in batch;
      AdvanceComputed(batch);
      AnyStarts(before, batch);
      hide *;
      pendingStructured := false;
      for i := 0 to |batch|
        invariant PassedUpto(before, batch, requests, i)
        invariant pendingStructured <==> AnyAwaits(before, batch, i)
      {
        AnyNext(before, batch, requests, i);
        var awaits := UpdatePlaceholders(before, batch, i);
        pendingStructured := pendingStructured || awaits;
      }
      AnyEnds(before, batch);
      AllScheduled(before, batch, requests);
    }

    /** The second pass over one request: it may await structured output, and it gets a placeholder
        if its step produces a token. */
    method UpdatePlaceholders(ghost before: map<Id, Request>, batch: seq<Scheduled>, i: nat) returns (awaits: bool)
      requires i < |batch| && DistinctIds(batch) && PassedUpto(before, batch, requests, i)
      modifies this
      ensures PassedUpto(before, batch, requests, i + 1)
      ensures batch[i].id in before && awaits == AwaitsStructured(before[batch[i].id])
    {
      PassOne(before, batch, requests, i);
      hide PassedUpto, DistinctIds, AwaitsStructured;
      var id := batch[i].id;
      var request := requests[id];
      awaits := AwaitsStructured(request);
      if request.computed == request.tokens + request.placeholders {
        requests := requests[id := request.(placeholders := request.placeholders + 1)];
      }
    }

    method AdvanceComputed(batch: seq<Scheduled>)
      requires (forall s | s in batch :: s.id in requests) && DistinctIds(batch)
      modifies this
      ensures PassedUpto(old(requests), batch, requests, 0)
    {
      ghost var before := requests;
      for i := 0 to |batch|
        invariant requests.Keys == before.Keys
        invariant forall k | 0 <= k < |batch| :: batch[k] in batch
        invariant forall k | 0 <= k < i :: requests[batch[k].id] == Advanced(before[batch[k].id], batch[k].numTokens)
        invariant forall k | i <= k < |batch| :: requests[batch[k].id] == before[batch[k].id]
        invariant forall id | id in before && !Among(batch, id) :: requests[id] == before[id]
      {
        hide Advanced, PassedUpto, Among;
        requests := requests[batch[i].id := Advanced(requests[batch[i].id], batch[i].numTokens)];
      }
    }

    /** `n` new tokens of a request have arrived; `running` is its status before. */
    method UpdateRequestWithOutput(id: Id, n: nat, running: bool) returns (res: OutputResult)
      requires id in requests
      modifies this
      ensures res == OutputOf(old(requests)[id], n, running)
      ensures requests == old(requests)[id := AfterOutput(old(requests)[id], n)]
      ensures var r, r' := old(requests)[id], requests[id];
        && r'.tokens == r.tokens + n && r'.placeholders == r.placeholders - n && r'.computed == r.computed
        && (res.AssertionFailed? <==> n > r.placeholders)
        && (res.Updated? ==> res.cached == if running then Some(r.computed - r'.placeholders) else None)
    {
      requests := requests[id := WithTokens(requests[id], n)];
      requests := requests[id := requests[id].(placeholders := requests[id].placeholders - n)];
      if requests[id].placeholders < 0 {
        return AssertionFailed;
      }
      res := Updated(None);
      if running {
        res := Updated(Some(requests[id].computed - requests[id].placeholders));
      }
    }
  }

  /** Structured output needs the tokens that are still to come. */
  predicate AwaitsStructured(r: Request) { r.structured && r.placeholders > 0 }

  function PassedTo(r: Request, n: nat, second: bool): Request {
    if second then AfterSchedule(r, n) else Advanced(r, n)
  }

  lemma SecondPass(r: Request, n: nat)
    ensures var r' := PassedTo(r, n, false);
      && AwaitsStructured(r') == AwaitsStructured(r)
      && PassedTo(r, n, true)
         == if r'.computed == r'.tokens + r'.placeholders then r'.(placeholders := r'.placeholders + 1) else r'
  {}

  /** The second pass has come to the i-th request of the batch. */
  ghost predicate PassedUpto(before: map<Id, Request>, batch: seq<Scheduled>, now: map<Id, Request>, i: nat) {
    && now.Keys == before.Keys
    && (forall k | 0 <= k < |batch| ::
          && batch[k].id in before
          && now[batch[k].id] == PassedTo(before[batch[k].id], batch[k].numTokens, k < i))
    && (forall id | id in before && !Among(batch, id) :: now[id] == before[id])
  }

  /** One of the first `n` requests of the batch awaits structured output. */
  ghost predicate AnyAwaits(rs: map<Id, Request>, batch: seq<Scheduled>, n: nat) {
    exists k :: 0 <= k < n && k < |batch| && batch[k].id in rs && AwaitsStructured(rs[batch[k].id])
  }

  lemma AnyStarts(rs: map<Id, Request>, batch: seq<Scheduled>)
    ensures !AnyAwaits(rs, batch, 0)
  {}

  lemma AnyNext(rs: map<Id, Request>, batch: seq<Scheduled>, now: map<Id, Request>, i: nat)
    requires i < |batch| && PassedUpto(rs, batch, now, i)
    ensures batch[i].id in rs
    ensures AnyAwaits(rs, batch, i + 1) <==> AnyAwaits(rs, batch, i) || AwaitsStructured(rs[batch[i].id])
  {
    hide AwaitsStructured;
    if AnyAwaits(rs, batch, i) {
      var k :| 0 <= k < i && k < |batch| && batch[k].id in rs && AwaitsStructured(rs[batch[k].id]);
      assert 0 <= k < i + 1;
    }
  }

  lemma AnyEnds(rs: map<Id, Request>, batch: seq<Scheduled>)
    requires forall s | s in batch :: s.id in rs
    ensures AnyAwaits(rs, batch, |batch|)
       <==> exists s :: s in batch && rs[s.id].structured && rs[s.id].placeholders > 0
  {
    if exists s :: s in batch && AwaitsStructured(rs[s.id]) {
      var s :| s in batch && AwaitsStructured(rs[s.id]);
      var k :| 0 <= k < |batch| && batch[k] == s;
    }
  }

  lemma PassOne(before: map<Id, Request>, batch: seq<Scheduled>, now: map<Id, Request>, i: nat)
    requires PassedUpto(before, batch, now, i) && DistinctIds(batch) && i < |batch|
    ensures batch[i].id in before && batch[i].id in now
    ensures var r := now[batch[i].id];
      && AwaitsStructured(r) == AwaitsStructured(before[batch[i].id])
      && PassedUpto(before, batch, if r.computed == r.tokens + r.placeholders
                                   then now[batch[i].id := r.(placeholders := r.placeholders + 1)] else now, i + 1)
  {
    SecondPass(before[batch[i].id], batch[i].numTokens);
    hide PassedTo, AwaitsStructured;
  }

  lemma AllScheduled(before: map<Id, Request>, batch: seq<Scheduled>, after: map<Id, Request>)
    requires (forall s | s in batch :: s.id in before) && DistinctIds(batch)
    requires PassedUpto(before, batch, after, |batch|)
    ensures after == ScheduleAll(before, batch)
  {
    ScheduleAllAt(before, batch);
    hide AfterSchedule, ScheduleAll;
    forall id | id in before ensures after[id] == ScheduleAll(before, batch)[id] {
      if Among(batch, id) {
        var k :| 0 <= k < |batch| && batch[k].id == id;
        assert batch[k] in batch;
      }
    }
  }

  function Advanced(r: Request, n: nat): Request { r.(computed := r.computed + n) }

  function AfterOutput(r: Request, n: nat): Request {
    WithTokens(r, n).(placeholders := r.placeholders - n)
  }

  function OutputOf(r: Request, n: nat, running: bool): OutputResult {
    if r.placeholders < n then AssertionFailed
    else Updated(if running then Some(r.computed - (r.placeholders - n)) else None)
  }

  // --------------------------------------------------------------------- runs

  datatype Event =
    | Add(id: Id, prompt: nat, cachedPrefix: nat, structured: bool)
    | Schedule(batch: seq<Scheduled>)
    | Output(step: Step, running: bool, stopped: bool)

  /** vLLM schedules a request for at least one token, and for no more than are known or
      expected; a new request has at least one token to compute; ids are not used again. */
  ghost predicate Enabled(l: Ledger, ev: Event) {
    match ev
    case Add(id, prompt, cachedPrefix, _) =>
      cachedPrefix < prompt && id !in l.requests && Step(id, true) !in l.pending && Step(id, false) !in l.pending
    case Schedule(batch) =>
      && DistinctIds(batch)
      && forall s | s in batch :: s.id in l.requests && Fits(l.requests[s.id], s.numTokens)
    case Output(step, _, _) => step in l.pending
  }

  predicate Fits(r: Request, n: nat) { 0 < n <= r.tokens + r.placeholders - r.computed }

  function StepsOf(rs: map<Id, Request>, batch: seq<Scheduled>): multiset<Step>
    requires forall s | s in batch :: s.id in rs
  {
    if batch == [] then multiset{}
    else multiset{Step(batch[0].id, Produces(rs[batch[0].id], batch[0].numTokens))} + StepsOf(rs, batch[1..])
  }

  /** A producing step samples one token. The output of a step that samples nothing, or of a request
      that is gone, is ignored. */
  function Apply(l: Ledger, ev: Event): Ledger
    requires ev.Schedule? ==> forall s | s in ev.batch :: s.id in l.requests
  {
    match ev
    case Add(id, prompt, cachedPrefix, structured) =>
      l.(requests := l.requests[id := Request(prompt, cachedPrefix, 0, structured)])
    case Schedule(batch) =>
      Ledger(ScheduleAll(l.requests, batch), l.pending + StepsOf(l.requests, batch))
    case Output(step, running, stopped) =>
      Ledger(
        if !step.produces || step.id !in l.requests then l.requests
        else if stopped then map id | id in l.requests && id != step.id :: l.requests[id]
        else l.requests[step.id := AfterOutput(l.requests[step.id], 1)],
        l.pending - multiset{step})
  }

  /** A request with tokens still to come has computed all but the newest of them. */
  predicate Balanced(r: Request) {
    if r.placeholders > 0 then r.computed + 1 == r.tokens + r.placeholders else r.computed < r.tokens
  }

  /** The placeholders of a request are its steps that will still produce a token. */
  ghost predicate Inv(l: Ledger) {
    forall id | id in l.requests :: Balanced(l.requests[id]) && l.requests[id].placeholders == l.pending[Step(id, true)]
  }

  lemma {:induction false} StepsAt(rs: map<Id, Request>, batch: seq<Scheduled>, id: Id)
    requires (forall s | s in batch :: s.id in rs) && DistinctIds(batch)
    ensures !Among(batch, id) ==> StepsOf(rs, batch)[Step(id, true)] == 0
    ensures forall s | s in batch && s.id == id ::
              StepsOf(rs, batch)[Step(id, true)] == if Produces(rs[id], s.numTokens) then 1 else 0
    decreases |batch|
  {
    if batch != [] {
      var rest := batch[1..];
      assert forall i | 0 <= i < |rest| :: rest[i] == batch[i + 1];
      assert DistinctIds(rest);
      StepsAt(rs, rest, id);
      AmongTail(batch, id);
      if batch[0].id == id {
        assert !Among(rest, id);
        forall s | s in batch && s.id == id ensures s == batch[0] {
          var i :| 0 <= i < |batch| && batch[i] == s;
        }
      } else {
        assert forall s | s in batch :: s == batch[0] || s in rest;
      }
    }
  }

  lemma EventKeepsInv(l: Ledger, ev: Event)
    requires Inv(l) && Enabled(l, ev)
    ensures Inv(Apply(l, ev))
  {
    var l' := Apply(l, ev);
    if ev.Schedule? {
      ScheduleAllAt(l.requests, ev.batch);
      forall id | id in l'.requests
        ensures Balanced(l'.requests[id]) && l'.requests[id].placeholders == l'.pending[Step(id, true)]
      {
        StepsAt(l.requests, ev.batch, id);
        if Among(ev.batch, id) {
          var i :| 0 <= i < |ev.batch| && ev.batch[i].id == id;
          assert ev.batch[i] in ev.batch;
        }
      }
    }
  }

  ghost predicate Transition(l: Ledger, ev: Event, l': Ledger) { Enabled(l, ev) && l' == Apply(l, ev) }

  ghost predicate IsRun(states: seq<Ledger>, events: seq<Event>) {
    && |states| == |events| + 1 && states[0] == Ledger(map[], multiset{})
    && forall i | 0 <= i < |events| :: Transition(states[i], events[i], states[i + 1])
  }

  /** In whatever order steps are scheduled and outputs arrive, a request's placeholders are
      exactly its outstanding token-producing steps, and what is computed stays below what is
      known or expected. */
  lemma {:induction false} PlaceholdersAreOutstanding(states: seq<Ledger>, events: seq<Event>, i: nat, id: Id)
    requires IsRun(states, events) && i < |states| && id in states[i].requests
    ensures var r := states[i].requests[id];
      r.placeholders == states[i].pending[Step(id, true)] && r.computed < r.tokens + r.placeholders
  {
    RunsKeepInv(states, events, i);
  }

  lemma {:induction false} RunsKeepInv(states: seq<Ledger>, events: seq<Event>, i: nat)
    requires IsRun(states, events) && i < |states|
    ensures Inv(states[i])
  {
    if i > 0 {
      RunsKeepInv(states, events, i - 1);
      assert Transition(states[i - 1], events[i - 1], states[i]);
      EventKeepsInv(states[i - 1], events[i - 1]);
    }
  }

  /** When an output is processed, the assertion on the placeholders holds, and the blocks
      cached are those of all known tokens but the one just sampled. */
  lemma CachesAllButNewest(states: seq<Ledger>, events: seq<Event>, i: nat)
    requires IsRun(states, events) && i < |events| && events[i].Output? && events[i].step.produces
    requires events[i].step.id in states[i].requests
    ensures var ev, r := events[i], states[i].requests[events[i].step.id];
      && OutputOf(r, 1, ev.running) == Updated(if ev.running then Some(r.tokens) else None)
      && r.placeholders > 0 && AfterOutput(r, 1).tokens == r.tokens + 1
  {
    RunsKeepInv(states, events, i);
    assert Transition(states[i], events[i], states[i + 1]);
    var r := states[i].requests[events[i].step.id];
    assert Balanced(r) && r.placeholders > 0;
  }

  /** While tokens are outstanding, a request can only be scheduled for one token, and that
      step produces the next one. */
  lemma OneTokenAhead(states: seq<Ledger>, events: seq<Event>, i: nat, s: Scheduled)
    requires IsRun(states, events) && i < |events| && events[i].Schedule? && s in events[i].batch
    ensures s.id in states[i].requests
    ensures states[i].requests[s.id].placeholders > 0 ==> s.numTokens == 1 && Produces(states[i].requests[s.id], 1)
  {
    RunsKeepInv(states, events, i);
    assert Transition(states[i], events[i], states[i + 1]);
    assert Balanced(states[i].requests[s.id]);
  }

  /** What the flag about structured output says: some request of the batch that uses it has a step
      outstanding that will still produce a token. */
  lemma StructuredStillToCome(states: seq<Ledger>, events: seq<Event>, i: nat)
    requires IsRun(states, events) && i < |events| && events[i].Schedule?
    ensures forall s | s in events[i].batch :: s.id in states[i].requests
    ensures var l, batch := states[i], events[i].batch;
      (exists s :: s in batch && l.requests[s.id].structured && l.requests[s.id].placeholders > 0)
      <==> exists s :: s in batch && l.requests[s.id].structured && Step(s.id, true) in l.pending
  {
    RunsKeepInv(states, events, i);
    assert Transition(states[i], events[i], states[i + 1]);
    forall s | s in events[i].batch
      ensures states[i].requests[s.id].placeholders > 0 <==> Step(s.id, true) in states[i].pending
    {
      assert Balanced(states[i].requests[s.id]);
    }
  }
}
