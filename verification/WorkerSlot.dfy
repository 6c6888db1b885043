/** A v1 worker node: any number of step handlers, one lock, and a single slot through which
    tensors reach the worker. Each handler takes an entry from its engine's input queue, waits
    for the lock, puts the tensors into the slot and has the worker execute the batch. */
module WorkerSlot {
  import opened Wrappers

  type Tensors(==, !new)

  /** A scheduler output; what it schedules is left abstract but for the number of tokens. */
  datatype Scheduled = Scheduled(id: nat, tokens: nat)

  datatype Entry = Entry(scheduled: Scheduled, tensors: Tensors)

  /** One execution of the model: the batch, and the tensors it was given. */
  datatype Execution = Execution(handler: nat, scheduled: Scheduled, used: Option<Tensors>)

  /** A batch without tokens, and any batch on a first stage, leaves the slot alone. */
  predicate Consumes(first: bool, s: Scheduled) { s.tokens > 0 && !first }

  // ---------------------------------------------------------------- the worker

  class Worker {
    const isFirstRank: bool
    var intermediateTensors: Option<Tensors>

    constructor (isFirstRank: bool)
      ensures this.isFirstRank == isFirstRank && intermediateTensors == None
    {
      this.isFirstRank, intermediateTensors := isFirstRank, None;
    }

    method SetIntermediateTensors(tensors: Tensors)
      modifies this
      ensures intermediateTensors == Some(tensors)
    {
      intermediateTensors := Some(tensors);
    }

    method GetIntermediateTensors() returns (tensors: Option<Tensors>)
      modifies this
      ensures tensors == old(intermediateTensors) && intermediateTensors == None
    {
      tensors := intermediateTensors;
      intermediateTensors := None;
    }

    method ExecuteModel(s: Scheduled) returns (used: Option<Tensors>)
      modifies this
      ensures used == if s.tokens > 0 && !isFirstRank then old(intermediateTensors) else None
      ensures intermediateTensors == SlotAfter(isFirstRank, old(intermediateTensors), s)
    {
      used := None;
      if s.tokens > 0 && !isFirstRank {
        used := GetIntermediateTensors();
      }
    }

    /** What a handler does with the worker while it holds the lock. A slot left full by an
        earlier batch does not matter. */
    method DriverExecModel(s: Scheduled, tensors: Tensors) returns (used: Option<Tensors>)
      modifies this
      ensures used == if s.tokens > 0 && !isFirstRank then Some(tensors) else None
      ensures intermediateTensors == if s.tokens > 0 && !isFirstRank then None else Some(tensors)
    {
      SetIntermediateTensors(tensors);
      used := ExecuteModel(s);
    }
  }

  function UsedFrom(first: bool, slot: Option<Tensors>, s: Scheduled): Option<Tensors> {
    if Consumes(first, s) then slot else None
  }

  function SlotAfter(first: bool, slot: Option<Tensors>, s: Scheduled): Option<Tensors> {
    if Consumes(first, s) then None else slot
  }

  // ---------------------------------------------------------------- the node

  datatype Phase = Waiting | Locked | Loaded | Executed | Done

  datatype Handler = Handler(e: nat, entry: Entry, phase: Phase)

  datatype Node = Node(queues: seq<seq<Entry>>, handlers: seq<Handler>, lock: Option<nat>,
                       slot: Option<Tensors>, log: seq<Execution>)

  datatype Event =
    | Push(e: nat, entry: Entry)   // tensors arrive
    | Take(e: nat)                 // a triggered handler gets the oldest entry
    | Acquire(h: nat)
    | Load(h: nat)                 // the tensors go into the slot
    | Execute(h: nat)              // the worker runs the batch
    | Release(h: nat)

  predicate InPhase(n: Node, h: nat, p: Phase) { h < |n.handlers| && n.handlers[h].phase == p }

  predicate Enabled(n: Node, ev: Event) {
    match ev
    case Push(e, _) => e < |n.queues|
    case Take(e) => e < |n.queues| && n.queues[e] != []
    case Acquire(h) => InPhase(n, h, Waiting) && n.lock == None
    case Load(h) => InPhase(n, h, Locked)
    case Execute(h) => InPhase(n, h, Loaded)
    case Release(h) => InPhase(n, h, Executed)
  }

  function WithPhase(n: Node, h: nat, p: Phase): Node
    requires h < |n.handlers|
  {
    n.(handlers := n.handlers[h := n.handlers[h].(phase := p)])
  }

  function Apply(first: bool, n: Node, ev: Event): Node
    requires Enabled(n, ev)
  {
    match ev
    case Push(e, entry) => n.(queues := n.queues[e := n.queues[e] + [entry]])
    case Take(e) =>
      n.(queues := n.queues[e := n.queues[e][1..]], handlers := n.handlers + [Handler(e, n.queues[e][0], Waiting)])
    case Acquire(h) => WithPhase(n, h, Locked).(lock := Some(h))
    case Load(h) => WithPhase(n, h, Loaded).(slot := Some(n.handlers[h].entry.tensors))
    case Execute(h) =>
      var s := n.handlers[h].entry.scheduled;
      WithPhase(n, h, Executed).(slot := SlotAfter(first, n.slot, s),
                                 log := n.log + [Execution(h, s, UsedFrom(first, n.slot, s))])
    case Release(h) => WithPhase(n, h, Done).(lock := None)
  }

  // ------------------------------------------------------------ the invariant

  predicate Holds(p: Phase) { p.Locked? || p.Loaded? || p.Executed? }

  /** What the last execution left in the slot. */
  function Leftover(first: bool, n: Node): Option<Tensors>
    requires LogOk(first, n)
  {
    if n.log == [] then None
    else
      var last := n.log[|n.log| - 1];
      if Consumes(first, last.scheduled) then None else Some(n.handlers[last.handler].entry.tensors)
  }

  /** Every execution used the tensors that came with its batch, and no handler ran twice. */
  predicate LogOk(first: bool, n: Node) {
    && (forall i | 0 <= i < |n.log| ::
          var x := n.log[i];
          && x.handler < |n.handlers| && x.scheduled == n.handlers[x.handler].entry.scheduled
          && (n.handlers[x.handler].phase.Executed? || n.handlers[x.handler].phase.Done?)
          && x.used == if Consumes(first, x.scheduled) then Some(n.handlers[x.handler].entry.tensors) else None)
    && (forall i, j | 0 <= i < j < |n.log| :: n.log[i].handler != n.log[j].handler)
  }

  /** The lock is held by exactly the handler in the middle of its step, and the slot holds that
      handler's tensors from the loading to the execution. */
  predicate LockOk(first: bool, n: Node)
    requires LogOk(first, n)
  {
    && (n.lock.Some? ==> n.lock.value < |n.handlers|)
    && (forall h: nat | h < |n.handlers| :: Holds(n.handlers[h].phase) <==> n.lock == Some(h))
    && n.slot == if n.lock.Some? && n.handlers[n.lock.value].phase.Loaded?
                 then Some(n.handlers[n.lock.value].entry.tensors)
                 else Leftover(first, n)
  }

  predicate Inv(first: bool, n: Node) { LogOk(first, n) && LockOk(first, n) }

  lemma StepKeeps(first: bool, n: Node, ev: Event)
    requires Inv(first, n) && Enabled(n, ev)
    ensures Inv(first, Apply(first, n, ev))
  {
    StepKeepsLog(first, n, ev);
    hide LogOk;
    StepKeepsLock(first, n, ev);
  }

  lemma StepKeepsLog(first: bool, n: Node, ev: Event)
    requires Inv(first, n) && Enabled(n, ev)
    ensures LogOk(first, Apply(first, n, ev))
  {
    var n' := Apply(first, n, ev);
    forall i | 0 <= i < |n.log|
      ensures n.log[i].handler < |n.handlers|
      ensures n'.handlers[n.log[i].handler].entry == n.handlers[n.log[i].handler].entry
    {}
  }

  lemma StepKeepsLock(first: bool, n: Node, ev: Event)
    requires Inv(first, n) && Enabled(n, ev) && LogOk(first, Apply(first, n, ev))
    ensures LockOk(first, Apply(first, n, ev))
  {}

  /** The entries handed to the engine's handlers so far, in order. */
  function Taken(hs: seq<Handler>, e: nat): seq<Entry> {
    if hs == [] then []
    else
      var last := hs[|hs| - 1];
      Taken(hs[..|hs| - 1], e) + if last.e == e then [last.entry] else []
  }

  function Pushed(events: seq<Event>, e: nat): seq<Entry> {
    if events == [] then []
    else
      var last := events[|events| - 1];
      Pushed(events[..|events| - 1], e) + if last.Push? && last.e == e then [last.entry] else []
  }

  /** Changing a handler's phase does not change what was handed out. */
  lemma {:induction false} TakenIgnoresPhase(hs: seq<Handler>, h: nat, p: Phase, e: nat)
    requires h < |hs|
    ensures Taken(hs[h := hs[h].(phase := p)], e) == Taken(hs, e)
  {
    var last := |hs| - 1;
    if h < last {
      TakenIgnoresPhase(hs[..last], h, p, e);
      assert hs[h := hs[h].(phase := p)][..last] == hs[..last][h := hs[h].(phase := p)];
    } else {
      assert hs[h := hs[h].(phase := p)][..last] == hs[..last];
    }
  }

  lemma StepKeepsOrder(first: bool, n: Node, ev: Event, e: nat)
    requires Enabled(n, ev) && e < |n.queues|
    ensures var n' := Apply(first, n, ev);
      && |n'.queues| == |n.queues|
      && Taken(n'.handlers, e) + n'.queues[e]
         == Taken(n.handlers, e) + n.queues[e] + if ev.Push? && ev.e == e then [ev.entry] else []
  {
    var n' := Apply(first, n, ev);
    match ev {
      case Push(_, _) =>
      case Take(e') =>
        assert n'.handlers[..|n'.handlers| - 1] == n.handlers;
        assert n.queues[e'] == [n.queues[e'][0]] + n.queues[e'][1..];
      case Acquire(h) => TakenIgnoresPhase(n.handlers, h, Locked, e);
      case Load(h) => TakenIgnoresPhase(n.handlers, h, Loaded, e);
      case Execute(h) => TakenIgnoresPhase(n.handlers, h, Executed, e);
      case Release(h) => TakenIgnoresPhase(n.handlers, h, Done, e);
    }
  }

  // --------------------------------------------------------------------- runs

  ghost predicate Init(n: Node) {
    && n.handlers == [] && n.log == [] && n.lock == None && n.slot == None
    && forall e | 0 <= e < |n.queues| :: n.queues[e] == []
  }

  ghost predicate Transition(first: bool, n: Node, ev: Event, n': Node) {
    Enabled(n, ev) && n' == Apply(first, n, ev)
  }

  ghost predicate IsRun(first: bool, states: seq<Node>, events: seq<Event>) {
    && |states| == |events| + 1 && Init(states[0])
    && forall i | 0 <= i < |events| :: Transition(first, states[i], events[i], states[i + 1])
  }

  lemma {:induction false} RunsKeepInv(first: bool, states: seq<Node>, events: seq<Event>, i: nat)
    requires IsRun(first, states, events) && i < |states|
    ensures Inv(first, states[i])
  {
    if i > 0 {
      RunsKeepInv(first, states, events, i - 1);
      assert Transition(first, states[i - 1], events[i - 1], states[i]);
      StepKeeps(first, states[i - 1], events[i - 1]);
    }
  }

  /** However the steps of different engines interleave, every execution of a batch that needs
      tensors used the ones that arrived with it, and every handler executes at most once. */
  lemma TensorsMatchBatch(first: bool, states: seq<Node>, events: seq<Event>, i: nat, k: nat)
    requires IsRun(first, states, events) && i < |states| && k < |states[i].log|
    ensures var n, x := states[i], states[i].log[k];
      && x.handler < |n.handlers| && x.scheduled == n.handlers[x.handler].entry.scheduled
      && x.used == (if x.scheduled.tokens > 0 && !first then Some(n.handlers[x.handler].entry.tensors) else None)
      && (forall j | 0 <= j < |n.log| && j != k :: n.log[j].handler != x.handler)
  {
    RunsKeepInv(first, states, events, i);
  }

  /** With the lock free, the slot is empty exactly when nothing was executed yet or the last
      executed batch used its tensors. */
  lemma SlotWhenFree(first: bool, states: seq<Node>, events: seq<Event>, i: nat)
    requires IsRun(first, states, events) && i < |states| && states[i].lock == None
    ensures var n := states[i];
      n.slot == None <==> n.log == [] || (!first && n.log[|n.log| - 1].scheduled.tokens > 0)
  {
    RunsKeepInv(first, states, events, i);
  }

  /** The entries of an engine reach its handlers in the order of arrival, none lost and none
      handed out twice. */
  lemma {:induction false} EntriesInOrder(first: bool, states: seq<Node>, events: seq<Event>, i: nat, e: nat)
    requires IsRun(first, states, events) && i < |states| && e < |states[0].queues|
    ensures |states[i].queues| == |states[0].queues|
    ensures Taken(states[i].handlers, e) + states[i].queues[e] == Pushed(events[..i], e)
  {
    if i > 0 {
      EntriesInOrder(first, states, events, i - 1, e);
      assert Transition(first, states[i - 1], events[i - 1], states[i]);
      StepKeepsOrder(first, states[i - 1], events[i - 1], e);
      assert events[..i][..i - 1] == events[..i - 1];
    }
  }

  lemma {:induction false} HandlersTook(hs: seq<Handler>, h: nat)
    requires h < |hs|
    ensures hs[h].entry in Taken(hs, hs[h].e)
  {
    if h < |hs| - 1 {
      HandlersTook(hs[..|hs| - 1], h);
    }
  }

  lemma {:induction false} PushedInEvents(events: seq<Event>, e: nat, x: Entry)
    requires x in Pushed(events, e)
    ensures Push(e, x) in events
  {
    var last := events[|events| - 1];
    if last != Push(e, x) {
      PushedInEvents(events[..|events| - 1], e, x);
    }
  }

  /** On a node that is not the first, if every batch sent to it has tokens, the slot is empty
      whenever the lock is free. */
  lemma SlotEmptyWhenFree(states: seq<Node>, events: seq<Event>, i: nat)
    requires IsRun(false, states, events) && i < |states| && states[i].lock == None
    requires forall j | 0 <= j < |events| && events[j].Push? :: events[j].entry.scheduled.tokens > 0
    ensures states[i].slot == None
  {
    var n := states[i];
    RunsKeepInv(false, states, events, i);
    if n.log != [] {
      var h := n.log[|n.log| - 1].handler;
      EnginesKnown(false, states, events, i);
      EntriesInOrder(false, states, events, i, n.handlers[h].e);
      HandlersTook(n.handlers, h);
      PushedInEvents(events[..i], n.handlers[h].e, n.handlers[h].entry);
    }
  }

  lemma {:induction false} EnginesKnown(first: bool, states: seq<Node>, events: seq<Event>, i: nat)
    requires IsRun(first, states, events) && i < |states|
    ensures |states[i].queues| == |states[0].queues|
    ensures forall h | 0 <= h < |states[i].handlers| :: states[i].handlers[h].e < |states[0].queues|
  {
    if i > 0 {
      EnginesKnown(first, states, events, i - 1);
      assert Transition(first, states[i - 1], events[i - 1], states[i]);
    }
  }
}
