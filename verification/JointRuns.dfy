/** The engine and the pipeline together: a task that has scheduled a batch launches it on the
    virtual engine of its context, takes the result off that engine's queue, and completes. */
module JointRuns {
  import opened Wrappers
  import opened LayerSplit
  import Spec = SchedulerSpec
  import E = EngineRuns
  import P = PipelineProtocol
  import Topology
  import CommService

  /** `sent` holds the batches launched so far, by task, `answered` the tasks that have their
      result. */
  datatype Joint = Joint(engine: E.Engine, net: P.Net, sent: map<nat, P.Launched>, answered: set<nat>)

  datatype Event =
    | EngineStep(ev: E.Event)
    | NetStep(net: P.Event)
    | Launch(task: nat, request: Tensor)
    | Dequeue(task: nat, outcome: Outcome)

  function Context(j: Joint, k: nat): nat
    requires k < |j.engine.loop.log|
  {
    j.engine.loop.log[k].ctx
  }

  /** Nothing here asks whether an engine is free. */
  ghost predicate Enabled(w: P.World, j: Joint, ev: Event) {
    var log := j.engine.loop.log;
    match ev
    case EngineStep(e) => E.Enabled(j.engine, e) && (e.Complete? ==> e.task in j.answered)
    case NetStep(e) => P.Enabled(w, j.net, e) && !e.Launch? && !e.Dequeue?
    case Launch(k, _) =>
      && k < |log| && log[k].phase.InFlight? && k !in j.sent
      && P.TilingSnapshot(w, Topology.ServerList(j.net.nodes))
    case Dequeue(k, o) =>
      k < |log| && k in j.sent && k !in j.answered && P.Ready(Context(j, k), o) in j.net.items
  }

  ghost function Apply(w: P.World, j: Joint, ev: Event): Joint
    requires Enabled(w, j, ev)
    requires ev.Launch? || ev.Dequeue? ==> Context(j, ev.task) < |j.net.launched|
  {
    match ev
    case EngineStep(e) => j.(engine := E.Apply(j.engine, e))
    case NetStep(e) => j.(net := P.Apply(w, j.net, e))
    case Launch(k, request) =>
      j.(net := P.Apply(w, j.net, P.Launch(Context(j, k), request)),
         sent := j.sent[k := P.Launched(request, Topology.ServerList(j.net.nodes))])
    case Dequeue(k, o) =>
      j.(net := P.Apply(w, j.net, P.Dequeue(Context(j, k), o)), answered := j.answered + {k})
  }

  /** The task waits for the result of its batch. */
  predicate Outstanding(j: Joint, k: nat) { k in j.sent && k !in j.answered }

  ghost predicate HeldBy(j: Joint, e: nat, k: nat) {
    Outstanding(j, k) && k < |j.engine.loop.log| && Context(j, k) == e
  }

  /** An engine is busy exactly with the batch of the task in flight on its context. */
  ghost predicate Matched(j: Joint) {
    && j.answered <= j.sent.Keys
    && (forall k: nat | k in j.sent :: k < |j.engine.loop.log| && !j.engine.loop.log[k].phase.Created?)
    && (forall k: nat | Outstanding(j, k) ::
          && j.engine.loop.log[k].phase.InFlight? && Context(j, k) < |j.net.launched|
          && j.net.launched[Context(j, k)] == Some(j.sent[k]))
    && (forall e: nat | e < |j.net.launched| && j.net.launched[e].Some? :: exists k: nat :: HeldBy(j, e, k))
  }

  ghost predicate Inv(w: P.World, j: Joint, lost: set<Spec.Id>, sts: seq<P.Status>) {
    E.Inv(j.engine, lost) && P.Inv(w, j.net, sts) && |j.net.launched| == E.MAX_BATCH_NUM && Matched(j)
  }

  /** The context of a task in flight is below the number of engines, and no other task in
      flight has it. */
  lemma ContextFree(w: P.World, j: Joint, lost: set<Spec.Id>, sts: seq<P.Status>, k: nat)
    requires Inv(w, j, lost, sts) && k < |j.engine.loop.log| && j.engine.loop.log[k].phase.InFlight?
    ensures Context(j, k) < |j.net.launched|
    ensures k !in j.sent ==> j.net.launched[Context(j, k)] == None
    ensures forall i: nat | Outstanding(j, i) && Context(j, i) == Context(j, k) :: i == k
  {
    hide E.Exclusive, E.UniqueIds, P.Inv;
    var l := j.engine.loop;
    assert E.Live(l, k);
    forall i: nat | Outstanding(j, i) && Context(j, i) == Context(j, k) ensures i == k {
      assert E.Live(l, i);
    }
    var e := Context(j, k);
    if j.net.launched[e].Some? {
      var i: nat :| HeldBy(j, e, i);
    }
  }

  /** A launch finds its engine free, and what is dequeued is there for that task. */
  lemma EventsFit(w: P.World, j: Joint, lost: set<Spec.Id>, sts: seq<P.Status>, ev: Event)
    requires Inv(w, j, lost, sts) && Enabled(w, j, ev)
    ensures ev.Launch? || ev.Dequeue? ==> Context(j, ev.task) < |j.net.launched|
    ensures ev.Launch? ==> P.Enabled(w, j.net, P.Launch(Context(j, ev.task), ev.request))
    ensures ev.Dequeue? ==> P.Enabled(w, j.net, P.Dequeue(Context(j, ev.task), ev.outcome))
  {
    hide E.Inv, P.Inv, P.TilingSnapshot;
    if ev.Launch? {
      ContextFree(w, j, lost, sts, ev.task);
    }
    if ev.Dequeue? {
      assert Outstanding(j, ev.task);
    }
  }

  // ------------------------------------------------------------- every event

  /** Tasks keep their contexts; a task in flight stays so unless it completes. */
  ghost predicate Grows(a: seq<E.Task>, b: seq<E.Task>, done: set<nat>) {
    && |a| <= |b|
    && forall k: nat | k < |a| ::
         && b[k].ctx == a[k].ctx && (!a[k].phase.Created? ==> !b[k].phase.Created?)
         && (a[k].phase.InFlight? && k !in done ==> b[k].phase.InFlight?)
  }

  lemma LogGrows(e: E.Engine, lost: set<Spec.Id>, ev: E.Event)
    requires E.Inv(e, lost) && E.Enabled(e, ev)
    ensures Grows(e.loop.log, E.Apply(e, ev).loop.log, if ev.Complete? then {ev.task} else {})
  {
    hide E.ScansOf, E.UniqueIds, E.Exclusive;
    if ev.LoopPass? {
      E.PassLog(e.loop, ev.batchNum);
      var a, b := e.loop.log, E.Pass(e.loop, ev.batchNum).log;
      forall k: nat | k < |a| ensures b[k] == a[k] { assert b[k] == b[..|a|][k]; }
    }
  }

  lemma MatchedStays(j: Joint, j': Joint)
    requires Matched(j) && j'.sent == j.sent && j'.answered == j.answered && j'.net.launched == j.net.launched
    requires Grows(j.engine.loop.log, j'.engine.loop.log, j.answered)
    ensures Matched(j')
  {
    forall e: nat | e < |j.net.launched| && j.net.launched[e].Some? ensures exists k: nat :: HeldBy(j', e, k) {
      var k: nat :| HeldBy(j, e, k);
      assert HeldBy(j', e, k);
    }
  }

  lemma MatchedLaunch(j: Joint, j': Joint, k: nat, b: P.Launched)
    requires Matched(j) && j'.engine == j.engine && k < |j.engine.loop.log| && j.engine.loop.log[k].phase.InFlight?
    requires k !in j.sent && j'.sent == j.sent[k := b] && j'.answered == j.answered
    requires Context(j, k) < |j.net.launched| && j'.net.launched == j.net.launched[Context(j, k) := Some(b)]
    requires j.net.launched[Context(j, k)] == None
    ensures Matched(j')
  {
    var e := Context(j, k);
    forall f: nat | f < |j'.net.launched| && j'.net.launched[f].Some? ensures exists i: nat :: HeldBy(j', f, i) {
      if f == e {
        assert HeldBy(j', f, k);
      } else {
        var i: nat :| HeldBy(j, f, i);
        assert HeldBy(j', f, i);
      }
    }
  }

  lemma MatchedDequeue(j: Joint, j': Joint, k: nat)
    requires Matched(j) && j'.engine == j.engine && Outstanding(j, k)
    requires j'.sent == j.sent && j'.answered == j.answered + {k}
    requires j'.net.launched == j.net.launched[Context(j, k) := None]
    requires forall i: nat | Outstanding(j, i) && Context(j, i) == Context(j, k) :: i == k
    ensures Matched(j')
  {
    forall i: nat | Outstanding(j', i) ensures Outstanding(j, i) && i != k {}
    forall f: nat | f < |j'.net.launched| && j'.net.launched[f].Some? ensures exists i: nat :: HeldBy(j', f, i) {
      var i: nat :| HeldBy(j, f, i);
      assert HeldBy(j', f, i);
    }
  }

  lemma EngineStepKeeps(w: P.World, j: Joint, lost: set<Spec.Id>, sts: seq<P.Status>, e: E.Event)
    requires Inv(w, j, lost, sts) && Enabled(w, j, EngineStep(e))
    ensures Inv(w, j.(engine := E.Apply(j.engine, e)), lost + E.Strands(j.engine, e), sts)
  {
    hide E.Inv, E.Apply, E.Strands, P.Inv, E.Enabled, Matched;
    E.StepKeeps(j.engine, lost, e);
    LogGrows(j.engine, lost, e);
    MatchedStays(j, j.(engine := E.Apply(j.engine, e)));
  }

  lemma NetStepKeeps(w: P.World, j: Joint, lost: set<Spec.Id>, sts: seq<P.Status>, e: P.Event)
    returns (sts': seq<P.Status>)
    requires Inv(w, j, lost, sts) && Enabled(w, j, NetStep(e))
    ensures Inv(w, j.(net := P.Apply(w, j.net, e)), lost, sts')
  {
    hide E.Inv, P.Inv, P.Enabled, P.Closer, Matched;
    assert P.Apply(w, j.net, e).launched == j.net.launched;
    hide P.Apply;
    sts' := P.Step(w, j.net, sts, e);
    MatchedStays(j, j.(net := P.Apply(w, j.net, e)));
  }

  lemma LaunchKeeps(w: P.World, j: Joint, lost: set<Spec.Id>, sts: seq<P.Status>, k: nat, request: Tensor)
    returns (sts': seq<P.Status>)
    requires Inv(w, j, lost, sts) && Enabled(w, j, Launch(k, request)) && Context(j, k) < |j.net.launched|
    ensures Inv(w, Apply(w, j, Launch(k, request)), lost, sts')
  {
    hide E.Inv, P.Inv, P.Enabled, P.Closer, Matched, P.TilingSnapshot, Topology.ServerList;
    EventsFit(w, j, lost, sts, Launch(k, request));
    ContextFree(w, j, lost, sts, k);
    var j' := Apply(w, j, Launch(k, request));
    sts' := P.Step(w, j.net, sts, P.Launch(Context(j, k), request));
    assert j'.net.launched == j.net.launched[Context(j, k) := Some(j'.sent[k])];
    hide P.Apply;
    MatchedLaunch(j, j', k, j'.sent[k]);
  }

  lemma DequeueKeeps(w: P.World, j: Joint, lost: set<Spec.Id>, sts: seq<P.Status>, k: nat, o: Outcome)
    returns (sts': seq<P.Status>)
    requires Inv(w, j, lost, sts) && Enabled(w, j, Dequeue(k, o)) && Context(j, k) < |j.net.launched|
    ensures Inv(w, Apply(w, j, Dequeue(k, o)), lost, sts')
  {
    hide E.Inv, P.Inv, P.Enabled, P.Closer;
    EventsFit(w, j, lost, sts, Dequeue(k, o));
    assert Outstanding(j, k) && j.engine.loop.log[k].phase.InFlight?;
    hide Matched;
    ContextFree(w, j, lost, sts, k);
    var j' := Apply(w, j, Dequeue(k, o));
    sts' := P.Step(w, j.net, sts, P.Dequeue(Context(j, k), o));
    assert j'.net.launched == j.net.launched[Context(j, k) := None];
    hide P.Apply;
    MatchedDequeue(j, j', k);
  }

  // --------------------------------------------------------------------- runs

  ghost predicate Init(j: Joint) {
    && E.Init(j.engine) && P.Init(j.net) && |j.net.launched| == E.MAX_BATCH_NUM && j.sent == map[] && j.answered == {}
  }

  ghost predicate Transition(w: P.World, j: Joint, ev: Event, j': Joint) {
    && Enabled(w, j, ev)
    && (ev.Launch? || ev.Dequeue? ==> Context(j, ev.task) < |j.net.launched|)
    && j' == Apply(w, j, ev)
  }

  ghost predicate IsRun(w: P.World, states: seq<Joint>, events: seq<Event>) {
    && |states| == |events| + 1 && Init(states[0])
    && forall i | 0 <= i < |events| :: Transition(w, states[i], events[i], states[i + 1])
  }

  lemma Step(w: P.World, j: Joint, lost: set<Spec.Id>, sts: seq<P.Status>, ev: Event, j': Joint)
    returns (lost': set<Spec.Id>, sts': seq<P.Status>)
    requires Inv(w, j, lost, sts) && Transition(w, j, ev, j')
    ensures Inv(w, j', lost', sts')
  {
    hide Inv, E.Apply, P.Apply, E.Enabled, P.Enabled, E.Strands;
    lost', sts' := lost, sts;
    match ev {
      case EngineStep(e) =>
        EngineStepKeeps(w, j, lost, sts, e);
        lost' := lost + E.Strands(j.engine, e);
      case NetStep(e) => sts' := NetStepKeeps(w, j, lost, sts, e);
      case Launch(k, request) => sts' := LaunchKeeps(w, j, lost, sts, k, request);
      case Dequeue(k, o) => sts' := DequeueKeeps(w, j, lost, sts, k, o);
    }
  }

  lemma InitKeeps(w: P.World, j: Joint) returns (sts: seq<P.Status>)
    requires Init(j)
    ensures Inv(w, j, {}, sts)
  {
    sts := seq(|j.net.launched|, e => P.Idle);
    P.TotalIdle(w, |j.net.launched|);
    E.InitKeeps(j.engine);
  }

  lemma {:induction false} RunsKeepInv(w: P.World, states: seq<Joint>, events: seq<Event>, i: nat)
    returns (lost: set<Spec.Id>, sts: seq<P.Status>)
    requires IsRun(w, states, events) && i < |states|
    ensures Inv(w, states[i], lost, sts)
  {
    hide Inv, Transition, Init;
    if i == 0 {
      lost := {};
      sts := InitKeeps(w, states[0]);
    } else {
      lost, sts := RunsKeepInv(w, states, events, i - 1);
      assert Transition(w, states[i - 1], events[i - 1], states[i]);
      lost, sts := Step(w, states[i - 1], lost, sts, events[i - 1], states[i]);
    }
  }

  /** In every run of the engine with the pipeline, a task that is about to launch its batch finds
      its virtual engine free: the premise of the pipeline's launches always holds. */
  lemma LaunchFindsEngineFree(w: P.World, states: seq<Joint>, events: seq<Event>, i: nat, k: nat, request: Tensor)
    requires IsRun(w, states, events) && i < |states| && Enabled(w, states[i], Launch(k, request))
    ensures var n, e := states[i].net, Context(states[i], k);
      e < |n.launched| && n.launched[e] == None && P.Enabled(w, n, P.Launch(e, request))
  {
    var lost, sts := RunsKeepInv(w, states, events, i);
    hide Enabled, Inv, IsRun;
    EventsFit(w, states[i], lost, sts, Launch(k, request));
    FreeWhenEnabled(w, states[i].net, Context(states[i], k), request);
  }

  lemma FreeWhenEnabled(w: P.World, n: P.Net, e: nat, request: Tensor)
    requires P.Enabled(w, n, P.Launch(e, request))
    ensures e < |n.launched| && n.launched[e] == None
  {}

  /** In every state the entries waiting in any node's delivery queue are no more than the engines,
      and so always fewer than the queue's slots. */
  lemma DeliveryQueueNeverFull(w: P.World, states: seq<Joint>, events: seq<Event>, i: nat, held: multiset<P.Item>)
    requires IsRun(w, states, events) && i < |states|
    requires held <= states[i].net.items && forall it | it in held :: it.Outbox?
    ensures |held| <= E.MAX_BATCH_NUM < CommService.PROCESS_QUEUE_SIZE
  {
    var lost, sts := RunsKeepInv(w, states, events, i);
    P.CarriersBound(w, sts, held);
  }

  /** And the result a task takes off its engine's queue is what one node with all layers would
      compute for the very batch that this task launched. */
  lemma TaskGetsItsAnswer(w: P.World, states: seq<Joint>, events: seq<Event>, i: nat, k: nat, o: Outcome)
    requires IsRun(w, states, events) && i < |states| && Enabled(w, states[i], Dequeue(k, o))
    ensures k in states[i].sent
    ensures o == Forward(w.model, Range(0, w.model.numLayers), states[i].sent[k].request, None)
    ensures IsAnswer(w.model, states[i].sent[k].request, o)
  {
    var lost, sts := RunsKeepInv(w, states, events, i);
    var j := states[i];
    EventsFit(w, j, lost, sts, Dequeue(k, o));
    assert Outstanding(j, k) && j.net.launched[Context(j, k)] == Some(j.sent[k]);
    hide Enabled, E.Inv, P.Inv, P.Enabled, P.Apply, Forward, Chain, P.RangesOf, IsAnswer;
    P.DequeueAnswers(w, j.net, sts, Context(j, k), o);
  }
}
