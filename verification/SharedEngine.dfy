/** The pipeline when batches may be launched on an engine that still waits for a result, as v1
    does when every batch goes to engine 0. The waiting launches are served in order, whatever
    batch the next result in the queue belongs to. */
module SharedEngine {
  import opened Wrappers
  import opened LayerSplit
  import P = PipelineProtocol
  import Topology

  /** `waiters[e]` are the launches that wait for a result of engine `e`, the oldest first. */
  datatype Shared = Shared(items: multiset<P.Item>, nodes: seq<Topology.Entry>, waiters: seq<seq<P.Launched>>)

  function NetOf(s: Shared): P.Net { P.Net(s.items, [], s.nodes) }

  ghost predicate Enabled(w: P.World, s: Shared, ev: P.Event) {
    match ev
    case Launch(e, _) => e < |s.waiters| && P.TilingSnapshot(w, Topology.ServerList(s.nodes))
    case Dequeue(e, o) => e < |s.waiters| && s.waiters[e] != [] && P.Ready(e, o) in s.items
    case _ => P.Enabled(w, NetOf(s), ev)
  }

  function Apply(w: P.World, s: Shared, ev: P.Event): Shared {
    match ev
    case Launch(e, request) =>
      var servers := Topology.ServerList(s.nodes);
      if e >= |s.waiters| then s
      else
        s.(items := s.items + (multiset{P.HeadTask(e, request, servers)} + P.Triggers(e, servers, 1)),
           waiters := s.waiters[e := s.waiters[e] + [P.Launched(request, servers)]])
    case Dequeue(e, o) =>
      if e >= |s.waiters| || s.waiters[e] == [] then s
      else s.(items := s.items - multiset{P.Ready(e, o)}, waiters := s.waiters[e := s.waiters[e][1..]])
    case _ => var n := P.Apply(w, NetOf(s), ev); s.(items := n.items, nodes := n.nodes)
  }

  /** The events lead from one state to the other. */
  ghost predicate Leads(w: P.World, s: Shared, events: seq<P.Event>, s': Shared)
    decreases |events|
  {
    if events == [] then s == s'
    else Enabled(w, s, events[0]) && Leads(w, Apply(w, s, events[0]), events[1..], s')
  }

  lemma {:induction false} LeadsAppend(w: P.World, s: Shared, a: seq<P.Event>, m: Shared, b: seq<P.Event>, s': Shared)
    requires Leads(w, s, a, m) && Leads(w, m, b, s')
    ensures Leads(w, s, a + b, s')
    decreases |a|
  {
    hide Enabled, Apply;
    if a == [] {
      assert a + b == b;
    } else {
      LeadsAppend(w, Apply(w, s, a[0]), a[1..], m, b, s');
      assert (a + b)[1..] == a[1..] + b;
    }
  }

  ghost predicate Init(s: Shared) {
    s.items == multiset{} && forall e | 0 <= e < |s.waiters| :: s.waiters[e] == []
  }

  /** What a single node with all layers would answer to the launch that waits longest. */
  function Due(w: P.World, s: Shared, e: nat): Outcome
    requires e < |s.waiters| && s.waiters[e] != []
  {
    Forward(w.model, Range(0, w.model.numLayers), s.waiters[e][0].request, None)
  }

  // ------------------------------------------------------- launches on free engines

  /** No launch on the way finds another one waiting on its engine. */
  ghost predicate FreeLaunches(w: P.World, s: Shared, events: seq<P.Event>, s': Shared)
    requires Leads(w, s, events, s')
    decreases |events|
  {
    events != [] ==>
      && (events[0].Launch? ==> s.waiters[events[0].e] == [])
      && FreeLaunches(w, Apply(w, s, events[0]), events[1..], s')
  }

  /** A state with at most one launch waiting on each engine, as a state of the protocol. */
  function Single(s: Shared): P.Net {
    P.Net(s.items, seq(|s.waiters|, e requires 0 <= e < |s.waiters| =>
                         if s.waiters[e] == [] then None else Some(s.waiters[e][0])), s.nodes)
  }

  ghost predicate AtMostOne(s: Shared) { forall e | 0 <= e < |s.waiters| :: |s.waiters[e]| <= 1 }

  /** With free launches, one event is one event of the protocol. */
  lemma FreeStep(w: P.World, s: Shared, ev: P.Event)
    requires AtMostOne(s) && Enabled(w, s, ev) && (ev.Launch? ==> s.waiters[ev.e] == [])
    ensures P.Enabled(w, Single(s), ev)
    ensures AtMostOne(Apply(w, s, ev)) && Single(Apply(w, s, ev)) == P.Apply(w, Single(s), ev)
  {
    hide P.TilingSnapshot, P.AfterHead, P.AfterStage, Topology.ServerList, P.Triggers, Topology.Put;
    if ev.Launch? {
      FreeLaunch(w, s, ev);
    } else if ev.Dequeue? {
      FreeDequeue(w, s, ev);
    }
  }

  lemma FreeLaunch(w: P.World, s: Shared, ev: P.Event)
    requires AtMostOne(s) && Enabled(w, s, ev) && ev.Launch? && s.waiters[ev.e] == []
    ensures AtMostOne(Apply(w, s, ev)) && Single(Apply(w, s, ev)) == P.Apply(w, Single(s), ev)
  {
    hide P.TilingSnapshot, Topology.ServerList, P.Triggers;
    var s' := Apply(w, s, ev);
    assert Single(s').launched == P.Apply(w, Single(s), ev).launched;
  }

  lemma FreeDequeue(w: P.World, s: Shared, ev: P.Event)
    requires AtMostOne(s) && Enabled(w, s, ev) && ev.Dequeue?
    ensures AtMostOne(Apply(w, s, ev)) && Single(Apply(w, s, ev)) == P.Apply(w, Single(s), ev)
  {
    var s' := Apply(w, s, ev);
    assert Single(s').launched == P.Apply(w, Single(s), ev).launched;
  }

  lemma {:induction false} FreeKeeps(w: P.World, s: Shared, sts: seq<P.Status>, events: seq<P.Event>, s': Shared)
    returns (sts': seq<P.Status>)
    requires AtMostOne(s) && P.Inv(w, Single(s), sts) && Leads(w, s, events, s') && FreeLaunches(w, s, events, s')
    ensures AtMostOne(s') && P.Inv(w, Single(s'), sts')
    decreases |events|
  {
    hide P.Inv, P.Enabled, P.Apply, Enabled, Apply, Single, AtMostOne, P.Closer;
    sts' := sts;
    if events != [] {
      FreeStep(w, s, events[0]);
      sts' := P.Step(w, Single(s), sts, events[0]);
      sts' := FreeKeeps(w, Apply(w, s, events[0]), sts', events[1..], s');
    }
  }

  /** If every launch finds its engine free, each result goes to the launch it answers. */
  lemma FreeLaunchesAreSafe(w: P.World, s: Shared, events: seq<P.Event>, s': Shared, e: nat, o: Outcome)
    requires Init(s) && Leads(w, s, events, s') && FreeLaunches(w, s, events, s') && Enabled(w, s', P.Dequeue(e, o))
    ensures o == Due(w, s', e) && IsAnswer(w.model, s'.waiters[e][0].request, o)
  {
    var sts := seq(|s.waiters|, e => P.Idle);
    P.TotalIdle(w, |s.waiters|);
    hide Leads, FreeLaunches;
    sts := FreeKeeps(w, s, sts, events, s');
    hide P.Inv, Forward, Chain, P.RangesOf, IsAnswer;
    P.DequeueAnswers(w, Single(s'), sts, e, o);
  }

  // ------------------------------------------------------ launches on busy engines

  lemma FrameBag(items: multiset<P.Item>, frame: multiset<P.Item>, gone: multiset<P.Item>, come: multiset<P.Item>)
    requires gone <= items
    ensures (items + frame) - gone + come == (items - gone + come) + frame
  {}

  ghost predicate Inner(ev: P.Event) { !ev.Launch? && !ev.Dequeue? && !ev.Join? }

  lemma JoinedThere(items: multiset<P.Item>, e: nat, node: P.Ip, job: P.Job)
    requires P.Queued(e, node, job) in items && P.Trigger(e, node) in items
    ensures P.Joined(e, node, job) <= items
  {}

  /** An event of one batch is not disturbed by the items of others. */
  lemma FrameStep(w: P.World, n: P.Net, ev: P.Event, frame: multiset<P.Item>, waiters: seq<seq<P.Launched>>)
    requires P.Enabled(w, n, ev) && Inner(ev)
    ensures var s, n' := Shared(n.items + frame, n.nodes, waiters), P.Apply(w, n, ev);
      && Enabled(w, s, ev) && Apply(w, s, ev) == Shared(n'.items + frame, n.nodes, waiters)
      && n'.launched == n.launched && n'.nodes == n.nodes
  {
    hide P.AfterHead, P.AfterStage, P.Arrived, P.Joined;
    match ev {
      case RunHead(e, request, servers) =>
        FrameBag(n.items, frame, multiset{P.HeadTask(e, request, servers)}, P.AfterHead(w, e, request, servers));
      case Send(e, at, parcel) =>
        FrameBag(n.items, frame, multiset{P.Outbox(e, at, parcel)}, multiset{P.Wire(e, parcel)});
      case Deliver(e, parcel) =>
        FrameBag(n.items, frame, multiset{P.Wire(e, parcel)}, multiset{P.Arrived(e, parcel)});
      case Begin(e, node, job) =>
        JoinedThere(n.items, e, node, job);
        JoinedThere(n.items + frame, e, node, job);
        FrameBag(n.items, frame, P.Joined(e, node, job), multiset{P.Running(e, node, job)});
      case Finish(e, node, job) =>
        FrameBag(n.items, frame, multiset{P.Running(e, node, job)}, P.AfterStage(w, e, node, job));
    }
  }

  /** The events of one engine that put nothing into the head's lock queue. */
  ghost predicate Quiet(events: seq<P.Event>, e: nat) {
    forall ev | ev in events :: Inner(ev) && !ev.RunHead? && ev.e == e
  }

  /** The results that events deliver to the head, in order. */
  function Delivered(events: seq<P.Event>): seq<Outcome> {
    if events == [] then []
    else
      (if events[0].Deliver? && events[0].parcel.Back? then [events[0].parcel.outcome] else []) + Delivered(events[1..])
  }

  /** A batch that has left the head's own stage can run to its result while all other items stand
      still; the result is the only one it delivers. */
  lemma {:induction false} RunsThrough(w: P.World, n: P.Net, sts: seq<P.Status>, e: nat, b: P.Launched,
                                       frame: multiset<P.Item>, waiters: seq<seq<P.Launched>>)
    returns (events: seq<P.Event>, items: multiset<P.Item>)
    requires P.Inv(w, n, sts) && e < |sts| && n.launched[e] == Some(b) && !sts[e].pos.AtHead?
    ensures Leads(w, Shared(n.items + frame, n.nodes, waiters), events, Shared(items + frame, n.nodes, waiters))
    ensures P.Ready(e, P.Whole(w, b.request)) in items && Quiet(events, e)
    ensures Delivered(events) == if sts[e].pos.ResultReady? then [] else [P.Whole(w, b.request)]
    decreases RemainingAt(w, n, sts, e)
  {
    hide P.TilingSnapshot, P.PosOk, P.Total, P.Whole, P.JobAfter;
    P.CarrierPresent(w, n, sts, e);
    if sts[e].pos.ResultReady? {
      events, items := [], n.items;
    } else {
      var ev := P.CanMove(w, n, sts, e);
      var sts' := P.Step(w, n, sts, ev);
      Moved(w, sts[e], sts'[e]);
      hide P.Apply, P.Enabled, Enabled, Apply, P.Carrier, P.Remaining;
      FrameStep(w, n, ev, frame, waiters);
      var rest;
      rest, items := RunsThrough(w, P.Apply(w, n, ev), sts', e, b, frame, waiters);
      events := [ev] + rest;
      assert events[1..] == rest;
    }
  }

  predicate OnAWire(p: P.Pos) { p.OnWire? || p.ResultWire? }

  /** A batch over two or more servers that has left the head's own stage, and whose result is not
      in the head's queue, can move on to a wire while all other items stand still. */
  lemma {:induction false} MovesToAWire(w: P.World, n: P.Net, sts: seq<P.Status>, e: nat, b: P.Launched,
                                        frame: multiset<P.Item>, waiters: seq<seq<P.Launched>>)
    returns (events: seq<P.Event>, items: multiset<P.Item>)
    requires P.Inv(w, n, sts) && e < |sts| && n.launched[e] == Some(b) && !sts[e].pos.AtHead?
    requires |b.servers| >= 2 && !sts[e].pos.ResultReady?
    ensures Leads(w, Shared(n.items + frame, n.nodes, waiters), events, Shared(items + frame, n.nodes, waiters))
    ensures Quiet(events, e) && Delivered(events) == []
    decreases RemainingAt(w, n, sts, e)
  {
    hide P.TilingSnapshot, P.PosOk, P.Total, P.Whole, P.JobAfter;
    assert P.StatusOk(w, sts[e]);
    if OnAWire(sts[e].pos) {
      events, items := [], n.items;
    } else {
      var ev := P.CanMove(w, n, sts, e);
      var sts' := P.Step(w, n, sts, ev);
      Moved(w, sts[e], sts'[e]);
      hide P.Apply, P.Enabled, Enabled, Apply, P.Carrier, P.Remaining;
      FrameStep(w, n, ev, frame, waiters);
      var rest;
      rest, items := MovesToAWire(w, P.Apply(w, n, ev), sts', e, b, frame, waiters);
      events := [ev] + rest;
      assert events[1..] == rest;
    }
  }

  /** One event closer to its result, a batch is not at the head's own stage, and its result is in
      the head's queue only if it was on its wire, or the head is alone. */
  lemma Moved(w: P.World, st: P.Status, st': P.Status)
    requires P.StatusOk(w, st) && P.StatusOk(w, st') && st.Busy? && st'.Busy? && st.batch == st'.batch
    requires P.Remaining(st) == P.Remaining(st') + 1
    ensures !st'.pos.AtHead?
    ensures st'.pos.ResultReady? <==> st.pos.ResultWire? || (|st.batch.servers| == 1 && st.pos.AtHead?)
  {
    hide P.Carrier;
  }

  ghost function RemainingAt(w: P.World, n: P.Net, sts: seq<P.Status>, e: nat): nat
    requires P.Inv(w, n, sts) && e < |sts|
  {
    assert P.StatusOk(w, sts[e]);
    P.Remaining(sts[e])
  }

  /** A free engine of an otherwise empty system, and one batch launched on it. */
  lemma Alone(w: P.World, nodes: seq<Topology.Entry>, e: nat, request: Tensor) returns (n: P.Net, sts: seq<P.Status>)
    requires P.TilingSnapshot(w, Topology.ServerList(nodes))
    ensures P.Inv(w, n, sts) && |sts| == e + 1 && n.nodes == nodes
    ensures var s := Topology.ServerList(nodes);
      && n.items == multiset{P.HeadTask(e, request, s)} + P.Triggers(e, s, 1)
      && n.launched[e] == Some(P.Launched(request, s))
  {
    var n0 := P.Net(multiset{}, seq(e + 1, i => None), nodes);
    var sts0 := seq(e + 1, i => P.Idle);
    P.TotalIdle(w, e + 1);
    hide P.TilingSnapshot, Topology.ServerList, P.Triggers, P.Total;
    sts := P.LaunchStep(w, n0, sts0, e, request);
    n := P.Apply(w, n0, P.Launch(e, request));
  }

  lemma LaunchOnBusy(w: P.World, s: Shared, e: nat, request: Tensor, n: P.Net)
    requires var servers := Topology.ServerList(s.nodes);
      n.nodes == s.nodes && n.items == multiset{P.HeadTask(e, request, servers)} + P.Triggers(e, servers, 1)
    requires e < |s.waiters| && |s.waiters[e]| == 1
    ensures var b := P.Launched(request, Topology.ServerList(s.nodes));
      Apply(w, s, P.Launch(e, request))
      == Shared(s.items + n.items, s.nodes, s.waiters[e := [s.waiters[e][0], b]])
  {
    hide P.Triggers, Topology.ServerList;
    var b := P.Launched(request, Topology.ServerList(s.nodes));
    assert s.waiters[e] + [b] == [s.waiters[e][0], b];
  }
}
