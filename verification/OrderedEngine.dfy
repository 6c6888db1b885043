/** Engines shared by several batches, with what the bag of items leaves open: the head's lock
    serves its own stages in the order of the launches, and each output queue hands out its
    results in the order of their arrival. That makes it exact which second launch is safe. */
module OrderedEngine {
  import opened Wrappers
  import opened LayerSplit
  import P = PipelineProtocol
  import S = SharedEngine
  import Topology

  /** `heads` are the head's own stages waiting for its lock, `results[e]` the output queue of
      engine `e`. */
  datatype Ordered = Ordered(s: S.Shared, heads: seq<P.Item>, results: seq<seq<Outcome>>)

  /** The results that an event puts into the output queue of its engine. */
  function Puts(w: P.World, ev: P.Event): seq<Outcome> {
    match ev
    case RunHead(_, request, servers) =>
      if |servers| <= 1 then [Forward(w.model, w.ranges(w.head), request, None)] else []
    case Deliver(_, parcel) => if parcel.Back? then [parcel.outcome] else []
    case _ => []
  }

  function Append(results: seq<seq<Outcome>>, e: nat, xs: seq<Outcome>): seq<seq<Outcome>> {
    if e < |results| then results[e := results[e] + xs] else results
  }

  ghost predicate Enabled(w: P.World, o: Ordered, ev: P.Event) {
    && S.Enabled(w, o.s, ev)
    && (ev.RunHead? ==> o.heads != [] && o.heads[0] == P.HeadTask(ev.e, ev.request, ev.servers))
    && (ev.Dequeue? ==> ev.e < |o.results| && o.results[ev.e] != [] && o.results[ev.e][0] == ev.outcome)
  }

  function Heads(o: Ordered, ev: P.Event): seq<P.Item> {
    match ev
    case Launch(e, request) => o.heads + [P.HeadTask(e, request, Topology.ServerList(o.s.nodes))]
    case RunHead(_, _, _) => if o.heads == [] then [] else o.heads[1..]
    case _ => o.heads
  }

  function Results(w: P.World, o: Ordered, ev: P.Event): seq<seq<Outcome>> {
    match ev
    case Dequeue(e, _) =>
      if e < |o.results| && o.results[e] != [] then o.results[e := o.results[e][1..]] else o.results
    case Join(_, _) => o.results
    case _ => Append(o.results, ev.e, Puts(w, ev))
  }

  function Apply(w: P.World, o: Ordered, ev: P.Event): Ordered {
    Ordered(S.Apply(w, o.s, ev), Heads(o, ev), Results(w, o, ev))
  }

  ghost predicate Leads(w: P.World, o: Ordered, events: seq<P.Event>, o': Ordered)
    decreases |events|
  {
    if events == [] then o == o'
    else Enabled(w, o, events[0]) && Leads(w, Apply(w, o, events[0]), events[1..], o')
  }

  lemma {:induction false} LeadsAppend(w: P.World, o: Ordered, a: seq<P.Event>, m: Ordered, b: seq<P.Event>,
                                         o': Ordered)
    requires Leads(w, o, a, m) && Leads(w, m, b, o')
    ensures Leads(w, o, a + b, o')
    decreases |a|
  {
    hide Enabled, Apply;
    if a == [] {
      assert a + b == b;
    } else {
      LeadsAppend(w, Apply(w, o, a[0]), a[1..], m, b, o');
      assert (a + b)[1..] == a[1..] + b;
    }
  }

  lemma LeadsOne(w: P.World, o: Ordered, ev: P.Event)
    requires Enabled(w, o, ev)
    ensures Leads(w, o, [ev], Apply(w, o, ev))
  {
    hide Enabled, Apply;
    assert [ev][1..] == [];
  }

  ghost predicate Init(o: Ordered) {
    && S.Init(o.s) && o.heads == [] && |o.results| == |o.s.waiters|
    && forall e | 0 <= e < |o.results| :: o.results[e] == []
  }

  /** No launch on the way finds another one waiting on its engine. */
  ghost predicate FreeLaunches(w: P.World, o: Ordered, events: seq<P.Event>)
    decreases |events|
  {
    events != [] ==>
      && (events[0].Launch? ==> events[0].e < |o.s.waiters| && o.s.waiters[events[0].e] == [])
      && FreeLaunches(w, Apply(w, o, events[0]), events[1..])
  }

  // ------------------------------------------------------ queues and bag agree

  /** The two kinds of queues hold what the bag holds of them. */
  ghost predicate Agrees(o: Ordered) {
    && |o.results| == |o.s.waiters| && (forall h | h in o.heads :: h.HeadTask?)
    && (forall it: P.Item | it.HeadTask? :: o.s.items[it] == multiset(o.heads)[it])
    && (forall e: nat, x | e < |o.results| :: o.s.items[P.Ready(e, x)] == multiset(o.results[e])[x])
  }

  /** What an event does to the tasks and results in the bag. */
  lemma LaunchAgrees(w: P.World, o: Ordered, ev: P.Event)
    requires Agrees(o) && Enabled(w, o, ev) && ev.Launch?
    ensures Agrees(Apply(w, o, ev))
  {
    hide P.TilingSnapshot, Topology.ServerList, P.Triggers;
    var s := Topology.ServerList(o.s.nodes);
    forall it: P.Item | !it.Trigger? ensures P.Triggers(ev.e, s, 1)[it] == 0 {
      P.TriggersCount(ev.e, s, 1, it);
    }
    var o' := Apply(w, o, ev);
    forall e: nat | e < |o.results| ensures o'.results[e] == o.results[e] {
      assert o.results[e] + [] == o.results[e];
    }
  }

  /** What an event other than a launch takes out of the bag, and what it puts into it. */
  function Gone(ev: P.Event): multiset<P.Item> {
    match ev
    case RunHead(e, request, servers) => multiset{P.HeadTask(e, request, servers)}
    case Send(e, at, parcel) => multiset{P.Outbox(e, at, parcel)}
    case Deliver(e, parcel) => multiset{P.Wire(e, parcel)}
    case Begin(e, node, job) => P.Joined(e, node, job)
    case Finish(e, node, job) => multiset{P.Running(e, node, job)}
    case Dequeue(e, x) => multiset{P.Ready(e, x)}
    case _ => multiset{}
  }

  function Come(w: P.World, ev: P.Event): multiset<P.Item> {
    match ev
    case RunHead(e, request, servers) => P.AfterHead(w, e, request, servers)
    case Send(e, _, parcel) => multiset{P.Wire(e, parcel)}
    case Deliver(e, parcel) => multiset{P.Arrived(e, parcel)}
    case Begin(e, node, job) => multiset{P.Running(e, node, job)}
    case Finish(e, node, job) => P.AfterStage(w, e, node, job)
    case _ => multiset{}
  }

  lemma Effect(w: P.World, s: S.Shared, ev: P.Event)
    requires S.Enabled(w, s, ev) && !ev.Launch?
    ensures Gone(ev) <= s.items && S.Apply(w, s, ev).items == s.items - Gone(ev) + Come(w, ev)
    ensures |S.Apply(w, s, ev).waiters| == |s.waiters|
  {
    hide P.AfterHead, P.AfterStage, P.Arrived, P.Joined, Topology.Put, P.TilingSnapshot;
    if ev.Begin? {
      S.JoinedThere(s.items, ev.e, ev.node, ev.job);
    } else {
      OneGone(w, s, ev);
    }
  }

  lemma OneGone(w: P.World, s: S.Shared, ev: P.Event)
    requires S.Enabled(w, s, ev) && !ev.Launch? && !ev.Begin?
    ensures Gone(ev) <= s.items && S.Apply(w, s, ev).items == s.items - Gone(ev) + Come(w, ev)
  {
    hide P.AfterHead, P.AfterStage, P.Arrived, Topology.Put, P.TilingSnapshot;
  }

  lemma GoneKinds(ev: P.Event, it: P.Item)
    requires it.HeadTask? || it.Ready?
    ensures Gone(ev)[it] == if (ev.RunHead? && it == P.HeadTask(ev.e, ev.request, ev.servers))
                               || (ev.Dequeue? && it == P.Ready(ev.e, ev.outcome)) then 1 else 0
  {}

  lemma ComeKinds(w: P.World, ev: P.Event, it: P.Item)
    requires it.HeadTask? || it.Ready?
    ensures it.HeadTask? ==> Come(w, ev)[it] == 0
    ensures it.Ready? && !ev.Join? && it.e == ev.e ==> Come(w, ev)[it] == multiset(Puts(w, ev))[it.outcome]
    ensures it.Ready? && (ev.Join? || it.e != ev.e) ==> Come(w, ev)[it] == 0
  {
    if ev.RunHead? {
      HeadKinds(w, ev.e, ev.request, ev.servers, it);
    } else if ev.Finish? {
      StageKinds(w, ev.e, ev.node, ev.job, it);
    }
    hide P.AfterHead, P.AfterStage, Forward;
  }

  lemma HeadKinds(w: P.World, e: nat, request: Tensor, servers: seq<P.Ip>, it: P.Item)
    requires it.HeadTask? || it.Ready?
    ensures P.AfterHead(w, e, request, servers)[it]
         == if |servers| <= 1 && it == P.Ready(e, Forward(w.model, w.ranges(w.head), request, None)) then 1 else 0
  {
    hide Forward;
  }

  lemma StageKinds(w: P.World, e: nat, node: P.Ip, job: P.Job, it: P.Item)
    requires it.HeadTask? || it.Ready?
    ensures P.AfterStage(w, e, node, job)[it] == 0
  {
    hide Forward, P.RouteByStage;
  }

  lemma OtherAgrees(w: P.World, o: Ordered, ev: P.Event)
    requires Agrees(o) && Enabled(w, o, ev) && !ev.Launch?
    ensures Agrees(Apply(w, o, ev))
  {
    var o' := Apply(w, o, ev);
    Effect(w, o.s, ev);
    HeadsAfter(w, o, ev);
    assert |Results(w, o, ev)| == |o.results|;
    hide S.Apply, Enabled, Gone, Come, Puts, Heads, Results;
    forall it: P.Item | it.HeadTask? ensures o'.s.items[it] == multiset(o'.heads)[it] {
      OneHead(w, o, ev, it);
    }
    forall e: nat, x | e < |o.results| ensures o'.s.items[P.Ready(e, x)] == multiset(o'.results[e])[x] {
      OneResult(w, o, ev, e, x);
    }
  }

  lemma OneHead(w: P.World, o: Ordered, ev: P.Event, it: P.Item)
    requires Agrees(o) && Enabled(w, o, ev) && !ev.Launch? && it.HeadTask?
    ensures S.Apply(w, o.s, ev).items[it] == multiset(Heads(o, ev))[it]
  {
    hide S.Apply, S.Enabled, Gone, Come, Puts, Results, Heads;
    Effect(w, o.s, ev);
    HeadsAfter(w, o, ev);
    GoneKinds(ev, it);
    ComeKinds(w, ev, it);
  }

  lemma OneResult(w: P.World, o: Ordered, ev: P.Event, e: nat, x: Outcome)
    requires Agrees(o) && Enabled(w, o, ev) && !ev.Launch? && e < |o.results|
    ensures |Results(w, o, ev)| == |o.results|
    ensures S.Apply(w, o.s, ev).items[P.Ready(e, x)] == multiset(Results(w, o, ev)[e])[x]
  {
    hide S.Apply, S.Enabled, Gone, Come, Puts, Results, Heads;
    Effect(w, o.s, ev);
    ResultsAfter(w, o, ev, e, x);
    GoneKinds(ev, P.Ready(e, x));
    ComeKinds(w, ev, P.Ready(e, x));
    assert o.s.items[P.Ready(e, x)] == multiset(o.results[e])[x];
    assert Gone(ev)[P.Ready(e, x)] <= o.s.items[P.Ready(e, x)];
  }

  /** The queues lose and gain the same. */
  lemma HeadsAfter(w: P.World, o: Ordered, ev: P.Event)
    requires Agrees(o) && Enabled(w, o, ev) && !ev.Launch?
    ensures forall h | h in Heads(o, ev) :: h.HeadTask?
    ensures forall it ::
              multiset(Heads(o, ev))[it]
              == multiset(o.heads)[it] - if ev.RunHead? && it == P.HeadTask(ev.e, ev.request, ev.servers) then 1 else 0
  {
    HeadsAreTasks(o);
    hide S.Enabled, Agrees;
    if ev.RunHead? {
      assert o.heads == [o.heads[0]] + o.heads[1..];
    }
  }

  lemma ResultsAfter(w: P.World, o: Ordered, ev: P.Event, e: nat, x: Outcome)
    requires Enabled(w, o, ev) && !ev.Launch? && e < |o.results|
    ensures |Results(w, o, ev)| == |o.results|
    ensures multiset(Results(w, o, ev)[e])[x]
         == multiset(o.results[e])[x] - (if ev.Dequeue? && e == ev.e && x == ev.outcome then 1 else 0)
            + (if !ev.Join? && e == ev.e then multiset(Puts(w, ev))[x] else 0)
  {
    hide S.Enabled;
    if ev.Dequeue? {
      assert o.results[ev.e] == [o.results[ev.e][0]] + o.results[ev.e][1..];
    }
    assert ev.Dequeue? ==> Puts(w, ev) == [];
    hide Puts;
  }

  lemma HeadsAreTasks(o: Ordered)
    requires Agrees(o)
    ensures forall h | h in o.heads :: h.HeadTask?
  {}

  lemma StepAgrees(w: P.World, o: Ordered, ev: P.Event)
    requires Agrees(o) && Enabled(w, o, ev)
    ensures Agrees(Apply(w, o, ev))
  {
    hide Agrees, Enabled, Apply;
    if ev.Launch? {
      LaunchAgrees(w, o, ev);
    } else {
      OtherAgrees(w, o, ev);
    }
  }

  /** In a run whose launches find their engines free, the queues agree with the bag, and the bag is
      that of a run of the protocol. */
  lemma {:induction false} FreeRun(w: P.World, o: Ordered, sts: seq<P.Status>, events: seq<P.Event>, o': Ordered)
    returns (sts': seq<P.Status>)
    requires Agrees(o) && S.AtMostOne(o.s) && P.Inv(w, S.Single(o.s), sts)
    requires Leads(w, o, events, o') && FreeLaunches(w, o, events)
    ensures Agrees(o') && S.AtMostOne(o'.s) && P.Inv(w, S.Single(o'.s), sts')
    decreases |events|
  {
    hide Agrees, Enabled, Heads, Results, P.Inv, P.Enabled, P.Apply, P.Closer;
    hide S.Enabled, S.Apply, S.Single, S.AtMostOne;
    sts' := sts;
    if events != [] {
      StepAgrees(w, o, events[0]);
      EnabledInBag(w, o, events[0]);
      S.FreeStep(w, o.s, events[0]);
      sts' := P.Step(w, S.Single(o.s), sts, events[0]);
      sts' := FreeRun(w, Apply(w, o, events[0]), sts', events[1..], o');
    }
  }

  lemma EnabledInBag(w: P.World, o: Ordered, ev: P.Event)
    requires Enabled(w, o, ev)
    ensures S.Enabled(w, o.s, ev)
  {}

  lemma InitAgrees(w: P.World, o: Ordered) returns (sts: seq<P.Status>)
    requires Init(o)
    ensures Agrees(o) && S.AtMostOne(o.s) && P.Inv(w, S.Single(o.s), sts)
  {
    sts := seq(|o.s.waiters|, e => P.Idle);
    P.TotalIdle(w, |o.s.waiters|);
  }

  // ------------------------------------------------------------ the safe launches

  /** The first task in the lock queue that belongs to an engine. */
  function FirstHead(heads: seq<P.Item>, e: nat): Option<P.Item> {
    if heads == [] then None
    else if heads[0].e == e then Some(heads[0])
    else FirstHead(heads[1..], e)
  }

  lemma {:induction false} FirstHeadAppend(heads: seq<P.Item>, h: P.Item, e: nat)
    requires FirstHead(heads, e).Some?
    ensures FirstHead(heads + [h], e) == FirstHead(heads, e)
  {
    if heads[0].e != e {
      FirstHeadAppend(heads[1..], h, e);
      assert (heads + [h])[1..] == heads[1..] + [h];
    }
  }

  lemma {:induction false} FirstHeadIn(heads: seq<P.Item>, e: nat, it: P.Item)
    requires it in heads && it.e == e
    requires forall h | h in heads && h.e == e :: h == it
    ensures FirstHead(heads, e) == Some(it)
  {
    if heads[0].e != e {
      FirstHeadIn(heads[1..], e, it);
    }
  }

  function Answer(w: P.World, b: P.Launched): Outcome {
    Forward(w.model, Range(0, w.model.numLayers), b.request, None)
  }

  /** The launch waits longest on its engine, and its answer is the next in the output queue, or
      the head is alone and its stage for this batch is the next of this engine. */
  ghost predicate First(w: P.World, o: Ordered, e: nat, b: P.Launched) {
    && e < |o.results| == |o.s.waiters| && o.s.waiters[e] != [] && o.s.waiters[e][0] == b
    && (o.results[e] != [] ==> o.results[e][0] == Answer(w, b))
    && (o.results[e] == [] ==>
          && |b.servers| <= 1 && P.TilingSnapshot(w, b.servers)
          && FirstHead(o.heads, e) == Some(P.HeadTask(e, b.request, b.servers))
          && forall it | it in o.s.items && it.e == e :: it.HeadTask? || it.Trigger?)
  }

  /** A head that is alone answers as a single node with all layers. */
  lemma HeadAlone(w: P.World, b: P.Launched)
    requires P.TilingSnapshot(w, b.servers) && |b.servers| <= 1
    ensures Forward(w.model, w.ranges(w.head), b.request, None) == Answer(w, b)
  {
    var r := P.RangesOf(w, b.servers)[0];
    assert r == w.ranges(w.head) && r == Range(0, w.model.numLayers);
  }

  ghost predicate Stays(w: P.World, ev: P.Event, e: nat) { !(ev.Dequeue? && ev.e == e) }

  /** With its answer in the queue, a launch stays first until it is served. */
  lemma QueuedStaysFirst(w: P.World, o: Ordered, ev: P.Event, e: nat, b: P.Launched)
    requires First(w, o, e, b) && o.results[e] != [] && Enabled(w, o, ev) && Stays(w, ev, e)
    ensures First(w, Apply(w, o, ev), e, b)
  {
    hide Answer, Puts, P.TilingSnapshot, P.Apply, P.Triggers, Topology.ServerList, Heads;
    WaitersStay(w, o, ev, e);
  }

  lemma WaitersStay(w: P.World, o: Ordered, ev: P.Event, e: nat)
    requires S.Enabled(w, o.s, ev) && Stays(w, ev, e) && e < |o.s.waiters| && o.s.waiters[e] != []
    ensures var s' := S.Apply(w, o.s, ev);
      |s'.waiters| == |o.s.waiters| && s'.waiters[e] != [] && s'.waiters[e][0] == o.s.waiters[e][0]
  {
    hide P.Apply, P.Triggers, Topology.ServerList, P.TilingSnapshot;
  }

  /** An event of an engine that has only tasks waiting for the lock is a launch or the next of
      these tasks. */
  lemma OnlyHeadsMove(w: P.World, o: Ordered, ev: P.Event, e: nat)
    requires Enabled(w, o, ev) && Stays(w, ev, e) && !ev.Join? && ev.e == e
    requires forall it | it in o.s.items && it.e == e :: it.HeadTask? || it.Trigger?
    ensures ev.Launch? || ev.RunHead?
  {
    hide P.TilingSnapshot, Topology.ServerList;
  }

  lemma HeadStaysFirst(w: P.World, o: Ordered, ev: P.Event, e: nat, b: P.Launched)
    requires First(w, o, e, b) && o.results[e] == [] && Enabled(w, o, ev) && Stays(w, ev, e)
    ensures First(w, Apply(w, o, ev), e, b)
  {
    hide Forward, P.TilingSnapshot, P.Apply, Topology.ServerList, P.Triggers, S.Apply, S.Enabled, Heads, Results, Puts;
    if !ev.Join? && ev.e == e {
      OnlyHeadsMove(w, o, ev, e);
      if ev.RunHead? {
        OwnHead(w, o, ev, e, b);
      } else {
        OwnLaunch(w, o, ev, e, b);
      }
    } else {
      WaitersStay(w, o, ev, e);
      OthersApart(w, o, ev, e);
    }
  }

  lemma OwnHead(w: P.World, o: Ordered, ev: P.Event, e: nat, b: P.Launched)
    requires First(w, o, e, b) && o.results[e] == [] && Enabled(w, o, ev) && ev.RunHead? && ev.e == e
    ensures First(w, Apply(w, o, ev), e, b)
  {
    WaitersStay(w, o, ev, e);
    HeadAlone(w, b);
    hide Forward, P.TilingSnapshot, S.Apply, S.Enabled, Answer;
    assert FirstHead(o.heads, e) == Some(o.heads[0]);
  }

  lemma OwnLaunch(w: P.World, o: Ordered, ev: P.Event, e: nat, b: P.Launched)
    requires First(w, o, e, b) && o.results[e] == [] && Enabled(w, o, ev) && ev.Launch? && ev.e == e
    ensures First(w, Apply(w, o, ev), e, b)
  {
    WaitersStay(w, o, ev, e);
    LaunchBehind(w, o, ev, e);
    hide Forward, P.TilingSnapshot, S.Apply, S.Enabled, Topology.ServerList, Heads;
    assert o.results[e] + [] == o.results[e];
  }

  lemma LaunchBehind(w: P.World, o: Ordered, ev: P.Event, e: nat)
    requires ev.Launch? && ev.e == e && FirstHead(o.heads, e).Some?
    requires forall it | it in o.s.items && it.e == e :: it.HeadTask? || it.Trigger?
    ensures FirstHead(Heads(o, ev), e) == FirstHead(o.heads, e)
    ensures forall it | it in S.Apply(w, o.s, ev).items && it.e == e :: it.HeadTask? || it.Trigger?
  {
    hide Topology.ServerList;
    var s := Topology.ServerList(o.s.nodes);
    FirstHeadAppend(o.heads, P.HeadTask(e, ev.request, s), e);
    forall it | it in S.Apply(w, o.s, ev).items && it.e == e ensures it.HeadTask? || it.Trigger? {
      if it in P.Triggers(e, s, 1) { P.TriggersOf(e, s, 1, it); }
    }
  }

  /** Events of other engines leave this one's tasks, items and results alone. */
  lemma OthersApart(w: P.World, o: Ordered, ev: P.Event, e: nat)
    requires Enabled(w, o, ev) && (ev.Join? || ev.e != e) && FirstHead(o.heads, e).Some? && e < |o.results|
    ensures FirstHead(Heads(o, ev), e) == FirstHead(o.heads, e)
    ensures |Results(w, o, ev)| == |o.results| && Results(w, o, ev)[e] == o.results[e]
    ensures forall it | it in S.Apply(w, o.s, ev).items && it.e == e :: it in o.s.items
  {
    hide S.Apply, S.Enabled, Enabled, Heads, Results, FirstHead;
    HeadsApart(w, o, ev, e);
    ResultsApart(w, o, ev, e);
    forall it | it in S.Apply(w, o.s, ev).items && it.e == e ensures it in o.s.items {
      ItemsApart(w, o.s, ev, e, it);
    }
  }

  lemma HeadsApart(w: P.World, o: Ordered, ev: P.Event, e: nat)
    requires Enabled(w, o, ev) && (ev.Join? || ev.e != e) && FirstHead(o.heads, e).Some?
    ensures FirstHead(Heads(o, ev), e) == FirstHead(o.heads, e) && S.Enabled(w, o.s, ev)
  {
    hide S.Enabled, Topology.ServerList;
    if ev.Launch? {
      FirstHeadAppend(o.heads, P.HeadTask(ev.e, ev.request, Topology.ServerList(o.s.nodes)), e);
    }
  }

  lemma ResultsApart(w: P.World, o: Ordered, ev: P.Event, e: nat)
    requires (ev.Join? || ev.e != e) && e < |o.results|
    ensures |Results(w, o, ev)| == |o.results| && Results(w, o, ev)[e] == o.results[e]
  {
    hide Puts;
  }

  lemma ItemsApart(w: P.World, s: S.Shared, ev: P.Event, e: nat, it: P.Item)
    requires S.Enabled(w, s, ev) && (ev.Join? || ev.e != e) && it in S.Apply(w, s, ev).items && it.e == e
    ensures it in s.items
  {
    hide Topology.ServerList, P.Triggers, P.Apply, P.TilingSnapshot, Come, Gone;
    if ev.Launch? {
      var servers := Topology.ServerList(s.nodes);
      if it in P.Triggers(ev.e, servers, 1) { P.TriggersOf(ev.e, servers, 1, it); }
    } else {
      Effect(w, s, ev);
      hide S.Apply, S.Enabled;
      if it in Come(w, ev) { ComesForEngine(w, ev, it); }
    }
  }

  lemma ComesForEngine(w: P.World, ev: P.Event, it: P.Item)
    requires it in Come(w, ev)
    ensures !ev.Join? && it.e == ev.e
  {
    hide Forward, P.RouteByStage;
  }

  lemma {:induction false} FirstStays(w: P.World, o: Ordered, e: nat, b: P.Launched, events: seq<P.Event>, o': Ordered)
    requires First(w, o, e, b) && Leads(w, o, events, o') && forall ev | ev in events :: Stays(w, ev, e)
    ensures First(w, o', e, b)
    decreases |events|
  {
    hide First, Enabled, Apply, Stays;
    if events != [] {
      StepStays(w, o, events[0], e, b);
      FirstStays(w, Apply(w, o, events[0]), e, b, events[1..], o');
    }
  }

  lemma StepStays(w: P.World, o: Ordered, ev: P.Event, e: nat, b: P.Launched)
    requires First(w, o, e, b) && Enabled(w, o, ev) && Stays(w, ev, e)
    ensures First(w, Apply(w, o, ev), e, b)
  {
    var queued := o.results[e] != [];
    hide Enabled, Apply, Stays, Answer, P.TilingSnapshot;
    if queued {
      QueuedStaysFirst(w, o, ev, e, b);
    } else {
      HeadStaysFirst(w, o, ev, e, b);
    }
  }

  // ---------------------------------------------------------- the unsafe launches

  /** Events of one engine that take no task from the lock queue happen here as in the bag; only its
      output queue gains what they deliver. */
  lemma {:induction false} Lift(w: P.World, o: Ordered, e: nat, events: seq<P.Event>, s': S.Shared)
    requires S.Leads(w, o.s, events, s') && S.Quiet(events, e) && e < |o.results|
    ensures Leads(w, o, events, Ordered(s', o.heads, o.results[e := o.results[e] + S.Delivered(events)]))
    decreases |events|
  {
    hide S.Enabled, S.Apply;
    if events == [] {
      AppendNothing(o.results, e);
    } else {
      var ev := events[0];
      var o1 := Apply(w, o, ev);
      assert ev in events && forall x | x in events[1..] :: x in events;
      QuietStep(w, o, ev, e);
      Lift(w, o1, e, events[1..], s');
      AppendTwice(o.results, e, Puts(w, ev), S.Delivered(events[1..]));
      assert Puts(w, ev) + S.Delivered(events[1..]) == S.Delivered(events) by {
        hide Forward;
      }
      hide Apply, Enabled, Puts, S.Delivered;
    }
  }

  lemma AppendNothing(results: seq<seq<Outcome>>, e: nat)
    requires e < |results|
    ensures results[e := results[e] + []] == results
  {
    assert results[e] + [] == results[e];
  }

  lemma AppendTwice(results: seq<seq<Outcome>>, e: nat, xs: seq<Outcome>, ys: seq<Outcome>)
    requires e < |results|
    ensures var r := results[e := results[e] + xs]; r[e := r[e] + ys] == results[e := results[e] + (xs + ys)]
  {
    assert (results[e] + xs) + ys == results[e] + (xs + ys);
  }

  lemma QuietStep(w: P.World, o: Ordered, ev: P.Event, e: nat)
    requires S.Enabled(w, o.s, ev) && S.Inner(ev) && !ev.RunHead? && ev.e == e && e < |o.results|
    ensures Enabled(w, o, ev)
    ensures Apply(w, o, ev) == Ordered(S.Apply(w, o.s, ev), o.heads, o.results[e := o.results[e] + Puts(w, ev)])
  {
    hide S.Enabled, S.Apply, Puts;
  }

  /** The tasks before another one in the lock queue run, and the batch of an engine whose snapshot
      has two servers or more leaves the head, if it was there, but gets no result. */
  lemma {:induction false} Drains(w: P.World, n: P.Net, sts: seq<P.Status>, e: nat, b: P.Launched, tasks: seq<P.Item>,
                                  last: P.Item, frame: multiset<P.Item>, waiters: seq<seq<P.Launched>>,
                                  results: seq<seq<Outcome>>)
    returns (events: seq<P.Event>, n': P.Net, sts': seq<P.Status>, results': seq<seq<Outcome>>)
    requires P.Inv(w, n, sts) && e < |sts| && n.launched[e] == Some(b) && |b.servers| >= 2
    requires !sts[e].pos.ResultReady? && (sts[e].pos.AtHead? ==> P.HeadTask(e, b.request, b.servers) in tasks)
    requires multiset(tasks) <= n.items && (forall h | h in tasks :: h.HeadTask?)
    requires e < |results| && results[e] == []
    ensures Leads(w, Ordered(S.Shared(n.items + frame, n.nodes, waiters), tasks + [last], results), events,
                  Ordered(S.Shared(n'.items + frame, n.nodes, waiters), [last], results'))
    ensures P.Inv(w, n', sts') && |sts'| == |sts| && n'.launched == n.launched && n'.nodes == n.nodes
    ensures !sts'[e].pos.ResultReady? && !sts'[e].pos.AtHead?
    ensures |results'| == |results| && results'[e] == []
    ensures forall ev | ev in events :: S.Inner(ev)
    decreases |tasks|
  {
    hide P.Inv, P.Apply, P.Enabled, Enabled, Apply, S.Apply, S.Enabled, P.Closer;
    if tasks == [] {
      events, n', sts', results' := [], n, sts, results;
      assert [] + [last] == [last];
    } else {
      var h := tasks[0];
      assert h in tasks && h in multiset(tasks) && multiset(tasks)[h] <= n.items[h];
      var ev := P.RunHead(h.e, h.request, h.servers);
      assert P.Enabled(w, n, ev) by { TaskEnabled(w, n, h); }
      var n1, sts1 := DrainOne(w, n, sts, e, b, ev);
      S.FrameStep(w, n, ev, frame, waiters);
      var o := Ordered(S.Shared(n.items + frame, n.nodes, waiters), tasks + [last], results);
      var results1 := Append(results, h.e, Puts(w, ev));
      DrainStep(w, o, ev);
      TailWithin(n.items, tasks, P.AfterHead(w, h.e, h.request, h.servers));
      assert (tasks + [last])[1..] == tasks[1..] + [last] && results[e] + [] == results[e];
      TaskLeft(tasks, P.HeadTask(e, b.request, b.servers));
      var rest;
      rest, n', sts', results' := Drains(w, n1, sts1, e, b, tasks[1..], last, frame, waiters, results1);
      events := [ev] + rest;
      assert events[1..] == rest;
    }
  }

  lemma TaskEnabled(w: P.World, n: P.Net, h: P.Item)
    requires h in n.items && h.HeadTask?
    ensures P.Enabled(w, n, P.RunHead(h.e, h.request, h.servers))
  {}

  lemma TaskLeft(tasks: seq<P.Item>, it: P.Item)
    requires tasks != []
    ensures it in tasks ==> it == tasks[0] || it in tasks[1..]
    ensures forall h | h in tasks[1..] :: h in tasks
  {}

  lemma TailWithin(items: multiset<P.Item>, tasks: seq<P.Item>, come: multiset<P.Item>)
    requires tasks != [] && multiset(tasks) <= items
    ensures multiset(tasks[1..]) <= items - multiset{tasks[0]} + come
  {
    assert tasks == [tasks[0]] + tasks[1..];
  }

  lemma DrainStep(w: P.World, o: Ordered, ev: P.Event)
    requires S.Enabled(w, o.s, ev) && ev.RunHead? && o.heads != []
    requires o.heads[0] == P.HeadTask(ev.e, ev.request, ev.servers)
    ensures Enabled(w, o, ev)
    ensures Apply(w, o, ev) == Ordered(S.Apply(w, o.s, ev), o.heads[1..], Append(o.results, ev.e, Puts(w, ev)))
  {
    hide S.Enabled, S.Apply, Puts;
  }

  lemma DrainOne(w: P.World, n: P.Net, sts: seq<P.Status>, e: nat, b: P.Launched, ev: P.Event)
    returns (n1: P.Net, sts1: seq<P.Status>)
    requires P.Inv(w, n, sts) && e < |sts| && n.launched[e] == Some(b) && |b.servers| >= 2 && !sts[e].pos.ResultReady?
    requires ev.RunHead? && P.Enabled(w, n, ev)
    ensures n1 == P.Apply(w, n, ev) && P.Inv(w, n1, sts1) && |sts1| == |sts|
    ensures n1.launched == n.launched && n1.nodes == n.nodes
    ensures n1.items == n.items - multiset{P.HeadTask(ev.e, ev.request, ev.servers)}
                        + P.AfterHead(w, ev.e, ev.request, ev.servers)
    ensures sts1[e].Busy? && !sts1[e].pos.ResultReady?
    ensures ev.e == e ==> ev == P.RunHead(e, b.request, b.servers) && !sts1[e].pos.AtHead?
    ensures ev.e != e ==> sts1[e] == sts[e]
  {
    hide P.Total, P.TilingSnapshot, P.Carrier, P.AfterHead;
    n1 := P.Apply(w, n, ev);
    sts1 := P.Step(w, n, sts, ev);
    if ev.e == e {
      var b0, p := P.Locate(w, n, sts, P.HeadTask(e, ev.request, ev.servers));
      IsHeadTask(w, e, b, p, ev.request, ev.servers);
      assert P.StatusOk(w, sts1[e]);
      S.Moved(w, sts[e], sts1[e]);
    }
  }

  lemma IsHeadTask(w: P.World, e: nat, b: P.Launched, p: P.Pos, request: Tensor, servers: seq<P.Ip>)
    requires b.servers != [] && P.PosOk(b.servers, p) && P.Carrier(w, e, b, p) == P.HeadTask(e, request, servers)
    ensures p == P.AtHead && request == b.request && servers == b.servers
  {
    hide P.JobAfter, P.Whole;
  }

  /** The only batch of a new engine leaves the head's own stage. */
  lemma LeavesHead(w: P.World, n: P.Net, sts: seq<P.Status>, e: nat, b: P.Launched)
    returns (n': P.Net, sts': seq<P.Status>)
    requires P.Inv(w, n, sts) && e < |sts| && n.launched[e] == Some(b) && P.HeadTask(e, b.request, b.servers) in n.items
    ensures P.Enabled(w, n, P.RunHead(e, b.request, b.servers))
    ensures n' == P.Apply(w, n, P.RunHead(e, b.request, b.servers))
    ensures P.Inv(w, n', sts') && |sts'| == |sts| && n'.launched == n.launched && n'.nodes == n.nodes
    ensures sts'[e].Busy? && !sts'[e].pos.AtHead? && (sts'[e].pos.ResultReady? <==> |b.servers| <= 1)
  {
    hide P.Total, P.Carrier, P.AfterHead;
    var ev := P.RunHead(e, b.request, b.servers);
    var b0, p := P.Locate(w, n, sts, P.HeadTask(e, b.request, b.servers));
    IsHeadTask(w, e, b, p, b.request, b.servers);
    n' := P.Apply(w, n, ev);
    sts' := P.Step(w, n, sts, ev);
    assert P.StatusOk(w, sts'[e]);
    S.Moved(w, sts[e], sts'[e]);
  }

  /** Once the tasks at the head have run, the second batch overtakes the first: its result is the
      only one to reach the output queue. */
  lemma Overtakes(w: P.World, e: nat, n1: P.Net, sts1: seq<P.Status>, b1: P.Launched, n2: P.Net, sts2: seq<P.Status>,
                  b2: P.Launched, waiters: seq<seq<P.Launched>>, results: seq<seq<Outcome>>)
    returns (events: seq<P.Event>, o': Ordered)
    requires P.Inv(w, n1, sts1) && e < |sts1| && n1.launched[e] == Some(b1) && |b1.servers| >= 2
    requires !sts1[e].pos.AtHead? && !sts1[e].pos.ResultReady?
    requires P.Inv(w, n2, sts2) && e < |sts2| && n2.launched[e] == Some(b2) && !sts2[e].pos.AtHead?
    requires n1.nodes == n2.nodes && P.TilingSnapshot(w, b2.servers)
    requires e < |results| && results[e] == if sts2[e].pos.ResultReady? then [Answer(w, b2)] else []
    ensures Leads(w, Ordered(S.Shared(n1.items + n2.items, n1.nodes, waiters), [], results), events, o')
    ensures forall ev | ev in events :: S.Inner(ev)
    ensures o'.s.waiters == waiters && e < |o'.results| && o'.results[e] == [Answer(w, b2)]
    ensures P.Ready(e, Answer(w, b2)) in o'.s.items
  {
    assert P.Whole(w, b2.request) == Answer(w, b2) by { P.WholeIsForward(w, b2); }
    hide *;
    var start := Ordered(S.Shared(n1.items + n2.items, n1.nodes, waiters), [], results);
    var moves, first := FirstMoves(w, e, n1, sts1, b1, n2.items, waiters, results);
    var rest, answer := SecondArrives(w, e, n2, sts2, b2, first, waiters, results);
    assert first + n2.items == n2.items + first;
    var middle := Ordered(S.Shared(n2.items + first, n1.nodes, waiters), [], results);
    o' := Ordered(S.Shared(answer + first, n1.nodes, waiters), [], results[e := [Answer(w, b2)]]);
    events := moves + rest;
    LeadsAppend(w, start, moves, middle, rest, o');
  }

  lemma FirstMoves(w: P.World, e: nat, n: P.Net, sts: seq<P.Status>, b: P.Launched, frame: multiset<P.Item>,
                   waiters: seq<seq<P.Launched>>, results: seq<seq<Outcome>>)
    returns (moves: seq<P.Event>, items: multiset<P.Item>)
    requires P.Inv(w, n, sts) && e < |sts| && n.launched[e] == Some(b) && |b.servers| >= 2 && e < |results|
    requires !sts[e].pos.AtHead? && !sts[e].pos.ResultReady?
    ensures Leads(w, Ordered(S.Shared(n.items + frame, n.nodes, waiters), [], results), moves,
                  Ordered(S.Shared(items + frame, n.nodes, waiters), [], results))
    ensures forall ev | ev in moves :: S.Inner(ev)
  {
    hide P.Inv, Leads, S.Leads, S.Delivered;
    moves, items := S.MovesToAWire(w, n, sts, e, b, frame, waiters);
    AppendNothing(results, e);
    Lift(w, Ordered(S.Shared(n.items + frame, n.nodes, waiters), [], results), e, moves,
         S.Shared(items + frame, n.nodes, waiters));
  }

  lemma SecondArrives(w: P.World, e: nat, n: P.Net, sts: seq<P.Status>, b: P.Launched, frame: multiset<P.Item>,
                      waiters: seq<seq<P.Launched>>, results: seq<seq<Outcome>>)
    returns (rest: seq<P.Event>, items: multiset<P.Item>)
    requires P.Inv(w, n, sts) && e < |sts| && n.launched[e] == Some(b) && !sts[e].pos.AtHead? && e < |results|
    requires P.Whole(w, b.request) == Answer(w, b)
    requires results[e] == if sts[e].pos.ResultReady? then [Answer(w, b)] else []
    ensures Leads(w, Ordered(S.Shared(n.items + frame, n.nodes, waiters), [], results), rest,
                  Ordered(S.Shared(items + frame, n.nodes, waiters), [], results[e := [Answer(w, b)]]))
    ensures (forall ev | ev in rest :: S.Inner(ev)) && P.Ready(e, Answer(w, b)) in items
  {
    hide P.Inv, Leads, S.Leads, S.Delivered, P.Whole, Answer;
    rest, items := S.RunsThrough(w, n, sts, e, b, frame, waiters);
    assert results[e] + S.Delivered(rest) == [Answer(w, b)];
    Lift(w, Ordered(S.Shared(n.items + frame, n.nodes, waiters), [], results), e, rest,
         S.Shared(items + frame, n.nodes, waiters));
  }

  // ------------------------------------------------------ which launches are safe

  /** Where the batch that an engine waits for is, as the queues show it. */
  lemma WhereFirst(w: P.World, o: Ordered, sts: seq<P.Status>, e: nat)
    requires Agrees(o) && S.AtMostOne(o.s) && P.Inv(w, S.Single(o.s), sts) && e < |o.s.waiters| && o.s.waiters[e] != []
    ensures e < |sts| && e < |o.results| && S.Single(o.s).launched[e] == Some(o.s.waiters[e][0])
    ensures sts[e].Busy? && sts[e].batch == o.s.waiters[e][0] && P.StatusOk(w, sts[e])
    ensures forall it | it in o.s.items && it.e == e && !it.Trigger? :: it == P.Carrier(w, e, sts[e].batch, sts[e].pos)
    ensures P.Carrier(w, e, sts[e].batch, sts[e].pos) in o.s.items
  {
    hide P.Total, P.Expected, P.TilingSnapshot, P.Carrier;
    P.CarrierPresent(w, S.Single(o.s), sts, e);
    P.SnapshotNotEmpty(w, sts[e].batch.servers);
    hide Agrees;
    forall it | it in o.s.items && it.e == e && !it.Trigger? ensures it == P.Carrier(w, e, sts[e].batch, sts[e].pos) {
      P.ItemBelongs(w, sts, it);
      P.ExpectedItems(w, e, sts[e], it);
    }
  }

  /** The queues hold exactly the tasks and results in the bag. */
  lemma InQueues(o: Ordered, e: nat)
    requires Agrees(o) && e < |o.results|
    ensures forall h | h in o.heads :: h.HeadTask? && h in o.s.items
    ensures forall it | it in o.s.items && it.HeadTask? :: it in o.heads
    ensures forall x :: x in o.results[e] <==> P.Ready(e, x) in o.s.items
  {
    forall h | h in o.heads ensures h in o.s.items { assert multiset(o.heads)[h] > 0; }
    forall it | it in o.s.items && it.HeadTask? ensures it in o.heads { assert multiset(o.heads)[it] > 0; }
    forall x ensures x in o.results[e] <==> P.Ready(e, x) in o.s.items {
      assert multiset(o.results[e])[x] > 0 <==> x in o.results[e];
    }
  }

  lemma CarrierKinds(w: P.World, e: nat, st: P.Status)
    requires P.StatusOk(w, st) && st.Busy?
    ensures P.Carrier(w, e, st.batch, st.pos).Ready? <==> st.pos.ResultReady?
    ensures st.pos.ResultReady? ==> P.Carrier(w, e, st.batch, st.pos) == P.Ready(e, P.Whole(w, st.batch.request))
    ensures P.Carrier(w, e, st.batch, st.pos).HeadTask? <==> st.pos.AtHead?
    ensures st.pos.AtHead? ==> P.Carrier(w, e, st.batch, st.pos) == P.HeadTask(e, st.batch.request, st.batch.servers)
    ensures |st.batch.servers| <= 1 ==> st.pos.AtHead? || st.pos.ResultReady?
  {
    hide P.JobAfter, P.Whole;
  }

  /** A batch whose result is queued, or whose head is alone, is first. */
  lemma QueuedOrAloneIsFirst(w: P.World, o: Ordered, sts: seq<P.Status>, e: nat)
    requires Agrees(o) && S.AtMostOne(o.s) && P.Inv(w, S.Single(o.s), sts) && e < |o.s.waiters| && o.s.waiters[e] != []
    requires |o.s.waiters[e][0].servers| <= 1 || (e < |o.results| && o.results[e] != [])
    ensures First(w, o, e, o.s.waiters[e][0])
  {
    assert |o.results| == |o.s.waiters|;
    hide P.Inv, S.AtMostOne, S.Single, Agrees, P.Carrier, P.TilingSnapshot, P.Whole, Answer, FirstHead;
    var b := o.s.waiters[e][0];
    WhereFirst(w, o, sts, e);
    InQueues(o, e);
    CarrierKinds(w, e, sts[e]);
    WholeAnswers(w, b);
    var c := P.Carrier(w, e, sts[e].batch, sts[e].pos);
    if o.results[e] != [] {
      assert P.Ready(e, o.results[e][0]) in o.s.items;
    } else {
      assert c.HeadTask? && c in o.heads;
      FirstHeadIn(o.heads, e, c);
    }
  }

  lemma WholeAnswers(w: P.World, b: P.Launched)
    requires P.TilingSnapshot(w, b.servers)
    ensures P.Whole(w, b.request) == Answer(w, b)
  {
    P.WholeIsForward(w, b);
  }

  /** A batch with two servers or more and no result queued is not at its end, and if it is still at
      the head it waits for the lock. */
  lemma FirstInHeads(w: P.World, o: Ordered, sts: seq<P.Status>, e: nat)
    requires Agrees(o) && S.AtMostOne(o.s) && P.Inv(w, S.Single(o.s), sts) && e < |o.s.waiters| && o.s.waiters[e] != []
    requires e < |o.results| && o.results[e] == []
    ensures var b := o.s.waiters[e][0];
      && e < |sts| && S.Single(o.s).launched[e] == Some(b) && !sts[e].pos.ResultReady?
      && (sts[e].pos.AtHead? ==> P.HeadTask(e, b.request, b.servers) in o.heads)
    ensures multiset(o.heads) <= S.Single(o.s).items && forall h | h in o.heads :: h.HeadTask?
    ensures S.Single(o.s).items == o.s.items && S.Single(o.s).nodes == o.s.nodes
  {
    HeadsWithin(o);
    assert S.Single(o.s).items == o.s.items && S.Single(o.s).nodes == o.s.nodes;
    hide P.Inv, S.AtMostOne, S.Single, Agrees, P.Carrier, P.TilingSnapshot, P.Whole;
    WhereFirst(w, o, sts, e);
    InQueues(o, e);
    CarrierKinds(w, e, sts[e]);
  }

  lemma HeadsWithin(o: Ordered)
    requires Agrees(o)
    ensures multiset(o.heads) <= o.s.items && forall h | h in o.heads :: h.HeadTask?
  {
    forall it ensures multiset(o.heads)[it] <= o.s.items[it] {
      if it !in o.heads { assert multiset(o.heads)[it] == 0; }
    }
  }

  lemma AfterSecondLaunch(w: P.World, o: Ordered, e: nat, second: Tensor, n: P.Net)
    requires var s := Topology.ServerList(o.s.nodes);
      n.nodes == o.s.nodes && n.items == multiset{P.HeadTask(e, second, s)} + P.Triggers(e, s, 1)
    requires e < |o.s.waiters| && |o.s.waiters[e]| == 1 && e < |o.results|
    ensures var b1, b2 := o.s.waiters[e][0], P.Launched(second, Topology.ServerList(o.s.nodes));
      Apply(w, o, P.Launch(e, second))
      == Ordered(S.Shared(o.s.items + n.items, o.s.nodes, o.s.waiters[e := [b1, b2]]),
                 o.heads + [P.HeadTask(e, second, Topology.ServerList(o.s.nodes))], o.results)
  {
    hide S.Apply, Topology.ServerList, P.Triggers;
    S.LaunchOnBusy(w, o.s, e, second, n);
    AppendNothing(o.results, e);
  }

  /** The last task at the head is the second batch's. */
  lemma RunsLast(w: P.World, o: Ordered, n: P.Net, frame: multiset<P.Item>, n': P.Net, e: nat, b: P.Launched)
    requires o.s.items == frame + n.items && n.nodes == o.s.nodes && o.heads == [P.HeadTask(e, b.request, b.servers)]
    requires P.Enabled(w, n, P.RunHead(e, b.request, b.servers))
    requires n' == P.Apply(w, n, P.RunHead(e, b.request, b.servers))
    requires P.TilingSnapshot(w, b.servers) && e < |o.results| && o.results[e] == []
    ensures var ev := P.RunHead(e, b.request, b.servers);
      && Enabled(w, o, ev)
      && Apply(w, o, ev)
         == Ordered(S.Shared(frame + n'.items, o.s.nodes, o.s.waiters), [], Append(o.results, e, Puts(w, ev)))
    ensures Append(o.results, e, Puts(w, P.RunHead(e, b.request, b.servers)))
         == o.results[e := if |b.servers| <= 1 then [Answer(w, b)] else []]
  {
    var ev := P.RunHead(e, b.request, b.servers);
    if |b.servers| <= 1 { HeadAlone(w, b); }
    assert [] + Puts(w, ev) == Puts(w, ev);
    hide S.Apply, S.Enabled, P.Apply, P.Enabled, Forward, Answer, P.TilingSnapshot;
    assert frame + n.items == n.items + frame && frame + n'.items == n'.items + frame;
    S.FrameStep(w, n, ev, frame, o.s.waiters);
    DrainStep(w, o, ev);
  }

  /** The second launch, and then the tasks at the head up to its own. */
  lemma LaunchAndDrain(w: P.World, o: Ordered, sts: seq<P.Status>, e: nat, second: Tensor)
    returns (events: seq<P.Event>, n1: P.Net, sts1: seq<P.Status>, n2: P.Net, sts2: seq<P.Status>,
             results: seq<seq<Outcome>>)
    requires Agrees(o) && S.AtMostOne(o.s) && P.Inv(w, S.Single(o.s), sts) && e < |o.s.waiters| && o.s.waiters[e] != []
    requires |o.s.waiters[e][0].servers| >= 2 && e < |o.results| && o.results[e] == []
    requires P.TilingSnapshot(w, Topology.ServerList(o.s.nodes))
    ensures var b1, b2 := o.s.waiters[e][0], P.Launched(second, Topology.ServerList(o.s.nodes));
      && Leads(w, Apply(w, o, P.Launch(e, second)), events,
               Ordered(S.Shared(n1.items + n2.items, n1.nodes, o.s.waiters[e := [b1, b2]]), [], results))
      && P.Inv(w, n1, sts1) && e < |sts1| && n1.launched[e] == Some(b1)
      && !sts1[e].pos.AtHead? && !sts1[e].pos.ResultReady?
      && P.Inv(w, n2, sts2) && e < |sts2| && n2.launched[e] == Some(b2) && !sts2[e].pos.AtHead?
      && n1.nodes == n2.nodes == o.s.nodes
      && e < |results| && results[e] == if sts2[e].pos.ResultReady? then [Answer(w, b2)] else []
    ensures forall ev | ev in events :: S.Inner(ev)
  {
    var servers := Topology.ServerList(o.s.nodes);
    var b2, h2 := P.Launched(second, servers), P.RunHead(e, second, servers);
    assert S.Inner(h2);
    hide *;
    var drains, m1, stsM, alone, stsA, drained := DrainsBefore(w, o, sts, e, second);
    var waiters := o.s.waiters[e := [o.s.waiters[e][0], b2]];
    var middle := Ordered(S.Shared(m1.items + alone.items, o.s.nodes, waiters),
                          [P.HeadTask(e, second, servers)], drained);
    n1, sts1 := m1, stsM;
    n2, sts2 := LeavesHead(w, alone, stsA, e, b2);
    RunsLast(w, middle, alone, m1.items, n2, e, b2);
    results := Append(drained, e, Puts(w, h2));
    events := drains + [h2];
    LeadsOne(w, middle, h2);
    LeadsAppend(w, Apply(w, o, P.Launch(e, second)), drains, middle, [h2], Apply(w, middle, h2));
  }

  lemma DrainsBefore(w: P.World, o: Ordered, sts: seq<P.Status>, e: nat, second: Tensor)
    returns (drains: seq<P.Event>, n1: P.Net, sts1: seq<P.Status>, alone: P.Net, stsA: seq<P.Status>,
             drained: seq<seq<Outcome>>)
    requires Agrees(o) && S.AtMostOne(o.s) && P.Inv(w, S.Single(o.s), sts) && e < |o.s.waiters| && o.s.waiters[e] != []
    requires |o.s.waiters[e][0].servers| >= 2 && e < |o.results| && o.results[e] == []
    requires P.TilingSnapshot(w, Topology.ServerList(o.s.nodes))
    ensures var b1, b2 := o.s.waiters[e][0], P.Launched(second, Topology.ServerList(o.s.nodes));
      Leads(w, Apply(w, o, P.Launch(e, second)), drains,
            Ordered(S.Shared(n1.items + alone.items, o.s.nodes, o.s.waiters[e := [b1, b2]]),
                    [P.HeadTask(e, second, b2.servers)], drained))
    ensures P.Inv(w, n1, sts1) && e < |sts1| && n1.launched[e] == Some(o.s.waiters[e][0])
    ensures !sts1[e].pos.AtHead? && !sts1[e].pos.ResultReady?
    ensures P.Inv(w, alone, stsA) && e < |stsA| && n1.nodes == alone.nodes == o.s.nodes
    ensures alone.launched[e] == Some(P.Launched(second, Topology.ServerList(o.s.nodes)))
    ensures P.HeadTask(e, second, Topology.ServerList(o.s.nodes)) in alone.items
    ensures |drained| == |o.results| && drained[e] == []
    ensures forall ev | ev in drains :: S.Inner(ev)
  {
    var servers := Topology.ServerList(o.s.nodes);
    assert |o.s.waiters[e]| == 1;
    hide *;
    FirstInHeads(w, o, sts, e);
    alone, stsA := S.Alone(w, o.s.nodes, e, second);
    AfterSecondLaunch(w, o, e, second, alone);
    var waiters := o.s.waiters[e := [o.s.waiters[e][0], P.Launched(second, servers)]];
    drains, n1, sts1, drained := Drains(w, S.Single(o.s), sts, e, o.s.waiters[e][0], o.heads,
                                        P.HeadTask(e, second, servers), alone.items, waiters, o.results);
  }

  /** A launch behind a batch over two or more servers whose result is not queued: the second result
      can be the only one in the queue, and the launch that waits longest is handed it. */
  lemma BusyLaunchExchanges(w: P.World, o: Ordered, sts: seq<P.Status>, e: nat, second: Tensor)
    returns (events: seq<P.Event>, o': Ordered)
    requires Agrees(o) && S.AtMostOne(o.s) && P.Inv(w, S.Single(o.s), sts) && e < |o.s.waiters| && o.s.waiters[e] != []
    requires |o.s.waiters[e][0].servers| >= 2 && e < |o.results| && o.results[e] == []
    requires P.TilingSnapshot(w, Topology.ServerList(o.s.nodes))
    ensures Leads(w, Apply(w, o, P.Launch(e, second)), events, o') && forall ev | ev in events :: S.Inner(ev)
    ensures var b1, b2 := o.s.waiters[e][0], P.Launched(second, Topology.ServerList(o.s.nodes));
      && o'.s.waiters == o.s.waiters[e := [b1, b2]]
      && e < |o'.results| && o'.results[e] == [Answer(w, b2)] && Enabled(w, o', P.Dequeue(e, Answer(w, b2)))
  {
    var b1, b2 := o.s.waiters[e][0], P.Launched(second, Topology.ServerList(o.s.nodes));
    hide *;
    var drains, n1, sts1, n2, sts2, results := LaunchAndDrain(w, o, sts, e, second);
    var waiters := o.s.waiters[e := [b1, b2]];
    var overtakes;
    overtakes, o' := Overtakes(w, e, n1, sts1, b1, n2, sts2, b2, waiters, results);
    events := drains + overtakes;
    LeadsAppend(w, Apply(w, o, P.Launch(e, second)), drains,
                Ordered(S.Shared(n1.items + n2.items, n1.nodes, waiters), [], results), overtakes, o');
    Served(w, o', e, Answer(w, b2));
  }

  lemma Served(w: P.World, o: Ordered, e: nat, x: Outcome)
    requires e < |o.s.waiters| && o.s.waiters[e] != [] && P.Ready(e, x) in o.s.items
    requires e < |o.results| && o.results[e] == [x]
    ensures Enabled(w, o, P.Dequeue(e, x))
  {}

  /** After the second launch and some events, none of which serves the engine, the launch that
      waits longest is about to be handed another answer than its own. */
  ghost predicate Exchanged(w: P.World, o: Ordered, e: nat, second: Tensor, events: seq<P.Event>, o': Ordered) {
    && Leads(w, Apply(w, o, P.Launch(e, second)), events, o') && (forall ev | ev in events :: Stays(w, ev, e))
    && e < |o'.s.waiters| && o'.s.waiters[e] != [] && e < |o'.results| && o'.results[e] != []
    && o'.results[e][0] != S.Due(w, o'.s, e)
  }

  /** Which second launch is safe: after any run whose launches found their engines free, a launch
      on an engine that still waits can lead to an exchange of answers if and only if the batch
      before it goes over two or more servers and its result is not in the output queue yet. */
  lemma SecondLaunchSafeIff(w: P.World, o0: Ordered, before: seq<P.Event>, o: Ordered, e: nat, second: Tensor)
    requires Init(o0) && Leads(w, o0, before, o) && FreeLaunches(w, o0, before)
    requires e < |o.s.waiters| && o.s.waiters[e] != [] && Enabled(w, o, P.Launch(e, second))
    requires Forward(w.model, Range(0, w.model.numLayers), second, None) != S.Due(w, o.s, e)
    ensures |o.results| == |o.s.waiters|
    ensures (exists events, o' :: Exchanged(w, o, e, second, events, o'))
       <==> |o.s.waiters[e][0].servers| >= 2 && o.results[e] == []
  {
    var sts := InitAgrees(w, o0);
    sts := FreeRun(w, o0, sts, before, o);
    assert |o.results| == |o.s.waiters|;
    if |o.s.waiters[e][0].servers| >= 2 && o.results[e] == [] {
      Exchange(w, o, sts, e, second);
    } else {
      hide Exchanged;
      forall events, o' ensures !Exchanged(w, o, e, second, events, o') {
        NoExchange(w, o, sts, e, second, events, o');
      }
    }
  }

  lemma Exchange(w: P.World, o: Ordered, sts: seq<P.Status>, e: nat, second: Tensor)
    requires Agrees(o) && S.AtMostOne(o.s) && P.Inv(w, S.Single(o.s), sts) && e < |o.s.waiters| && o.s.waiters[e] != []
    requires |o.s.waiters[e][0].servers| >= 2 && e < |o.results| && o.results[e] == []
    requires Enabled(w, o, P.Launch(e, second))
    requires Forward(w.model, Range(0, w.model.numLayers), second, None) != S.Due(w, o.s, e)
    ensures exists events, o' :: Exchanged(w, o, e, second, events, o')
  {
    assert P.TilingSnapshot(w, Topology.ServerList(o.s.nodes));
    hide *;
    var events, o' := BusyLaunchExchanges(w, o, sts, e, second);
    IsExchange(w, o, e, second, events, o');
  }

  lemma IsExchange(w: P.World, o: Ordered, e: nat, second: Tensor, events: seq<P.Event>, o': Ordered)
    requires e < |o.s.waiters| && o.s.waiters[e] != []
    requires Leads(w, Apply(w, o, P.Launch(e, second)), events, o') && forall ev | ev in events :: S.Inner(ev)
    requires var b1, b2 := o.s.waiters[e][0], P.Launched(second, Topology.ServerList(o.s.nodes));
      o'.s.waiters == o.s.waiters[e := [b1, b2]] && e < |o'.results| && o'.results[e] == [Answer(w, b2)]
    requires Forward(w.model, Range(0, w.model.numLayers), second, None) != S.Due(w, o.s, e)
    ensures Exchanged(w, o, e, second, events, o')
  {
    hide Leads, Apply, Forward, Topology.ServerList;
  }

  lemma NoExchange(w: P.World, o: Ordered, sts: seq<P.Status>, e: nat, second: Tensor, events: seq<P.Event>,
                   o': Ordered)
    requires Agrees(o) && S.AtMostOne(o.s) && P.Inv(w, S.Single(o.s), sts) && e < |o.s.waiters| && o.s.waiters[e] != []
    requires |o.s.waiters[e][0].servers| <= 1 || (e < |o.results| && o.results[e] != [])
    requires Enabled(w, o, P.Launch(e, second))
    ensures !Exchanged(w, o, e, second, events, o')
  {
    var b := o.s.waiters[e][0];
    hide P.Inv, Agrees, S.AtMostOne, S.Single, Leads, Enabled, Apply, First, Forward;
    QueuedOrAloneIsFirst(w, o, sts, e);
    StepStays(w, o, P.Launch(e, second), e, b);
    if Exchanged(w, o, e, second, events, o') {
      FirstStays(w, Apply(w, o, P.Launch(e, second)), e, b, events, o');
      IsServed(w, o', e, b);
    }
  }

  lemma IsServed(w: P.World, o: Ordered, e: nat, b: P.Launched)
    requires First(w, o, e, b) && o.results[e] != []
    ensures o.results[e][0] == S.Due(w, o.s, e)
  {
    hide Forward, P.TilingSnapshot;
  }

  /** From the empty system, for any tiling snapshot of two servers or more and any two requests
      with different answers: two launches in a row can exchange them. */
  lemma ExchangeFromStart(w: P.World, o: Ordered, e: nat, first: Tensor, second: Tensor)
    requires Init(o) && e < |o.s.waiters|
    requires P.TilingSnapshot(w, Topology.ServerList(o.s.nodes)) && |Topology.ServerList(o.s.nodes)| >= 2
    requires Forward(w.model, Range(0, w.model.numLayers), first, None)
          != Forward(w.model, Range(0, w.model.numLayers), second, None)
    ensures Enabled(w, o, P.Launch(e, first))
    ensures exists events, o' :: Exchanged(w, Apply(w, o, P.Launch(e, first)), e, second, events, o')
  {
    hide Forward, P.TilingSnapshot, Topology.ServerList, P.Triggers;
    var launch := P.Launch(e, first);
    var o1 := Apply(w, o, launch);
    assert [launch][1..] == [];
    LeadsOne(w, o, launch);
    assert o1.s.waiters[e] == [P.Launched(first, Topology.ServerList(o.s.nodes))];
    AppendNothing(o.results, e);
    assert FreeLaunches(w, o1, []);
    assert FreeLaunches(w, o, [launch]);
    hide Leads, FreeLaunches, Init, Apply, Exchanged;
    SecondLaunchSafeIff(w, o, [launch], o1, e, second);
  }
}
