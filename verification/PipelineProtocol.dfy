/** The cross-node pipeline: the head snapshots the topology, runs its stage and triggers
    every worker; each worker joins one trigger with one tensor message and forwards; the
    last one returns the result to the head. Everything in flight is one bag of items, so
    messages and tasks may overtake each other in any way. */
module PipelineProtocol {
  import opened Wrappers
  import opened LayerSplit
  import Topology

  type Ip = Topology.Ip

  /** The model, the head's address and the layers each node has loaded. */
  datatype World = World(model: Model, head: Ip, ranges: Ip -> Range)

  /** What travels from stage to stage: the request, the hidden state and the server list. */
  datatype Job = Job(request: Tensor, hidden: Hidden, servers: seq<Ip>)

  datatype Parcel = Next(to: Ip, job: Job) | Back(outcome: Outcome)

  /** Every item belongs to a virtual engine `e`. */
  datatype Item =
    | HeadTask(e: nat, request: Tensor, servers: seq<Ip>)  // executing_head_server not finished
    | Trigger(e: nat, node: Ip)                            // a worker step without its tensors
    | Outbox(e: nat, at: Ip, parcel: Parcel)               // in a node's delivery queue
    | Wire(e: nat, parcel: Parcel)                         // being transmitted
    | Queued(e: nat, node: Ip, job: Job)                   // in a worker's input queue
    | Running(e: nat, node: Ip, job: Job)                  // a worker step with its tensors
    | Ready(e: nat, outcome: Outcome)                      // in the head's output queue

  datatype Launched = Launched(request: Tensor, servers: seq<Ip>)

  /** `launched[e]` is the batch the head waits for on engine `e`; `nodes` its topology. */
  datatype Net = Net(items: multiset<Item>, launched: seq<Option<Launched>>, nodes: seq<Topology.Entry>)

  datatype Event =
    | Launch(e: nat, request: Tensor)
    | RunHead(e: nat, request: Tensor, servers: seq<Ip>)
    | Send(e: nat, at: Ip, parcel: Parcel)
    | Deliver(e: nat, parcel: Parcel)
    | Begin(e: nat, node: Ip, job: Job)
    | Finish(e: nat, node: Ip, job: Job)
    | Dequeue(e: nat, outcome: Outcome)
    | Join(ip: Ip, start: nat)

  function RangesOf(w: World, s: seq<Ip>): (r: seq<Range>)
    ensures |r| == |s| && forall i | 0 <= i < |s| :: r[i] == w.ranges(s[i])
  {
    if s == [] then [] else [w.ranges(s[0])] + RangesOf(w, s[1..])
  }

  /** The servers' layers tile the stack, and the head comes first. */
  ghost predicate TilingSnapshot(w: World, s: seq<Ip>) {
    s != [] && s[0] == w.head && Topology.DistinctIps(s) && Tiles(w.model, RangesOf(w, s))
  }

  function Triggers(e: nat, s: seq<Ip>, from: nat): multiset<Item>
    decreases |s| - from
  {
    if from >= |s| then multiset{} else multiset{Trigger(e, s[from])} + Triggers(e, s, from + 1)
  }

  /** What the head's own stage leaves behind. */
  function AfterHead(w: World, e: nat, request: Tensor, servers: seq<Ip>): multiset<Item> {
    var o := Forward(w.model, w.ranges(w.head), request, None);
    if |servers| <= 1 then multiset{Ready(e, o)}
    else if o.Intermediate? then multiset{Outbox(e, w.head, Next(servers[1], Job(request, o.hidden, servers)))}
    else multiset{}
  }

  /** Where a v0 worker sends its output: by its own last-stage flag and its place in the list. */
  datatype Route = ToHead | ToServer(ip: Ip) | Lost

  function RouteByStage(w: World, servers: seq<Ip>, node: Ip): Route {
    var r := w.ranges(node);
    if IsLast(w.model, r) then (if IsFirst(r) then Lost else ToHead)
    else
      var i := Topology.IndexOf(servers, node);
      if i + 1 < |servers| then ToServer(servers[i + 1]) else Lost
  }

  /** Where a v1 worker sends its output: by its place in the list alone. */
  function RouteByPlace(servers: seq<Ip>, node: Ip): Route {
    var i := Topology.IndexOf(servers, node);
    if i == |servers| then Lost
    else if i == |servers| - 1 then ToHead
    else ToServer(servers[i + 1])
  }

  function AfterStage(w: World, e: nat, node: Ip, job: Job): multiset<Item> {
    var o := Forward(w.model, w.ranges(node), job.request, Some(job.hidden));
    match RouteByStage(w, job.servers, node)
    case ToHead => multiset{Outbox(e, node, Back(o))}
    case ToServer(next) =>
      if o.Intermediate? then multiset{Outbox(e, node, Next(next, Job(job.request, o.hidden, job.servers)))}
      else multiset{}
    case Lost => multiset{}
  }

  function Arrived(e: nat, p: Parcel): Item {
    match p
    case Next(to, job) => Queued(e, to, job)
    case Back(o) => Ready(e, o)
  }

  /** What a worker step that finds its tensors takes out. */
  function Joined(e: nat, node: Ip, job: Job): multiset<Item> {
    multiset{Queued(e, node, job), Trigger(e, node)}
  }

  ghost predicate Enabled(w: World, n: Net, ev: Event) {
    match ev
    case Launch(e, request) =>
      e < |n.launched| && n.launched[e] == None && TilingSnapshot(w, Topology.ServerList(n.nodes))
    case RunHead(e, request, servers) => HeadTask(e, request, servers) in n.items
    case Send(e, at, parcel) => Outbox(e, at, parcel) in n.items
    case Deliver(e, parcel) => Wire(e, parcel) in n.items
    case Begin(e, node, job) => Trigger(e, node) in n.items && Queued(e, node, job) in n.items
    case Finish(e, node, job) => Running(e, node, job) in n.items
    case Dequeue(e, outcome) => Ready(e, outcome) in n.items && e < |n.launched| && n.launched[e] != None
    case Join(ip, start) => start == w.ranges(ip).start
  }

  function Apply(w: World, n: Net, ev: Event): Net
    requires ev.Launch? || ev.Dequeue? ==> ev.e < |n.launched|
  {
    match ev
    case Launch(e, request) =>
      var s := Topology.ServerList(n.nodes);
      n.(items := n.items + (multiset{HeadTask(e, request, s)} + Triggers(e, s, 1)),
         launched := n.launched[e := Some(Launched(request, s))])
    case RunHead(e, request, servers) =>
      n.(items := n.items - multiset{HeadTask(e, request, servers)} + AfterHead(w, e, request, servers))
    case Send(e, at, parcel) => n.(items := n.items - multiset{Outbox(e, at, parcel)} + multiset{Wire(e, parcel)})
    case Deliver(e, parcel) => n.(items := n.items - multiset{Wire(e, parcel)} + multiset{Arrived(e, parcel)})
    case Begin(e, node, job) =>
      n.(items := n.items - Joined(e, node, job) + multiset{Running(e, node, job)})
    case Finish(e, node, job) => n.(items := n.items - multiset{Running(e, node, job)} + AfterStage(w, e, node, job))
    case Dequeue(e, outcome) =>
      n.(items := n.items - multiset{Ready(e, outcome)}, launched := n.launched[e := None])
    case Join(ip, start) => n.(nodes := Topology.Put(n.nodes, ip, start))
  }

  // ---------------------------------------------------- where each batch stands

  /** Where the single carrier of a batch is; `k` counts the stages done. */
  datatype Pos = AtHead | Out(k: nat) | OnWire(k: nat) | In(k: nat) | At(k: nat) | ResultOut | ResultWire | ResultReady

  datatype Status = Idle | Busy(batch: Launched, pos: Pos)

  predicate PosOk(s: seq<Ip>, p: Pos) {
    match p
    case Out(k) => 0 < k < |s|
    case OnWire(k) => 0 < k < |s|
    case In(k) => 0 < k < |s|
    case At(k) => 0 < k < |s|
    case ResultOut => |s| > 1
    case ResultWire => |s| > 1
    case _ => true
  }

  /** The job after `k` stages carries the state after all their layers. */
  function JobAfter(w: World, b: Launched, k: nat): Job
    requires 0 < k <= |b.servers|
  {
    Job(b.request, Upto(w.model, w.ranges(b.servers[k - 1]).end, b.request), b.servers)
  }

  /** What a single node with all layers would answer. */
  function Whole(w: World, request: Tensor): Outcome {
    Output(w.model.norm(Upto(w.model, w.model.numLayers, request)))
  }

  function Carrier(w: World, e: nat, b: Launched, p: Pos): Item
    requires b.servers != [] && PosOk(b.servers, p)
  {
    var s := b.servers;
    match p
    case AtHead => HeadTask(e, b.request, s)
    case Out(k) => Outbox(e, s[k - 1], Next(s[k], JobAfter(w, b, k)))
    case OnWire(k) => Wire(e, Next(s[k], JobAfter(w, b, k)))
    case In(k) => Queued(e, s[k], JobAfter(w, b, k))
    case At(k) => Running(e, s[k], JobAfter(w, b, k))
    case ResultOut => Outbox(e, s[|s| - 1], Back(Whole(w, b.request)))
    case ResultWire => Wire(e, Back(Whole(w, b.request)))
    case ResultReady => Ready(e, Whole(w, b.request))
  }

  /** The workers from this place in the list on have not begun. */
  function Waiting(s: seq<Ip>, p: Pos): nat {
    match p
    case AtHead => 1
    case Out(k) => k
    case OnWire(k) => k
    case In(k) => k
    case At(k) => k + 1
    case _ => |s|
  }

  /** All there is in the system for engine `e`: one carrier, and one trigger for each worker
      that has not begun. */
  ghost function Expected(w: World, e: nat, st: Status): multiset<Item>
    requires StatusOk(w, st)
  {
    match st
    case Idle => multiset{}
    case Busy(b, p) => multiset{Carrier(w, e, b, p)} + Triggers(e, b.servers, Waiting(b.servers, p))
  }

  ghost predicate StatusOk(w: World, st: Status) {
    st.Busy? ==> TilingSnapshot(w, st.batch.servers) && PosOk(st.batch.servers, st.pos)
  }

  ghost predicate AllOk(w: World, sts: seq<Status>) {
    forall e | 0 <= e < |sts| :: StatusOk(w, sts[e])
  }

  ghost function Total(w: World, sts: seq<Status>): multiset<Item>
    requires AllOk(w, sts)
  {
    if sts == [] then multiset{}
    else
      var last := |sts| - 1;
      assert StatusOk(w, sts[last]);
      Total(w, sts[..last]) + Expected(w, last, sts[last])
  }

  /** How many events a batch is away from leaving its engine. */
  function Remaining(st: Status): nat
    requires st.Busy? ==> PosOk(st.batch.servers, st.pos)
  {
    match st
    case Idle => 0
    case Busy(b, p) =>
      var n := |b.servers|;
      match p
      case AtHead => StepsOf(n)
      case Out(k) => 4 * (n - k) + 3
      case OnWire(k) => 4 * (n - k) + 2
      case In(k) => 4 * (n - k) + 1
      case At(k) => 4 * (n - k)
      case ResultOut => 3
      case ResultWire => 2
      case ResultReady => 1
  }

  /** The events from the launch of a batch over `n` servers to its result. */
  function StepsOf(n: nat): nat { if n <= 1 then 2 else 4 * n }

  /** An event concerns the batch of one engine and brings it one event closer to its result. */
  ghost predicate Closer(w: World, sts: seq<Status>, ev: Event, sts': seq<Status>)
    requires AllOk(w, sts) && AllOk(w, sts')
  {
    && |sts'| == |sts|
    && (forall i | 0 <= i < |sts| && (ev.Join? || i != ev.e) :: sts'[i] == sts[i])
    && (!ev.Join? && ev.e < |sts| ==>
          assert StatusOk(w, sts[ev.e]) && StatusOk(w, sts'[ev.e]);
          if ev.Launch? then sts'[ev.e].Busy? && sts'[ev.e].pos == AtHead
          else Remaining(sts[ev.e]) == Remaining(sts'[ev.e]) + 1)
  }

  function BatchOf(st: Status): Option<Launched> {
    match st case Idle => None case Busy(b, p) => Some(b)
  }

  /** Every outstanding batch has exactly one carrier, and nothing else is in flight. */
  ghost predicate Inv(w: World, n: Net, sts: seq<Status>) {
    && AllOk(w, sts) && n.items == Total(w, sts) && |n.launched| == |sts|
    && forall e | 0 <= e < |sts| :: n.launched[e] == BatchOf(sts[e])
  }

  lemma {:induction false} TriggersOf(e: nat, s: seq<Ip>, from: nat, it: Item)
    requires it in Triggers(e, s, from)
    ensures it.Trigger? && it.e == e
    decreases |s| - from
  {
    if it != Trigger(e, s[from]) {
      TriggersOf(e, s, from + 1, it);
    }
  }

  /** What is in flight for an engine is its carrier or one of its triggers. */
  lemma ExpectedItems(w: World, e: nat, st: Status, it: Item)
    requires StatusOk(w, st) && it in Expected(w, e, st)
    ensures it.e == e && st.Busy?
    ensures !it.Trigger? ==> it == Carrier(w, e, st.batch, st.pos)
  {
    if it != Carrier(w, e, st.batch, st.pos) {
      TriggersOf(e, st.batch.servers, Waiting(st.batch.servers, st.pos), it);
    }
  }

  lemma {:induction false} ItemBelongs(w: World, sts: seq<Status>, it: Item)
    requires AllOk(w, sts) && it in Total(w, sts)
    ensures it.e < |sts| && it in Expected(w, it.e, sts[it.e])
  {
    var last := |sts| - 1;
    if it in Total(w, sts[..last]) {
      ItemBelongs(w, sts[..last], it);
    } else {
      ExpectedItems(w, last, sts[last], it);
    }
  }

  lemma {:induction false} TotalUpdate(w: World, sts: seq<Status>, e: nat, st: Status)
    requires AllOk(w, sts) && e < |sts| && StatusOk(w, st)
    ensures AllOk(w, sts[e := st])
    ensures Expected(w, e, sts[e]) <= Total(w, sts)
    ensures Total(w, sts[e := st]) + Expected(w, e, sts[e]) == Total(w, sts) + Expected(w, e, st)
  {
    hide Total, Expected, StatusOk;
    var last := |sts| - 1;
    UpdateOk(w, sts, e, st);
    TotalSplit(w, sts);
    TotalSplit(w, sts[e := st]);
    var all, all', front := Total(w, sts), Total(w, sts[e := st]), Total(w, sts[..last]);
    var was, now := Expected(w, e, sts[e]), Expected(w, e, st);
    if e < last {
      TotalUpdate(w, sts[..last], e, st);
      assert sts[e := st][..last] == sts[..last][e := st];
      var front', same := Total(w, sts[..last][e := st]), Expected(w, last, sts[last]);
      Shuffle(front, front', was, now, same);
      Enlarge(was, front, same);
    } else {
      assert sts[e := st][..last] == sts[..last];
      Exchange(front, was, now);
      Enlarge(was, was, front);
    }
  }

  lemma Enlarge(a: multiset<Item>, b: multiset<Item>, c: multiset<Item>)
    requires a <= b
    ensures a <= b + c && a <= c + b
  {}

  lemma UpdateOk(w: World, sts: seq<Status>, e: nat, st: Status)
    requires AllOk(w, sts) && e < |sts| && StatusOk(w, st)
    ensures AllOk(w, sts[e := st])
  {
    hide StatusOk;
  }

  lemma TotalSplit(w: World, sts: seq<Status>)
    requires AllOk(w, sts) && sts != []
    ensures var last := |sts| - 1;
      && AllOk(w, sts[..last]) && StatusOk(w, sts[last])
      && Total(w, sts) == Total(w, sts[..last]) + Expected(w, last, sts[last])
  {
    hide Expected;
  }

  lemma Exchange(t: multiset<Item>, a: multiset<Item>, b: multiset<Item>)
    ensures (t + b) + a == (t + a) + b
  {}

  lemma Shuffle(t: multiset<Item>, t': multiset<Item>, a: multiset<Item>, b: multiset<Item>, c: multiset<Item>)
    requires t' + a == t + b
    ensures (t' + c) + a == (t + c) + b
  {
    assert (t' + c) + a == (t' + a) + c;
  }

  lemma Replace(total: multiset<Item>, total': multiset<Item>, gone: multiset<Item>, kept: multiset<Item>,
                come: multiset<Item>)
    requires gone + kept <= total && total' + (gone + kept) == total + (come + kept)
    ensures total' == total - gone + come
  {
    forall x ensures total'[x] == (total - gone + come)[x] {
      assert (total' + (gone + kept))[x] == (total + (come + kept))[x];
      assert (gone + kept)[x] <= total[x];
    }
  }

  lemma Within(a: multiset<Item>, b: multiset<Item>, total: multiset<Item>)
    requires a + b <= total
    ensures forall x | x in a :: x in total
  {
    forall x | x in a ensures x in total { assert (a + b)[x] <= total[x]; }
  }

  /** The carrier of a batch moves on: `gone` is taken out, `come` put in, `kept` stays. */
  lemma Move(w: World, n: Net, sts: seq<Status>, e: nat, st: Status,
             gone: multiset<Item>, kept: multiset<Item>, come: multiset<Item>, n': Net)
    requires Inv(w, n, sts) && e < |sts| && StatusOk(w, st)
    requires Expected(w, e, sts[e]) == gone + kept && Expected(w, e, st) == come + kept
    requires n'.items == n.items - gone + come && n'.launched == n.launched[e := BatchOf(st)]
    ensures Inv(w, n', sts[e := st])
  {
    TotalUpdate(w, sts, e, st);
    hide Total, Expected, StatusOk;
    Replace(n.items, Total(w, sts[e := st]), gone, kept, come);
  }

  // ------------------------------------------------------------- the steps

  lemma HeadStep(w: World, e: nat, b: Launched)
    requires TilingSnapshot(w, b.servers)
    ensures |b.servers| >= 1
    ensures AfterHead(w, e, b.request, b.servers)
         == multiset{Carrier(w, e, b, if |b.servers| == 1 then ResultReady else Out(1))}
  {
    var rs := RangesOf(w, b.servers);
    StageAdvances(w.model, rs, 0, b.request, None);
    assert rs[0] == w.ranges(w.head);
  }

  /** A worker's stage never loses the batch: it is found in the list, and the last-stage flag
      agrees with its place there. */
  lemma WorkerRoute(w: World, servers: seq<Ip>, k: nat)
    requires TilingSnapshot(w, servers) && 0 < k < |servers|
    ensures RouteByStage(w, servers, servers[k]) == (if k == |servers| - 1 then ToHead else ToServer(servers[k + 1]))
    ensures RouteByPlace(servers, servers[k]) == RouteByStage(w, servers, servers[k])
  {
    OneFirstOneLast(w.model, RangesOf(w, servers), k);
    assert Topology.IndexOf(servers, servers[k]) == k;
  }

  lemma StageStep(w: World, e: nat, b: Launched, k: nat)
    requires TilingSnapshot(w, b.servers) && 0 < k < |b.servers|
    ensures AfterStage(w, e, b.servers[k], JobAfter(w, b, k))
         == multiset{Carrier(w, e, b, if k == |b.servers| - 1 then ResultOut else Out(k + 1))}
  {
    WorkerRoute(w, b.servers, k);
    var rs := RangesOf(w, b.servers);
    StageAdvances(w.model, rs, k, b.request, Some(JobAfter(w, b, k).hidden));
  }

  lemma SnapshotNotEmpty(w: World, s: seq<Ip>)
    requires TilingSnapshot(w, s)
    ensures s != []
  {}

  lemma LaunchStep(w: World, n: Net, sts: seq<Status>, e: nat, request: Tensor) returns (sts': seq<Status>)
    requires Inv(w, n, sts) && Enabled(w, n, Launch(e, request))
    ensures Inv(w, Apply(w, n, Launch(e, request)), sts')
    ensures Closer(w, sts, Launch(e, request), sts')
  {
    var s := Topology.ServerList(n.nodes);
    hide Topology.ServerList, Total, Triggers, TilingSnapshot, Upto;
    assert s != [] by { SnapshotNotEmpty(w, s); }
    var st, n' := Busy(Launched(request, s), AtHead), Apply(w, n, Launch(e, request));
    var none, come := multiset{}, multiset{HeadTask(e, request, s)} + Triggers(e, s, 1);
    assert StatusOk(w, st);
    assert n'.items == n.items - none + come && n'.launched == n.launched[e := BatchOf(st)];
    assert Expected(w, e, st) == come + none;
    assert Expected(w, e, sts[e]) == none + none;
    assert Inv(w, n', sts[e := st]) by {
      hide *;
      Move(w, n, sts, e, st, none, none, come, n');
    }
    sts' := sts[e := st];
  }

  lemma DequeueStep(w: World, n: Net, sts: seq<Status>, e: nat, o: Outcome) returns (sts': seq<Status>)
    requires Inv(w, n, sts) && Enabled(w, n, Dequeue(e, o))
    ensures Inv(w, Apply(w, n, Dequeue(e, o)), sts') && e < |sts'| && sts'[e] == Idle
    ensures Closer(w, sts, Dequeue(e, o), sts')
  {
    hide Total, TilingSnapshot, Whole, JobAfter;
    var b, p := Locate(w, n, sts, Ready(e, o));
    var n' := Apply(w, n, Dequeue(e, o));
    var none, gone := multiset{}, multiset{Ready(e, o)};
    assert n'.items == n.items - gone + none && n'.launched == n.launched[e := BatchOf(Idle)];
    assert Expected(w, e, sts[e]) == gone + none;
    assert Expected(w, e, Idle) == none + none;
    assert Inv(w, n', sts[e := Idle]) by {
      hide *;
      Move(w, n, sts, e, Idle, gone, none, none, n');
    }
    sts' := sts[e := Idle];
  }

  lemma BeginStep(w: World, n: Net, sts: seq<Status>, e: nat, node: Ip, job: Job) returns (sts': seq<Status>)
    requires Inv(w, n, sts) && Enabled(w, n, Begin(e, node, job))
    ensures Inv(w, Apply(w, n, Begin(e, node, job)), sts')
    ensures Closer(w, sts, Begin(e, node, job), sts')
  {
    hide Total, Expected, Triggers, TilingSnapshot, JobAfter, Whole, Joined, Upto;
    var b, p := Locate(w, n, sts, Queued(e, node, job));
    var n' := Apply(w, n, Begin(e, node, job));
    hide Carrier, Inv;
    BeginAt(w, n, sts, e, b, p.k, n');
    CloserBy(w, sts, Begin(e, node, job), Busy(b, At(p.k)));
    sts' := sts[e := Busy(b, At(p.k))];
  }

  lemma CloserBy(w: World, sts: seq<Status>, ev: Event, st: Status)
    requires AllOk(w, sts) && StatusOk(w, st) && !ev.Join? && !ev.Launch? && ev.e < |sts|
    requires Remaining(sts[ev.e]) == Remaining(st) + 1
    ensures AllOk(w, sts[ev.e := st]) && Closer(w, sts, ev, sts[ev.e := st])
  {
    hide Remaining, TilingSnapshot, PosOk;
  }

  lemma BeginAt(w: World, n: Net, sts: seq<Status>, e: nat, b: Launched, k: nat, n': Net)
    requires Inv(w, n, sts) && e < |sts| && sts[e] == Busy(b, In(k)) && StatusOk(w, Busy(b, At(k)))
    requires var node, job := b.servers[k], JobAfter(w, b, k);
      n'.items == n.items - Joined(e, node, job) + multiset{Running(e, node, job)}
    requires n'.launched == n.launched
    ensures Inv(w, n', sts[e := Busy(b, At(k))])
  {
    hide Total, TilingSnapshot, Carrier, JobAfter, Joined, Triggers, Expected;
    var s, job := b.servers, JobAfter(w, b, k);
    BeginExpected(w, e, b, k);
    var gone, kept := Joined(e, s[k], job), Triggers(e, s, k + 1);
    var come, st := multiset{Running(e, s[k], job)}, Busy(b, At(k));
    assert Expected(w, e, sts[e]) == gone + kept && Expected(w, e, st) == come + kept;
    assert n'.launched == n.launched[e := BatchOf(st)];
    hide *;
    Move(w, n, sts, e, st, gone, kept, come, n');
  }

  lemma BeginEnabled(w: World, n: Net, sts: seq<Status>, e: nat, b: Launched, k: nat)
    requires Inv(w, n, sts) && e < |sts| && sts[e] == Busy(b, In(k)) && StatusOk(w, sts[e])
    ensures Enabled(w, n, Begin(e, b.servers[k], JobAfter(w, b, k)))
  {
    var s, job := b.servers, JobAfter(w, b, k);
    BeginExpected(w, e, b, k);
    var gone, kept := Joined(e, s[k], job), Triggers(e, s, k + 1);
    assert Expected(w, e, sts[e]) == gone + kept;
    hide *;
    Present(w, n, sts, e, gone, kept);
    BothThere(w, n, e, s[k], job);
  }

  lemma BothThere(w: World, n: Net, e: nat, node: Ip, job: Job)
    requires Queued(e, node, job) in n.items && Trigger(e, node) in n.items
    ensures Enabled(w, n, Begin(e, node, job))
  {}

  lemma Present(w: World, n: Net, sts: seq<Status>, e: nat, gone: multiset<Item>, kept: multiset<Item>)
    requires Inv(w, n, sts) && e < |sts| && Expected(w, e, sts[e]) == gone + kept
    ensures forall x | x in gone :: x in n.items
  {
    assert StatusOk(w, sts[e]);
    TotalUpdate(w, sts, e, sts[e]);
    hide Total, Expected, StatusOk;
    Within(gone, kept, n.items);
  }

  lemma BeginExpected(w: World, e: nat, b: Launched, k: nat)
    requires TilingSnapshot(w, b.servers) && 0 < k < |b.servers|
    ensures var s, job := b.servers, JobAfter(w, b, k);
      && Queued(e, s[k], job) in Joined(e, s[k], job) && Trigger(e, s[k]) in Joined(e, s[k], job)
      && Expected(w, e, Busy(b, In(k))) == Joined(e, s[k], job) + Triggers(e, s, k + 1)
      && Expected(w, e, Busy(b, At(k))) == multiset{Running(e, s[k], job)} + Triggers(e, s, k + 1)
  {
    var job := JobAfter(w, b, k);
    assert Carrier(w, e, b, In(k)) == Queued(e, b.servers[k], job);
    assert Carrier(w, e, b, At(k)) == Running(e, b.servers[k], job);
    TriggersStep(e, b.servers, k);
    hide Triggers, JobAfter, Carrier, Whole, Upto;
    var s, rest := b.servers, Triggers(e, b.servers, k + 1);
    assert Expected(w, e, Busy(b, At(k))) == multiset{Running(e, s[k], job)} + rest;
    assert Expected(w, e, Busy(b, In(k))) == multiset{Queued(e, s[k], job)} + (multiset{Trigger(e, s[k])} + rest);
    Pair(Queued(e, b.servers[k], job), Trigger(e, b.servers[k]), Triggers(e, b.servers, k + 1));
  }

  lemma TriggersStep(e: nat, s: seq<Ip>, k: nat)
    requires k < |s|
    ensures Triggers(e, s, k) == multiset{Trigger(e, s[k])} + Triggers(e, s, k + 1)
  {}

  lemma Pair(q: Item, t: Item, rest: multiset<Item>)
    ensures multiset{q} + (multiset{t} + rest) == multiset{q, t} + rest
  {}

  lemma JobServers(w: World, b: Launched, k: nat)
    requires 0 < k <= |b.servers|
    ensures JobAfter(w, b, k).servers == b.servers
  {}

  lemma RunHeadStep(w: World, n: Net, sts: seq<Status>, e: nat, request: Tensor, servers: seq<Ip>)
    returns (sts': seq<Status>)
    requires Inv(w, n, sts) && Enabled(w, n, RunHead(e, request, servers))
    ensures Inv(w, Apply(w, n, RunHead(e, request, servers)), sts')
    ensures Closer(w, sts, RunHead(e, request, servers), sts')
  {
    hide Total, Expected, Triggers, TilingSnapshot, AfterHead, JobAfter, Whole;
    var b, p := Locate(w, n, sts, HeadTask(e, request, servers));
    HeadStep(w, e, b);
    sts' := Advance(w, n, sts, e, b, p, if |b.servers| == 1 then ResultReady else Out(1),
                    Apply(w, n, RunHead(e, request, servers)));
  }

  lemma SendStep(w: World, n: Net, sts: seq<Status>, e: nat, at: Ip, parcel: Parcel) returns (sts': seq<Status>)
    requires Inv(w, n, sts) && Enabled(w, n, Send(e, at, parcel))
    ensures Inv(w, Apply(w, n, Send(e, at, parcel)), sts')
    ensures Closer(w, sts, Send(e, at, parcel), sts')
  {
    hide Total, Expected, Triggers, TilingSnapshot, JobAfter, Whole;
    var b, p := Locate(w, n, sts, Outbox(e, at, parcel));
    sts' := Advance(w, n, sts, e, b, p, if p.ResultOut? then ResultWire else OnWire(p.k),
                    Apply(w, n, Send(e, at, parcel)));
  }

  lemma DeliverStep(w: World, n: Net, sts: seq<Status>, e: nat, parcel: Parcel) returns (sts': seq<Status>)
    requires Inv(w, n, sts) && Enabled(w, n, Deliver(e, parcel))
    ensures Inv(w, Apply(w, n, Deliver(e, parcel)), sts')
    ensures Closer(w, sts, Deliver(e, parcel), sts')
  {
    hide Total, Expected, Triggers, TilingSnapshot, JobAfter, Whole;
    var b, p := Locate(w, n, sts, Wire(e, parcel));
    sts' := Advance(w, n, sts, e, b, p, if p.ResultWire? then ResultReady else In(p.k),
                    Apply(w, n, Deliver(e, parcel)));
  }

  lemma FinishStep(w: World, n: Net, sts: seq<Status>, e: nat, node: Ip, job: Job) returns (sts': seq<Status>)
    requires Inv(w, n, sts) && Enabled(w, n, Finish(e, node, job))
    ensures Inv(w, Apply(w, n, Finish(e, node, job)), sts')
    ensures Closer(w, sts, Finish(e, node, job), sts')
  {
    hide Total, Expected, Triggers, TilingSnapshot, AfterStage, JobAfter, Whole;
    var b, p := Locate(w, n, sts, Running(e, node, job));
    StageStep(w, e, b, p.k);
    sts' := Advance(w, n, sts, e, b, p, if p.k == |b.servers| - 1 then ResultOut else Out(p.k + 1),
                    Apply(w, n, Finish(e, node, job)));
  }

  /** One event: the batch it concerns moves to the next position. */
  lemma Step(w: World, n: Net, sts: seq<Status>, ev: Event) returns (sts': seq<Status>)
    requires Inv(w, n, sts) && Enabled(w, n, ev)
    ensures Inv(w, Apply(w, n, ev), sts') && Closer(w, sts, ev, sts')
  {
    match ev {
      case Launch(e, request) => sts' := LaunchStep(w, n, sts, e, request);
      case RunHead(e, request, servers) => sts' := RunHeadStep(w, n, sts, e, request, servers);
      case Send(e, at, parcel) => sts' := SendStep(w, n, sts, e, at, parcel);
      case Deliver(e, parcel) => sts' := DeliverStep(w, n, sts, e, parcel);
      case Begin(e, node, job) => sts' := BeginStep(w, n, sts, e, node, job);
      case Finish(e, node, job) => sts' := FinishStep(w, n, sts, e, node, job);
      case Dequeue(e, o) => sts' := DequeueStep(w, n, sts, e, o);
      case Join(ip, start) =>
        hide Total, Topology.Put;
        sts' := sts;
    }
  }

  /** The batch whose carrier is the given item. */
  lemma Locate(w: World, n: Net, sts: seq<Status>, it: Item) returns (b: Launched, p: Pos)
    requires Inv(w, n, sts) && it in n.items && !it.Trigger?
    ensures it.e < |sts| && sts[it.e] == Busy(b, p) && StatusOk(w, Busy(b, p)) && it == Carrier(w, it.e, b, p)
    ensures n.launched[it.e] == Some(b)
  {
    ItemBelongs(w, sts, it);
    ExpectedItems(w, it.e, sts[it.e], it);
    b, p := sts[it.e].batch, sts[it.e].pos;
  }

  /** The carrier moves and the workers still waiting are the same. */
  lemma Advance(w: World, n: Net, sts: seq<Status>, e: nat, b: Launched, p: Pos, p': Pos, n': Net)
    returns (sts': seq<Status>)
    requires Inv(w, n, sts) && e < |sts| && sts[e] == Busy(b, p) && StatusOk(w, Busy(b, p'))
    requires Waiting(b.servers, p) == Waiting(b.servers, p')
    requires n'.items == n.items - multiset{Carrier(w, e, b, p)} + multiset{Carrier(w, e, b, p')}
    requires n'.launched == n.launched
    requires Remaining(Busy(b, p)) == Remaining(Busy(b, p')) + 1
    ensures Inv(w, n', sts') && sts' == sts[e := Busy(b, p')]
  {
    sts' := sts[e := Busy(b, p')];
    assert n'.launched == n.launched[e := BatchOf(Busy(b, p'))];
    Move(w, n, sts, e, Busy(b, p'), multiset{Carrier(w, e, b, p)}, Triggers(e, b.servers, Waiting(b.servers, p)),
         multiset{Carrier(w, e, b, p')}, n');
  }

  // --------------------------------------------------------------------- runs

  ghost predicate Init(n: Net) {
    n.items == multiset{} && forall e | 0 <= e < |n.launched| :: n.launched[e] == None
  }

  ghost predicate Transition(w: World, n: Net, ev: Event, n': Net) {
    Enabled(w, n, ev) && n' == Apply(w, n, ev)
  }

  ghost predicate IsRun(w: World, states: seq<Net>, events: seq<Event>) {
    && |states| == |events| + 1 && Init(states[0])
    && forall i | 0 <= i < |events| :: Transition(w, states[i], events[i], states[i + 1])
  }

  lemma {:induction false} TotalIdle(w: World, n: nat)
    ensures var sts := seq(n, i => Idle); AllOk(w, sts) && Total(w, sts) == multiset{}
  {
    var sts := seq(n, i => Idle);
    if n > 0 {
      TotalIdle(w, n - 1);
      assert sts[..n - 1] == seq(n - 1, i => Idle);
    }
  }

  /** In every state of every run, each outstanding batch has exactly one carrier, each of its
      workers that has not begun has exactly one trigger, and nothing else is in flight. */
  lemma {:induction false} RunsKeepInv(w: World, states: seq<Net>, events: seq<Event>, i: nat)
    returns (sts: seq<Status>)
    requires IsRun(w, states, events) && i < |states|
    ensures Inv(w, states[i], sts)
  {
    if i == 0 {
      sts := seq(|states[0].launched|, e => Idle);
      TotalIdle(w, |states[0].launched|);
    } else {
      sts := RunsKeepInv(w, states, events, i - 1);
      assert Transition(w, states[i - 1], events[i - 1], states[i]);
      sts := Step(w, states[i - 1], sts, events[i - 1]);
    }
  }

  /** `o` is what a single node with all layers would compute for the batch launched on `e`,
      which is also the composition of the stages of that batch's snapshot, and nothing is
      left of the batch in `n'`. */
  ghost predicate AnswersLaunch(w: World, n: Net, e: nat, o: Outcome, n': Net) {
    && e < |n.launched| && n.launched[e].Some?
    && var b := n.launched[e].value;
    && o == Forward(w.model, Range(0, w.model.numLayers), b.request, None)
    && o == Chain(w.model, RangesOf(w, b.servers), b.request, None)
    && IsAnswer(w.model, b.request, o)
    && forall it | it in n'.items :: it.e != e
  }

  lemma WholeIsForward(w: World, b: Launched)
    requires TilingSnapshot(w, b.servers)
    ensures Whole(w, b.request) == Forward(w.model, Range(0, w.model.numLayers), b.request, None)
    ensures Whole(w, b.request) == Chain(w.model, RangesOf(w, b.servers), b.request, None)
    ensures IsAnswer(w.model, b.request, Whole(w, b.request))
    ensures b.servers != []
  {
    TilingComputesWhole(w.model, RangesOf(w, b.servers), b.request, None);
  }

  lemma DequeueAnswers(w: World, n: Net, sts: seq<Status>, e: nat, o: Outcome)
    requires Inv(w, n, sts) && Enabled(w, n, Dequeue(e, o))
    ensures AnswersLaunch(w, n, e, o, Apply(w, n, Dequeue(e, o)))
  {
    hide Total, Expected, Forward, Chain, RangesOf, TilingSnapshot, Whole, JobAfter, IsAnswer;
    var b, p := Locate(w, n, sts, Ready(e, o));
    WholeIsForward(w, b);
    ReadyIsWhole(w, e, b, p, o);
    var n' := Apply(w, n, Dequeue(e, o));
    var sts' := DequeueStep(w, n, sts, e, o);
    hide Apply, Carrier;
    forall it | it in n'.items ensures it.e != e {
      ItemBelongs(w, sts', it);
      IdleHasNothing(w, e, it);
    }
  }

  lemma ReadyIsWhole(w: World, e: nat, b: Launched, p: Pos, o: Outcome)
    requires b.servers != [] && PosOk(b.servers, p) && Carrier(w, e, b, p) == Ready(e, o)
    ensures o == Whole(w, b.request)
  {
    hide JobAfter, Whole;
  }

  lemma IdleHasNothing(w: World, e: nat, it: Item)
    ensures it !in Expected(w, e, Idle)
  {}

  /** The result the head takes off an engine's queue answers the batch it launched there, and
      the next batch cannot meet anything of this one. Message order, joins and the other
      engines do not matter. */
  lemma ResultIsWholeModel(w: World, states: seq<Net>, events: seq<Event>, i: nat)
    requires IsRun(w, states, events) && i < |events| && events[i].Dequeue?
    ensures AnswersLaunch(w, states[i], events[i].e, events[i].outcome, states[i + 1])
  {
    var sts := RunsKeepInv(w, states, events, i);
    assert Transition(w, states[i], events[i], states[i + 1]);
    hide AnswersLaunch, Inv, Apply, Enabled;
    DequeueAnswers(w, states[i], sts, events[i].e, events[i].outcome);
  }

  /** What a stage leaves behind is exactly one item: no stage drops the batch. */
  ghost predicate KeepsBatch(w: World, ev: Event) {
    && (ev.RunHead? ==> |AfterHead(w, ev.e, ev.request, ev.servers)| == 1)
    && (ev.Finish? ==> |AfterStage(w, ev.e, ev.node, ev.job)| == 1 && !RouteByStage(w, ev.job.servers, ev.node).Lost?)
  }

  lemma StageKeepsBatch(w: World, n: Net, sts: seq<Status>, ev: Event)
    requires Inv(w, n, sts) && Enabled(w, n, ev)
    ensures KeepsBatch(w, ev)
  {
    hide Total, Expected, AfterHead, AfterStage, RouteByStage, RouteByPlace, TilingSnapshot, JobAfter, Whole;
    match ev {
      case RunHead(e, request, servers) =>
        var b, p := Locate(w, n, sts, HeadTask(e, request, servers));
        HeadStep(w, e, b);
      case Finish(e, node, job) =>
        var b, p := Locate(w, n, sts, Running(e, node, job));
        StageStep(w, e, b, p.k);
        JobServers(w, b, p.k);
        WorkerRoute(w, b.servers, p.k);
      case _ =>
    }
  }

  /** No batch is ever lost: the return of a worker that finds no next server is not reached. */
  lemma NoBatchLost(w: World, states: seq<Net>, events: seq<Event>, i: nat)
    requires IsRun(w, states, events) && i < |events|
    ensures KeepsBatch(w, events[i])
  {
    var sts := RunsKeepInv(w, states, events, i);
    assert Transition(w, states[i], events[i], states[i + 1]);
    hide KeepsBatch, Inv, Apply, Enabled;
    StageKeepsBatch(w, states[i], sts, events[i]);
  }

  lemma TriggerPresent(w: World, n: Net, sts: seq<Status>, e: nat, node: Ip, job: Job)
    requires Inv(w, n, sts) && Queued(e, node, job) in n.items
    ensures Enabled(w, n, Begin(e, node, job))
  {
    hide Total, Expected, Triggers, TilingSnapshot, JobAfter, Whole;
    var b, p := Locate(w, n, sts, Queued(e, node, job));
    BeginEnabled(w, n, sts, e, b, p.k);
  }

  /** With the tensors of a batch in a worker's input queue, the trigger it waits for is there. */
  lemma TriggerNeverMissing(w: World, states: seq<Net>, events: seq<Event>, i: nat, e: nat, node: Ip, job: Job)
    requires IsRun(w, states, events) && i < |states| && Queued(e, node, job) in states[i].items
    ensures Enabled(w, states[i], Begin(e, node, job))
  {
    var sts := RunsKeepInv(w, states, events, i);
    hide Inv, Apply;
    TriggerPresent(w, states[i], sts, e, node, job);
  }

  lemma {:induction false} CarriersBound(w: World, sts: seq<Status>, s: multiset<Item>)
    requires AllOk(w, sts) && s <= Total(w, sts) && forall it | it in s :: !it.Trigger?
    ensures |s| <= |sts|
  {
    if sts != [] {
      var last := |sts| - 1;
      var x := Expected(w, last, sts[last]);
      var rest := s - x;
      assert rest <= Total(w, sts[..last]);
      CarriersBound(w, sts[..last], rest);
      var mine := s * x;
      assert s == rest + mine;
      OneCarrier(w, last, sts[last], mine);
    }
  }

  lemma {:induction false} TriggersCount(e: nat, s: seq<Ip>, from: nat, it: Item)
    requires !it.Trigger?
    ensures it !in Triggers(e, s, from)
    decreases |s| - from
  {
    if it in Triggers(e, s, from) { TriggersOf(e, s, from, it); }
  }

  lemma OneCarrier(w: World, e: nat, st: Status, m: multiset<Item>)
    requires StatusOk(w, st) && m <= Expected(w, e, st) && forall it | it in m :: !it.Trigger?
    ensures |m| <= 1
  {
    if st.Busy? {
      var c := Carrier(w, e, st.batch, st.pos);
      forall it | it in m ensures it == c && m[it] <= 1 {
        ExpectedItems(w, e, st, it);
        TriggersCount(e, st.batch.servers, Waiting(st.batch.servers, st.pos), it);
        assert m[it] <= Expected(w, e, st)[it];
      }
      assert m <= multiset{c};
      assert multiset{c} == m + (multiset{c} - m);
    } else {
      assert m == multiset{};
    }
  }

  /** No delivery queue, and no other place, ever holds more items than there are engines; with
      the ten engines of the executor, a queue of a hundred slots is never full. */
  lemma DeliveryQueueBound(w: World, states: seq<Net>, events: seq<Event>, i: nat, held: multiset<Item>)
    requires IsRun(w, states, events) && i < |states|
    requires held <= states[i].items && forall it | it in held :: it.Outbox?
    ensures |held| <= |states[i].launched|
  {
    var sts := RunsKeepInv(w, states, events, i);
    CarriersBound(w, sts, held);
  }

  // ----------------------------------------------------------------- progress

  lemma CarrierPresent(w: World, n: Net, sts: seq<Status>, e: nat)
    requires Inv(w, n, sts) && e < |sts| && sts[e].Busy?
    ensures StatusOk(w, sts[e]) && Carrier(w, e, sts[e].batch, sts[e].pos) in n.items
  {
    var b, p := sts[e].batch, sts[e].pos;
    assert StatusOk(w, sts[e]);
    Present(w, n, sts, e, multiset{Carrier(w, e, b, p)}, Triggers(e, b.servers, Waiting(b.servers, p)));
  }

  /** Some event of the batch outstanding on `e` can happen now. */
  lemma CanMove(w: World, n: Net, sts: seq<Status>, e: nat) returns (ev: Event)
    requires Inv(w, n, sts) && e < |sts| && n.launched[e].Some?
    ensures Enabled(w, n, ev) && !ev.Launch? && !ev.Join? && ev.e == e
    ensures ev.Dequeue? <==> sts[e].pos.ResultReady?
    ensures ev.RunHead? <==> sts[e].pos.AtHead?
    ensures ev.Deliver? <==> sts[e].pos.OnWire? || sts[e].pos.ResultWire?
    ensures ev.Deliver? && ev.parcel.Back? ==>
              sts[e].pos.ResultWire? && ev.parcel.outcome == Whole(w, sts[e].batch.request)
    ensures ev.Deliver? && ev.parcel.Next? ==> sts[e].pos.OnWire?
  {
    var b, p := sts[e].batch, sts[e].pos;
    hide Total, Expected, Triggers, TilingSnapshot, JobAfter, Whole, Apply, Joined, Upto;
    CarrierPresent(w, n, sts, e);
    ev := match Carrier(w, e, b, p)
      case HeadTask(_, request, servers) => RunHead(e, request, servers)
      case Outbox(_, at, parcel) => Send(e, at, parcel)
      case Wire(_, parcel) => Deliver(e, parcel)
      case Queued(_, node, job) => Begin(e, node, job)
      case Running(_, node, job) => Finish(e, node, job)
      case Ready(_, o) => Dequeue(e, o)
      case Trigger(_, _) => Dequeue(e, AssertionFailed);
    if ev.Begin? {
      TriggerPresent(w, n, sts, e, ev.node, ev.job);
    }
  }

  /** No run gets stuck: while the head waits for an engine's result, an event of that batch is
      enabled, whatever the other engines do. */
  lemma NeverStuck(w: World, states: seq<Net>, events: seq<Event>, i: nat, e: nat) returns (ev: Event)
    requires IsRun(w, states, events) && i < |states| && e < |states[i].launched| && states[i].launched[e].Some?
    ensures Enabled(w, states[i], ev) && !ev.Launch? && !ev.Join? && ev.e == e
  {
    var sts := RunsKeepInv(w, states, events, i);
    hide Inv, Enabled;
    assert |sts| == |states[i].launched| by { InvLength(w, states[i], sts); }
    ev := CanMove(w, states[i], sts, e);
  }

  lemma InvLength(w: World, n: Net, sts: seq<Status>)
    requires Inv(w, n, sts)
    ensures |sts| == |n.launched|
  {}

  predicate Concerns(ev: Event, e: nat) { !ev.Join? && ev.e == e }

  function CountOf(events: seq<Event>, e: nat, from: nat, until: nat): nat
    requires from <= until <= |events|
    decreases until
  {
    if from == until then 0 else CountOf(events, e, from, until - 1) + if Concerns(events[until - 1], e) then 1 else 0
  }

  lemma {:induction false} Countdown(w: World, states: seq<Net>, events: seq<Event>, from: nat, until: nat, e: nat,
                                     sts: seq<Status>)
    returns (sts': seq<Status>)
    requires IsRun(w, states, events) && from <= until < |states| && Inv(w, states[from], sts) && e < |sts|
    requires forall i | from <= i < until :: !(events[i].Launch? && events[i].e == e)
    ensures Inv(w, states[until], sts') && |sts'| == |sts|
    ensures StatusOk(w, sts[e]) && StatusOk(w, sts'[e])
    ensures Remaining(sts[e]) == Remaining(sts'[e]) + CountOf(events, e, from, until)
    decreases until
  {
    hide Enabled, Apply, Total, Remaining, TilingSnapshot, PosOk;
    assert StatusOk(w, sts[e]);
    sts' := sts;
    if from < until {
      sts' := Countdown(w, states, events, from, until - 1, e, sts);
      assert Transition(w, states[until - 1], events[until - 1], states[until]);
      sts' := Step(w, states[until - 1], sts', events[until - 1]);
      assert StatusOk(w, sts'[e]);
    }
  }

  /** From its launch to the result, a batch over n servers takes exactly 4 n events (two when
      the head is alone), so with no batch stuck every result arrives. */
  lemma EventsPerBatch(w: World, states: seq<Net>, events: seq<Event>, j: nat, i: nat, e: nat)
    requires IsRun(w, states, events) && j < i < |events|
    requires events[j].Launch? && events[j].e == e && events[i].Dequeue? && events[i].e == e
    requires forall k | j < k < i :: !(events[k].Launch? && events[k].e == e)
    ensures e < |states[j].launched|
    ensures CountOf(events, e, j + 1, i + 1) == StepsOf(|Topology.ServerList(states[j].nodes)|)
  {
    hide *;
    RunStep(w, states, events, j);
    RunStep(w, states, events, i);
    var sts := RunsKeepInv(w, states, events, j);
    sts := AfterLaunch(w, states[j], sts, events[j], states[j + 1]);
    var sts' := Countdown(w, states, events, j + 1, i + 1, e, sts);
    AfterDequeue(w, states[i], events[i], states[i + 1], sts');
  }

  lemma RunStep(w: World, states: seq<Net>, events: seq<Event>, i: nat)
    requires IsRun(w, states, events) && i < |events|
    ensures |states| == |events| + 1 && Transition(w, states[i], events[i], states[i + 1])
  {
    hide Transition, Init;
  }

  lemma AfterLaunch(w: World, n: Net, sts: seq<Status>, ev: Event, n': Net) returns (sts': seq<Status>)
    requires Inv(w, n, sts) && Transition(w, n, ev, n') && ev.Launch?
    ensures Inv(w, n', sts') && ev.e < |sts'| == |n.launched| && StatusOk(w, sts'[ev.e])
    ensures Remaining(sts'[ev.e]) == StepsOf(|Topology.ServerList(n.nodes)|)
  {
    sts' := Step(w, n, sts, ev);
    hide Total, Topology.ServerList, TilingSnapshot, Triggers;
    assert n'.launched[ev.e].value.servers == Topology.ServerList(n.nodes);
    assert StatusOk(w, sts'[ev.e]);
  }

  lemma AfterDequeue(w: World, n: Net, ev: Event, n': Net, sts': seq<Status>)
    requires Transition(w, n, ev, n') && ev.Dequeue? && Inv(w, n', sts')
    ensures ev.e < |sts'| && StatusOk(w, sts'[ev.e]) && Remaining(sts'[ev.e]) == 0
  {
    hide Total;
    assert n'.launched[ev.e] == None;
    assert sts'[ev.e] == Idle;
  }
}
