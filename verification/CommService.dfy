/** One node's side of the pipeline: the handlers and queues of its gRPC service and, on the
    head, the launch of a batch. `Held` says which items of the pipeline's bag lie in its
    queues; every method changes it exactly as the corresponding event of the bag does. */
module CommService {
  import opened Wrappers
  import opened LayerSplit
  import opened PipelineProtocol
  import Topology

  // ------------------------------------------------------ lists of queues as bags

  function Row<T>(f: (nat, T) -> Item, e: nat, s: seq<T>): multiset<Item> {
    if s == [] then multiset{} else multiset{f(e, s[0])} + Row(f, e, s[1..])
  }

  function Rows<T>(f: (nat, T) -> Item, q: seq<seq<T>>): multiset<Item> {
    if q == [] then multiset{} else Rows(f, q[..|q| - 1]) + Row(f, |q| - 1, q[|q| - 1])
  }

  lemma {:induction false} RowPush<T>(f: (nat, T) -> Item, e: nat, s: seq<T>, x: T)
    ensures Row(f, e, s + [x]) == Row(f, e, s) + multiset{f(e, x)}
  {
    if s == [] {
      assert Row(f, e, [x]) == multiset{f(e, x)} + Row(f, e, [x][1..]);
    } else {
      assert (s + [x])[1..] == s[1..] + [x];
      RowPush(f, e, s[1..], x);
    }
  }

  lemma {:induction false} RowsUpdate<T>(f: (nat, T) -> Item, q: seq<seq<T>>, e: nat, s: seq<T>)
    requires e < |q|
    ensures Rows(f, q[e := s]) + Row(f, e, q[e]) == Rows(f, q) + Row(f, e, s)
  {
    var last := |q| - 1;
    if e < last {
      RowsUpdate(f, q[..last], e, s);
      assert q[e := s][..last] == q[..last][e := s];
      Shuffle(Rows(f, q[..last]), Rows(f, q[..last][e := s]), Row(f, e, q[e]), Row(f, e, s), Row(f, last, q[last]));
    } else {
      assert q[e := s][..last] == q[..last];
      Exchange(Rows(f, q[..last]), Row(f, e, q[e]), Row(f, e, s));
    }
  }

  /** Putting at the back of a queue and getting from the front of it. */
  lemma RowsPush<T>(f: (nat, T) -> Item, q: seq<seq<T>>, e: nat, x: T)
    requires e < |q|
    ensures Rows(f, q[e := q[e] + [x]]) == Rows(f, q) + multiset{f(e, x)}
  {
    RowsUpdate(f, q, e, q[e] + [x]);
    RowPush(f, e, q[e], x);
    Cancel(Rows(f, q[e := q[e] + [x]]), Row(f, e, q[e]), Rows(f, q), multiset{f(e, x)});
  }

  lemma RowsPop<T>(f: (nat, T) -> Item, q: seq<seq<T>>, e: nat)
    requires e < |q| && q[e] != []
    ensures Rows(f, q) == Rows(f, q[e := q[e][1..]]) + multiset{f(e, q[e][0])}
  {
    RowsUpdate(f, q, e, q[e][1..]);
    Cancel(Rows(f, q), Row(f, e, q[e][1..]), Rows(f, q[e := q[e][1..]]), multiset{f(e, q[e][0])});
  }

  lemma Cancel(a: multiset<Item>, r: multiset<Item>, b: multiset<Item>, x: multiset<Item>)
    requires a + r == b + (r + x) || a + r == b + (x + r)
    ensures a == b + x
  {
    forall y ensures a[y] == (b + x)[y] {
      assert (a + r)[y] == a[y] + r[y];
    }
  }

  /** An entry of the queue to the delivery process. */
  datatype Delivery = Delivery(e: nat, parcel: Parcel)

  function InputItem(ip: Ip): (nat, Job) -> Item { (e: nat, job: Job) => Queued(e, ip, job) }
  function OutputItem(): (nat, Outcome) -> Item { (e: nat, o: Outcome) => Ready(e, o) }
  function DeliveryItem(ip: Ip): (nat, Delivery) -> Item { (_: nat, d: Delivery) => Outbox(d.e, ip, d.parcel) }

  const PROCESS_QUEUE_SIZE := 100

  class CommService {
    const world: World
    const ip: Ip
    var inputQueue: seq<seq<Job>>
    var outputQueue: seq<seq<Outcome>>
    var processQueue: seq<Delivery>
    var nodePool: seq<Topology.Node>
    var nodeInfo: seq<Topology.Entry>

    constructor (world: World, ip: Ip, pipelineSize: nat)
      ensures this.world == world && this.ip == ip && nodePool == [] && nodeInfo == [] && processQueue == []
      ensures |inputQueue| == |outputQueue| == pipelineSize
      ensures forall e | 0 <= e < pipelineSize :: inputQueue[e] == [] && outputQueue[e] == []
    {
      this.world, this.ip := world, ip;
      inputQueue, outputQueue := seq(pipelineSize, e => []), seq(pipelineSize, e => []);
      processQueue, nodePool, nodeInfo := [], [], [];
    }

    ghost function Held(): multiset<Item>
      reads this
    {
      Rows(InputItem(ip), inputQueue) + Rows(OutputItem(), outputQueue) + Row(DeliveryItem(ip), 0, processQueue)
    }

    /** A node that joins again appears twice in the pool, but once in the dictionary that the
        server list is made from. */
    method JoinPipeline(node: Ip, startLayer: nat, endLayer: nat)
      modifies this`nodePool, this`nodeInfo
      ensures nodePool == old(nodePool) + [Topology.Node(node, startLayer, endLayer)]
      ensures nodeInfo == Topology.Put(old(nodeInfo), node, startLayer)
    {
      nodePool := nodePool + [Topology.Node(node, startLayer, endLayer)];
      nodeInfo := Topology.Put(nodeInfo, node, startLayer);
    }

    /** A message for an engine the node does not have is dropped. */
    method PushIntermediateTensors(e: nat, job: Job) returns (res: bool)
      modifies this`inputQueue
      ensures res <==> e < |old(inputQueue)|
      ensures inputQueue == if res then old(inputQueue[e := inputQueue[e] + [job]]) else old(inputQueue)
      ensures Held() == if res then old(Held()) + multiset{Arrived(e, Next(ip, job))} else old(Held())
    {
      if e >= |inputQueue| {
        return false;
      }
      RowsPush(InputItem(ip), inputQueue, e, job);
      Exchange3(Rows(InputItem(ip), inputQueue), multiset{Queued(e, ip, job)}, Rows(OutputItem(), outputQueue),
                Row(DeliveryItem(ip), 0, processQueue));
      inputQueue := inputQueue[e := inputQueue[e] + [job]];
      res := true;
    }

    method PushSamplerOutput(e: nat, o: Outcome) returns (res: bool)
      modifies this`outputQueue
      ensures res <==> e < |old(outputQueue)|
      ensures outputQueue == if res then old(outputQueue[e := outputQueue[e] + [o]]) else old(outputQueue)
      ensures Held() == if res then old(Held()) + multiset{Arrived(e, Back(o))} else old(Held())
    {
      if e >= |outputQueue| {
        return false;
      }
      RowsPush(OutputItem(), outputQueue, e, o);
      Exchange3(Rows(OutputItem(), outputQueue), multiset{Ready(e, o)}, Rows(InputItem(ip), inputQueue),
                Row(DeliveryItem(ip), 0, processQueue));
      outputQueue := outputQueue[e := outputQueue[e] + [o]];
      res := true;
    }

    /** The first half of a worker step: the oldest entry of the engine's input queue. */
    method BeginWorkerStep(e: nat) returns (job: Job)
      requires e < |inputQueue| && inputQueue[e] != []
      modifies this`inputQueue
      ensures job == old(inputQueue[e][0]) && inputQueue == old(inputQueue[e := inputQueue[e][1..]])
      ensures old(Held()) == Held() + multiset{Queued(e, ip, job)}
    {
      RowsPop(InputItem(ip), inputQueue, e);
      job := inputQueue[e][0];
      inputQueue := inputQueue[e := inputQueue[e][1..]];
      Exchange3(Rows(InputItem(ip), inputQueue), multiset{Queued(e, ip, job)}, Rows(OutputItem(), outputQueue),
                Row(DeliveryItem(ip), 0, processQueue));
    }

    /** The second half: run the stage and hand the output to the delivery process. A full
        queue loses it. */
    method FinishWorkerStep(e: nat, job: Job)
      requires world.ranges(ip).start <= world.ranges(ip).end
      modifies this`processQueue
      ensures |old(processQueue)| < PROCESS_QUEUE_SIZE ==> Held() == old(Held()) + AfterStage(world, e, ip, job)
      ensures |old(processQueue)| >= PROCESS_QUEUE_SIZE ==> Held() == old(Held())
    {
      hide Row, Rows, RunLayers;
      var range := world.ranges(ip);
      var o := RunForward(world.model, range, job.request, Some(job.hidden));
      var canPush := !IsLast(world.model, range);
      if !canPush && IsFirst(range) {
        return;
      }
      if canPush {
        var idxSelf := 0;
        while idxSelf < |job.servers| && job.servers[idxSelf] != ip
          invariant idxSelf <= |job.servers| && forall i | 0 <= i < idxSelf :: job.servers[i] != ip
        {
          idxSelf := idxSelf + 1;
        }
        assert idxSelf == Topology.IndexOf(job.servers, ip);
        if |job.servers| <= idxSelf + 1 {
          return;
        }
        PutNowait(e, Next(job.servers[idxSelf + 1], Job(job.request, o.hidden, job.servers)));
      } else {
        PutNowait(e, Back(o));
      }
    }

    method PutNowait(e: nat, parcel: Parcel)
      modifies this`processQueue
      ensures |old(processQueue)| < PROCESS_QUEUE_SIZE ==> Held() == old(Held()) + multiset{Outbox(e, ip, parcel)}
      ensures |old(processQueue)| < PROCESS_QUEUE_SIZE ==> processQueue == old(processQueue) + [Delivery(e, parcel)]
      ensures |old(processQueue)| >= PROCESS_QUEUE_SIZE ==> processQueue == old(processQueue)
    {
      if |processQueue| < PROCESS_QUEUE_SIZE {
        RowPush(DeliveryItem(ip), 0, processQueue, Delivery(e, parcel));
        processQueue := processQueue + [Delivery(e, parcel)];
      }
    }

    /** The delivery process takes the oldest entry and starts a task that sends it. */
    method TakeDelivery() returns (d: Delivery)
      requires processQueue != []
      modifies this`processQueue
      ensures d == old(processQueue[0]) && processQueue == old(processQueue[1..])
      ensures old(Held()) == Held() + multiset{Outbox(d.e, ip, d.parcel)}
    {
      d := processQueue[0];
      processQueue := processQueue[1..];
    }
  }

  /** The delivery process keeps one channel and replaces it when the destination changes, so
      every send goes to the destination of its own entry. */
  class Deliverer {
    var presetNextServer: Option<Ip>
    var channelToNextServer: Option<Ip>

    constructor ()
      ensures presetNextServer == channelToNextServer == None
    {
      presetNextServer, channelToNextServer := None, None;
    }

    method ChannelFor(server: Ip)
      requires presetNextServer == channelToNextServer
      modifies this
      ensures presetNextServer == channelToNextServer == Some(server)
    {
      if presetNextServer != Some(server) {
        channelToNextServer := Some(server);
        presetNextServer := Some(server);
      }
    }
  }

  lemma Exchange3(a: multiset<Item>, x: multiset<Item>, b: multiset<Item>, c: multiset<Item>)
    ensures (a + x) + b + c == a + b + c + x && b + (a + x) + c == b + a + c + x
  {}

  // ------------------------------------------------------------------ the head

  datatype Stub = Stub(target: Ip)

  function StubsFor(s: seq<Ip>): (r: seq<Stub>)
    ensures |r| == |s| && forall i | 0 <= i < |s| :: r[i].target == s[i]
  {
    if s == [] then [] else [Stub(s[0])] + StubsFor(s[1..])
  }

  function Tail(s: seq<Ip>): seq<Ip> { if s == [] then [] else s[1..] }

  class HeadServer {
    const comm: CommService
    var presetServerList: seq<Ip>
    var stubList: seq<Stub>

    ghost predicate Valid()
      reads this
    {
      stubList == StubsFor(presetServerList)
    }

    constructor (comm: CommService)
      ensures Valid() && this.comm == comm && presetServerList == []
    {
      this.comm := comm;
      presetServerList, stubList := [], [];
    }

    /** The cached stubs are rebuilt if the server list changed. The comparison runs over the
        old list, so it fails exactly when the new list is a proper prefix of the old one. */
    method RefreshStubs(serverList: seq<Ip>) returns (ok: bool)
      requires Valid()
      modifies this
      ensures Valid()
      ensures !ok <==> serverList < old(presetServerList)
      ensures presetServerList == if ok then serverList else old(presetServerList)
    {
      var build := |presetServerList| != |serverList|;
      for i := 0 to |presetServerList|
        invariant i <= |serverList| && presetServerList[..i] == serverList[..i]
        invariant build <==> |presetServerList| != |serverList|
      {
        if i >= |serverList| {
          return false;
        }
        if presetServerList[i] != serverList[i] {
          build := true;
          break;
        }
      }
      if build {
        presetServerList, stubList := serverList, StubsFor(serverList);
      }
      ok := true;
    }

    /** The v1 head compares the lists as a whole. */
    method UpdateStubList(serverList: seq<Ip>)
      requires Valid()
      modifies this
      ensures Valid() && presetServerList == serverList
    {
      if serverList == presetServerList {
        return;
      }
      presetServerList, stubList := serverList, StubsFor(serverList);
    }

    /** Launching a batch starts the head's own stage and triggers every worker of the snapshot
        once, as the launch event of the protocol does; if the stubs cannot be refreshed, the
        head's stage is started and no worker is triggered. */
    method Launch(e: nat, request: Tensor) returns (ok: bool, started: multiset<Item>)
      requires Valid()
      modifies this
      ensures Valid()
      ensures ok <==> !(Tail(Topology.ServerList(comm.nodeInfo)) < old(presetServerList))
      ensures var s := Topology.ServerList(comm.nodeInfo);
        started == multiset{HeadTask(e, request, s)} + if ok then Triggers(e, s, 1) else multiset{}
      ensures ok ==> presetServerList == Tail(Topology.ServerList(comm.nodeInfo))
    {
      var servers := Topology.ServerList(comm.nodeInfo);
      started := multiset{HeadTask(e, request, servers)};
      ok := RefreshStubs(Tail(servers));
      if !ok {
        return;
      }
      ghost var s := servers;
      ghost var all := multiset{HeadTask(e, request, s)} + Triggers(e, s, 1);
      for i := 0 to |stubList|
        invariant stubList == StubsFor(Tail(s)) && presetServerList == Tail(s) && Valid()
        invariant started + Triggers(e, s, i + 1) == all
      {
        TriggersStep(e, s, i + 1);
        assert stubList[i].target == s[i + 1];
        Regroup(started, multiset{Trigger(e, s[i + 1])}, Triggers(e, s, i + 2));
        started := started + multiset{Trigger(e, stubList[i].target)};
      }
    }

    /** The head's own stage. */
    method ExecutingHeadServer(e: nat, request: Tensor, servers: seq<Ip>)
      requires comm.ip == comm.world.head && e < |comm.outputQueue|
      requires comm.world.ranges(comm.ip).start <= comm.world.ranges(comm.ip).end
      modifies comm`outputQueue, comm`processQueue
      ensures |servers| <= 1 || |old(comm.processQueue)| < PROCESS_QUEUE_SIZE ==>
                comm.Held() == old(comm.Held()) + AfterHead(comm.world, e, request, servers)
    {
      var o := RunForward(comm.world.model, comm.world.ranges(comm.ip), request, None);
      if |servers| <= 1 {
        var res := comm.PushSamplerOutput(e, o);
        return;
      }
      if o.Intermediate? {
        comm.PutNowait(e, Next(servers[1], Job(request, o.hidden, servers)));
      }
    }
  }

  lemma Regroup(a: multiset<Item>, b: multiset<Item>, c: multiset<Item>)
    ensures (a + b) + c == a + (b + c)
  {}

  /** While nodes only join, the next server list is never a proper prefix of the last one, so
      refreshing the stubs never fails. */
  lemma {:induction false} JoinsKeepStubs(d: seq<Topology.Entry>, joins: seq<Topology.Op>)
    requires forall i | 0 <= i < |joins| :: joins[i].Add?
    ensures !(Tail(Topology.ServerList(Topology.ApplyOps(d, joins))) < Tail(Topology.ServerList(d)))
  {
    JoinsGrow(d, joins);
    Topology.SortKeepsDistinctLength(d);
    Topology.SortKeepsDistinctLength(Topology.ApplyOps(d, joins));
  }

  lemma {:induction false} JoinsGrow(d: seq<Topology.Entry>, joins: seq<Topology.Op>)
    requires forall i | 0 <= i < |joins| :: joins[i].Add?
    ensures |Topology.ApplyOps(d, joins)| >= |d|
    decreases |joins|
  {
    if joins != [] {
      PutGrows(d, joins[0].ip, joins[0].start);
      JoinsGrow(Topology.ApplyOp(d, joins[0]), joins[1..]);
    }
  }

  lemma {:induction false} PutGrows(d: seq<Topology.Entry>, ip: Ip, start: int)
    ensures |Topology.Put(d, ip, start)| >= |d|
  {
    if d != [] && d[0].ip != ip {
      PutGrows(d[1..], ip, start);
    }
  }

  /** When a server leaves, the next refresh fails exactly if it was the last one, or if it was
      the head of a pipeline of two. */
  lemma LeavingBreaksStubs(d: seq<Topology.Entry>, k: nat)
    requires Topology.Distinct(d) && k < |d|
    ensures |Topology.ServerList(d)| == |d|
    ensures var s := Topology.ServerList(d);
      Tail(Topology.ServerList(Topology.ApplyOp(d, Topology.Delete(s[k])))) < Tail(s)
      <==> |s| > 1 && (k == |s| - 1 || |s| == 2)
  {
    Topology.ServerLeaves(d, k);
    hide Topology.ServerList, Topology.ApplyOp;
    WithoutOne(Topology.ServerList(d), k);
  }

  lemma WithoutOne(s: seq<Ip>, k: nat)
    requires Topology.DistinctIps(s) && k < |s|
    ensures Tail(s[..k] + s[k + 1..]) < Tail(s) <==> |s| > 1 && (k == |s| - 1 || |s| == 2)
  {
    var r := s[..k] + s[k + 1..];
    if 0 < k < |s| - 1 {
      assert Tail(r)[k - 1] == s[k + 1] && Tail(s)[k - 1] == s[k];
    } else if k == 0 && |s| > 2 {
      assert Tail(r)[0] == s[2] && Tail(s)[0] == s[1];
    } else if |s| > 1 && k == |s| - 1 {
      assert Tail(r) == Tail(s)[..k - 1];
    }
  }
}
