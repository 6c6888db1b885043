/** Registration in the distributed hash table: every node reads the shared list of node ids
    and, if it is not in it, writes back a longer list. Reading and writing are separate steps,
    so the refreshes of different nodes interleave. */
module Dht {
  import opened Wrappers
  import Topology

  type Uuid = string

  datatype NodeInfo = NodeInfo(address: Topology.Ip, startLayer: int)

  /** The list a node writes after having read `stored`, if it writes. */
  function Rewrite(stored: Option<seq<Uuid>>, u: Uuid): Option<seq<Uuid>> {
    match stored
    case None => Some([u])
    case Some(s) => if u in s then None else Some(s + [u])
  }

  function Ids(stored: Option<seq<Uuid>>): seq<Uuid> {
    match stored case None => [] case Some(s) => s
  }

  // ---------------------------------------------------------------- the nodes

  class Store {
    var primary: Option<seq<Uuid>>
    var sub: map<Uuid, NodeInfo>

    constructor ()
      ensures primary == None && sub == map[]
    {
      primary, sub := None, map[];
    }
  }

  class DhtNode {
    const uuid: Uuid
    const info: NodeInfo
    const store: Store
    var pending: Option<seq<Uuid>>

    constructor (uuid: Uuid, info: NodeInfo, store: Store)
      ensures this.uuid == uuid && this.info == info && this.store == store && pending == None
    {
      this.uuid, this.info, this.store, pending := uuid, info, store, None;
    }

    /** The first half of `store_primary_kv`: everything up to the write. */
    method Read()
      modifies this
      ensures pending == Rewrite(store.primary, uuid)
    {
      pending := None;
      match store.primary {
        case None => pending := Some([uuid]);
        case Some(ids) =>
          if uuid !in ids {
            pending := Some(ids + [uuid]);
          }
      }
    }

    /** The second half. */
    method Write()
      modifies this, store`primary
      ensures pending == None
      ensures store.primary == if old(pending).Some? then old(pending) else old(store.primary)
    {
      if pending.Some? {
        store.primary := pending;
      }
      pending := None;
    }

    method StoreSubKv()
      modifies store`sub
      ensures store.sub == old(store.sub)[uuid := info]
    {
      store.sub := store.sub[uuid := info];
    }

    /** A refresh that no other node's write interrupts. */
    method Refresh()
      modifies this, store
      ensures store.primary == Refreshed(old(store.primary), uuid)
      ensures store.sub == old(store.sub)[uuid := info] && pending == None
    {
      Read();
      Write();
      StoreSubKv();
    }
  }

  function Refreshed(stored: Option<seq<Uuid>>, u: Uuid): Option<seq<Uuid>> {
    var w := Rewrite(stored, u);
    if w.Some? then w else stored
  }

  // -------------------------------------------------------- all interleavings

  /** `pending` holds the lists that nodes have prepared but not written. */
  datatype World = World(stored: Option<seq<Uuid>>, pending: map<Uuid, seq<Uuid>>)

  datatype Event = Get(u: Uuid) | Set(u: Uuid)

  ghost predicate Enabled(nodes: set<Uuid>, w: World, ev: Event) {
    match ev
    case Get(u) => u in nodes && u !in w.pending
    case Set(u) => u in w.pending
  }

  function Apply(w: World, ev: Event): World
    requires ev.Set? ==> ev.u in w.pending
  {
    match ev
    case Get(u) =>
      var r := Rewrite(w.stored, u);
      if r.Some? then w.(pending := w.pending[u := r.value]) else w
    case Set(u) => World(Some(w.pending[u]), w.pending - {u})
  }

  ghost predicate Distinct(s: seq<Uuid>) { forall i, j | 0 <= i < j < |s| :: s[i] != s[j] }

  ghost predicate Good(nodes: set<Uuid>, s: seq<Uuid>) { Distinct(s) && forall u | u in s :: u in nodes }

  ghost predicate Inv(nodes: set<Uuid>, w: World) {
    && Good(nodes, Ids(w.stored))
    && forall u | u in w.pending :: u in nodes && Good(nodes, w.pending[u]) && u in w.pending[u]
  }

  lemma StepKeeps(nodes: set<Uuid>, w: World, ev: Event)
    requires Inv(nodes, w) && Enabled(nodes, w, ev)
    ensures Inv(nodes, Apply(w, ev))
  {
    if ev.Get? {
      RewriteGood(nodes, w.stored, ev.u);
    }
  }

  lemma RewriteGood(nodes: set<Uuid>, stored: Option<seq<Uuid>>, u: Uuid)
    requires Good(nodes, Ids(stored)) && u in nodes
    ensures var r := Rewrite(stored, u); r.Some? ==> Good(nodes, r.value) && u in r.value
  {
    var r := Rewrite(stored, u);
    if r.Some? {
      assert r.value == Ids(stored) + [u];
    }
  }

  ghost predicate Transition(nodes: set<Uuid>, w: World, ev: Event, w': World) {
    Enabled(nodes, w, ev) && w' == Apply(w, ev)
  }

  ghost predicate IsRun(nodes: set<Uuid>, states: seq<World>, events: seq<Event>) {
    && |states| == |events| + 1 && states[0] == World(None, map[])
    && forall i | 0 <= i < |events| :: Transition(nodes, states[i], events[i], states[i + 1])
  }

  /** However reads and writes interleave, the stored list never holds an id twice, nor one that
      is not a participant's. */
  lemma {:induction false} StoredListIsGood(nodes: set<Uuid>, states: seq<World>, events: seq<Event>, i: nat)
    requires IsRun(nodes, states, events) && i < |states|
    ensures Inv(nodes, states[i])
  {
    if i > 0 {
      StoredListIsGood(nodes, states, events, i - 1);
      assert Transition(nodes, states[i - 1], events[i - 1], states[i]);
      StepKeeps(nodes, states[i - 1], events[i - 1]);
    }
  }

  // ------------------------------------------------------------- lost updates

  /** What a node prepared stays as it is until the node writes. */
  lemma {:induction false} PendingKept(nodes: set<Uuid>, states: seq<World>, events: seq<Event>, i: nat, k: nat,
                                       u: Uuid)
    requires IsRun(nodes, states, events) && i <= k < |states| && u in states[i].pending
    requires forall m | i <= m < k :: events[m] != Set(u)
    ensures u in states[k].pending && states[k].pending[u] == states[i].pending[u]
  {
    if i < k {
      PendingKept(nodes, states, events, i, k - 1, u);
      assert Transition(nodes, states[k - 1], events[k - 1], states[k]);
    }
  }

  /** Whatever is written between the two halves of a node's refresh, its write leaves exactly
      what its read listed, and the node itself: another node's registration survives exactly if
      it was listed at the read. */
  lemma OverlapLoses(nodes: set<Uuid>, states: seq<World>, events: seq<Event>, i: nat, k: nat, u: Uuid, v: Uuid)
    requires IsRun(nodes, states, events) && i < k < |events| && u != v
    requires events[i] == Get(u) && u !in Ids(states[i].stored) && events[k] == Set(u)
    requires forall m | i < m < k :: events[m] != Set(u)
    ensures Ids(states[k + 1].stored) == Ids(states[i].stored) + [u]
    ensures v in Ids(states[k + 1].stored) <==> v in Ids(states[i].stored)
  {
    assert Transition(nodes, states[i], events[i], states[i + 1]);
    assert Transition(nodes, states[k], events[k], states[k + 1]);
    PendingKept(nodes, states, events, i + 1, k, u);
    assert [] + [u] == [u];
    assert Ids(states[k + 1].stored) == Ids(states[i].stored) + [u];
  }

  /** So two nodes that register at once can lose one of them. */
  lemma LostRegistration(u: Uuid, v: Uuid)
    requires u != v
    ensures var events := [Get(u), Get(v), Set(v), Set(u)];
      exists states: seq<World> ::
        IsRun({u, v}, states, events) && v in Ids(states[3].stored) && v !in Ids(states[4].stored)
  {
    var events := [Get(u), Get(v), Set(v), Set(u)];
    var s0 := World(None, map[]);
    var s1 := Apply(s0, Get(u));
    var s2 := Apply(s1, Get(v));
    var s3 := Apply(s2, Set(v));
    var s4 := Apply(s3, Set(u));
    var states := [s0, s1, s2, s3, s4];
    assert Transition({u, v}, s0, events[0], s1);
    assert Transition({u, v}, s1, events[1], s2);
    assert Transition({u, v}, s2, events[2], s3);
    assert Transition({u, v}, s3, events[3], s4);
    assert IsRun({u, v}, states, events);
  }

  // -------------------------------------------------- refreshes without overlap

  function RefreshAll(stored: Option<seq<Uuid>>, us: seq<Uuid>): Option<seq<Uuid>>
    decreases |us|
  {
    if us == [] then stored else RefreshAll(Refreshed(stored, us[0]), us[1..])
  }

  /** Refreshes that do not overlap lose nothing and add every node that refreshed. */
  lemma {:induction false} RefreshesAddAll(nodes: set<Uuid>, stored: Option<seq<Uuid>>, us: seq<Uuid>)
    requires Good(nodes, Ids(stored)) && forall u | u in us :: u in nodes
    ensures var r := Ids(RefreshAll(stored, us));
      Good(nodes, r) && Ids(stored) <= r && forall u :: u in r <==> u in Ids(stored) || u in us
    decreases |us|
  {
    if us != [] {
      RewriteGood(nodes, stored, us[0]);
      RefreshesAddAll(nodes, Refreshed(stored, us[0]), us[1..]);
      assert us == [us[0]] + us[1..];
    }
  }

  /** From event `i` to `k` no node reads while another one has still to write. */
  ghost predicate NoOverlap(states: seq<World>, events: seq<Event>, i: nat, k: nat)
    requires |states| == |events| + 1 && i <= k < |states|
  {
    && states[i].pending == map[] && states[k].pending == map[]
    && forall m | i <= m < k && events[m].Get? :: states[m].pending == map[]
  }

  /** The nodes that read from event `i` to `k`, in order. */
  function Readers(events: seq<Event>, i: nat, k: nat): seq<Uuid>
    requires i <= k <= |events|
    decreases k
  {
    if i == k then [] else Readers(events, i, k - 1) + if events[k - 1].Get? then [events[k - 1].u] else []
  }

  /** What is stored once the pending write, if there is one, has been made. */
  ghost predicate Settles(w: World, stored: Option<seq<Uuid>>) {
    || (w.pending == map[] && w.stored == stored)
    || exists u :: u in w.pending && w.pending == map[u := w.pending[u]] && stored == Some(w.pending[u])
  }

  lemma {:induction false} RefreshLast(stored: Option<seq<Uuid>>, us: seq<Uuid>, u: Uuid)
    ensures RefreshAll(stored, us + [u]) == Refreshed(RefreshAll(stored, us), u)
    decreases |us|
  {
    if us == [] {
      assert [u][1..] == [] && [] + [u] == [u];
    } else {
      assert (us + [u])[1..] == us[1..] + [u];
      RefreshLast(Refreshed(stored, us[0]), us[1..], u);
    }
  }

  lemma SettleStep(nodes: set<Uuid>, w: World, stored: Option<seq<Uuid>>, ev: Event)
    requires Settles(w, stored) && Enabled(nodes, w, ev) && (ev.Get? ==> w.pending == map[])
    ensures Settles(Apply(w, ev), if ev.Get? then Refreshed(stored, ev.u) else stored)
  {
    if ev.Get? {
      var r := Rewrite(stored, ev.u);
      assert r.Some? ==> ev.u in Apply(w, ev).pending;
    } else {
      assert Apply(w, ev).pending == map[];
    }
  }

  lemma {:induction false} Settled(nodes: set<Uuid>, states: seq<World>, events: seq<Event>, i: nat, k: nat)
    requires IsRun(nodes, states, events) && i <= k < |states| && states[i].pending == map[]
    requires forall m | i <= m < k && events[m].Get? :: states[m].pending == map[]
    ensures Settles(states[k], RefreshAll(states[i].stored, Readers(events, i, k)))
    decreases k
  {
    if i < k {
      Settled(nodes, states, events, i, k - 1);
      var ev := events[k - 1];
      assert Transition(nodes, states[k - 1], ev, states[k]);
      var us := Readers(events, i, k - 1);
      SettleStep(nodes, states[k - 1], RefreshAll(states[i].stored, us), ev);
      if ev.Get? {
        RefreshLast(states[i].stored, us, ev.u);
      } else {
        assert us + [] == us;
      }
    }
  }

  /** In any run, reads and writes that do not overlap store what whole refreshes would; so once
      every participant has read, with no write left pending, all of them are listed, and what
      was listed before still is. */
  lemma RefreshesComplete(nodes: set<Uuid>, states: seq<World>, events: seq<Event>, i: nat, k: nat)
    requires IsRun(nodes, states, events) && i <= k < |states| && NoOverlap(states, events, i, k)
    ensures states[k].stored == RefreshAll(states[i].stored, Readers(events, i, k))
    ensures Ids(states[i].stored) <= Ids(states[k].stored)
    ensures forall u :: u in Ids(states[k].stored) <==> u in Ids(states[i].stored) || u in Readers(events, i, k)
  {
    Settled(nodes, states, events, i, k);
    StoredListIsGood(nodes, states, events, i);
    ReadersAreNodes(nodes, states, events, i, k);
    RefreshesAddAll(nodes, states[i].stored, Readers(events, i, k));
  }

  lemma {:induction false} ReadersAreNodes(nodes: set<Uuid>, states: seq<World>, events: seq<Event>, i: nat, k: nat)
    requires IsRun(nodes, states, events) && i <= k < |states|
    ensures forall u | u in Readers(events, i, k) :: u in nodes
    decreases k
  {
    if i < k {
      ReadersAreNodes(nodes, states, events, i, k - 1);
      assert Transition(nodes, states[k - 1], events[k - 1], states[k]);
    }
  }

  /** Once every participant is listed and no write is pending, the list never changes again,
      whatever the interleaving. */
  lemma {:induction false} CompleteListIsStable(nodes: set<Uuid>, states: seq<World>, events: seq<Event>,
                                                i: nat, k: nat)
    requires IsRun(nodes, states, events) && i <= k < |states|
    requires states[i].pending == map[] && forall u | u in nodes :: u in Ids(states[i].stored)
    ensures states[k] == states[i]
  {
    if i < k {
      CompleteListIsStable(nodes, states, events, i, k - 1);
      assert Transition(nodes, states[k - 1], events[k - 1], states[k]);
    }
  }

  // ---------------------------------------------------------- the sorted view

  /** The dictionary built from the listed nodes whose data is there. */
  function Build(ids: seq<Uuid>, sub: map<Uuid, NodeInfo>): seq<Topology.Entry> {
    if ids == [] then []
    else
      var d, last := Build(ids[..|ids| - 1], sub), ids[|ids| - 1];
      if last in sub then Topology.Put(d, sub[last].address, sub[last].startLayer) else d
  }

  datatype PipelineInfo = Empty | Info(head: Topology.Ip, serverList: seq<Topology.Ip>)

  method ManagePipeline(node: DhtNode) returns (info: PipelineInfo)
    ensures info == match node.store.primary
                    case None => Empty
                    case Some(ids) => Info(node.info.address, Topology.ServerList(Build(ids, node.store.sub)))
  {
    if node.store.primary.None? {
      return Empty;
    }
    var ids, d := node.store.primary.value, [];
    for i := 0 to |ids|
      invariant d == Build(ids[..i], node.store.sub)
    {
      assert ids[..i + 1][..i] == ids[..i];
      if ids[i] in node.store.sub {
        var n := node.store.sub[ids[i]];
        d := Topology.Put(d, n.address, n.startLayer);
      }
    }
    assert ids[..|ids|] == ids;
    info := Info(node.info.address, Topology.ServerList(d));
  }

  lemma {:induction false} BuildListsAll(ids: seq<Uuid>, sub: map<Uuid, NodeInfo>)
    ensures var d := Build(ids, sub);
      && Topology.Distinct(d)
      && forall ip :: Topology.Has(d, ip) <==> exists u :: u in ids && u in sub && sub[u].address == ip
  {
    if ids != [] {
      var front, last := ids[..|ids| - 1], ids[|ids| - 1];
      BuildListsAll(front, sub);
      assert forall u :: u in ids <==> u in front || u == last;
      if last in sub {
        Topology.PutKeepsDistinct(Build(front, sub), sub[last].address, sub[last].startLayer);
      }
    }
  }

  /** The server list holds the address of every listed node that has published its data, once
      each, and following it from its first server visits them all. */
  lemma ViewListsPublished(ids: seq<Uuid>, sub: map<Uuid, NodeInfo>)
    ensures var s := Topology.ServerList(Build(ids, sub));
      && Topology.DistinctIps(s)
      && (forall ip :: ip in s <==> exists u :: u in ids && u in sub && sub[u].address == ip)
      && (s != [] ==> Topology.Walk(s, s[0]) == s)
  {
    var d := Build(ids, sub);
    BuildListsAll(ids, sub);
    if d != [] {
      Topology.ChainVisitsAll(d);
    }
  }

  lemma {:induction false} PutMembers(d: seq<Topology.Entry>, ip: Topology.Ip, start: int, e: Topology.Entry)
    requires e in Topology.Put(d, ip, start)
    ensures e in d || e == Topology.Entry(ip, start)
  {
    if d != [] && d[0].ip != ip && e != d[0] {
      PutMembers(d[1..], ip, start, e);
    }
  }

  /** A listed node has published this address with this start layer. */
  ghost predicate Published(ids: seq<Uuid>, sub: map<Uuid, NodeInfo>, address: Topology.Ip, start: int) {
    exists u :: u in ids && u in sub && sub[u] == NodeInfo(address, start)
  }

  lemma {:induction false} BuildPublished(ids: seq<Uuid>, sub: map<Uuid, NodeInfo>, e: Topology.Entry)
    requires e in Build(ids, sub)
    ensures Published(ids, sub, e.ip, e.start)
  {
    var front, last := ids[..|ids| - 1], ids[|ids| - 1];
    if last in sub {
      PutMembers(Build(front, sub), sub[last].address, sub[last].startLayer, e);
    }
    if e in Build(front, sub) {
      BuildPublished(front, sub, e);
      var u :| u in front && u in sub && sub[u] == NodeInfo(e.ip, e.start);
      assert u in ids;
    } else {
      assert sub[last] == NodeInfo(e.ip, e.start);
    }
  }

  /** And it lists them by the start layers that they have published. */
  lemma ViewSorted(ids: seq<Uuid>, sub: map<Uuid, NodeInfo>) returns (starts: seq<int>)
    ensures var s := Topology.ServerList(Build(ids, sub));
      && |starts| == |s| && (forall i, j | 0 <= i < j < |s| :: starts[i] <= starts[j])
      && (forall i | 0 <= i < |s| :: Published(ids, sub, s[i], starts[i]))
  {
    var d := Build(ids, sub);
    var sorted := Topology.Sort(d);
    Topology.SortIsStable(d, 0);
    starts := seq(|sorted|, i requires 0 <= i < |sorted| => sorted[i].start);
    forall i | 0 <= i < |sorted| ensures Published(ids, sub, sorted[i].ip, sorted[i].start) {
      Topology.SameContent(d, sorted[i]);
      BuildPublished(ids, sub, sorted[i]);
    }
  }
}
