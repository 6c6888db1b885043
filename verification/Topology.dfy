/** The pipeline topology kept at the head: a pool of nodes and, beside it, a dictionary from
    addresses to start layers whose entries, like Python's, stay in insertion order. */
module Topology {
  import opened Wrappers

  type Ip = string

  datatype Node = Node(ip: Ip, startLayer: int, endLayer: int)

  datatype Entry = Entry(ip: Ip, start: int)

  // ------------------------------------------------------- ordered dictionaries

  ghost predicate Distinct(d: seq<Entry>) {
    forall i, j | 0 <= i < j < |d| :: d[i].ip != d[j].ip
  }

  predicate Has(d: seq<Entry>, ip: Ip) { exists i | 0 <= i < |d| :: d[i].ip == ip }

  /** Assignment to a key: in place if the key is there, else at the end. */
  function Put(d: seq<Entry>, ip: Ip, start: int): seq<Entry> {
    if d == [] then [Entry(ip, start)]
    else if d[0].ip == ip then [Entry(ip, start)] + d[1..]
    else [d[0]] + Put(d[1..], ip, start)
  }

  function Drop(d: seq<Entry>, ip: Ip): seq<Entry> {
    if d == [] then []
    else if d[0].ip == ip then d[1..]
    else [d[0]] + Drop(d[1..], ip)
  }

  lemma {:induction false} PutAt(d: seq<Entry>, ip: Ip, start: int)
    ensures var r := Put(d, ip, start);
      && (!Has(d, ip) ==> r == d + [Entry(ip, start)])
      && (forall i | 0 <= i < |d| && d[i].ip == ip && (forall j | 0 <= j < i :: d[j].ip != ip) ::
            r == d[i := Entry(ip, start)])
  {
    if d != [] && d[0].ip != ip {
      PutAt(d[1..], ip, start);
      var r := Put(d[1..], ip, start);
      if !Has(d, ip) {
        assert !Has(d[1..], ip) by { assert forall i | 0 <= i < |d[1..]| :: d[1..][i] == d[i + 1]; }
      }
      forall i | 0 <= i < |d| && d[i].ip == ip && (forall j | 0 <= j < i :: d[j].ip != ip)
        ensures Put(d, ip, start) == d[i := Entry(ip, start)]
      {
        assert d[1..][i - 1].ip == ip && forall j | 0 <= j < i - 1 :: d[1..][j] == d[j + 1];
        assert r == d[1..][i - 1 := Entry(ip, start)];
      }
    }
  }

  lemma {:induction false} PutKeepsDistinct(d: seq<Entry>, ip: Ip, start: int)
    requires Distinct(d)
    ensures Distinct(Put(d, ip, start)) && (forall a :: Has(Put(d, ip, start), a) <==> Has(d, a) || a == ip)
  {
    PutAt(d, ip, start);
    var r := Put(d, ip, start);
    if Has(d, ip) {
      var i :| 0 <= i < |d| && d[i].ip == ip;
      assert r == d[i := Entry(ip, start)];
      assert forall j | 0 <= j < |d| :: r[j].ip == d[j].ip;
      forall a ensures Has(r, a) <==> Has(d, a) || a == ip {
        if Has(d, a) { var j :| 0 <= j < |d| && d[j].ip == a; assert r[j].ip == a; }
        if Has(r, a) { var j :| 0 <= j < |r| && r[j].ip == a; assert d[j].ip == a; }
      }
    } else {
      forall a ensures Has(r, a) <==> Has(d, a) || a == ip {
        if Has(d, a) { var j :| 0 <= j < |d| && d[j].ip == a; assert r[j].ip == a; }
        assert r[|d|].ip == ip;
        if Has(r, a) && a != ip { var j :| 0 <= j < |r| && r[j].ip == a; assert j < |d| && d[j].ip == a; }
      }
    }
  }

  lemma {:induction false} DropKeepsDistinct(d: seq<Entry>, ip: Ip)
    requires Distinct(d)
    ensures Distinct(Drop(d, ip)) && (forall e :: e in Drop(d, ip) <==> e in d && e.ip != ip)
  {
    if d != [] {
      TailDistinct(d);
      DropKeepsDistinct(d[1..], ip);
      assert forall e :: e in d <==> e == d[0] || e in d[1..];
      if d[0].ip != ip {
        ConsDistinct(d[0], Drop(d[1..], ip));
      }
    }
  }

  /** Behind the first entry no address is its own, and they are distinct. */
  lemma TailDistinct(d: seq<Entry>)
    requires Distinct(d) && d != []
    ensures Distinct(d[1..]) && forall e | e in d[1..] :: e.ip != d[0].ip
  {
    assert forall i | 0 <= i < |d[1..]| :: d[1..][i] == d[i + 1];
    forall e | e in d[1..] ensures e.ip != d[0].ip {
      var i :| 0 <= i < |d[1..]| && d[1..][i] == e;
    }
  }

  lemma ConsDistinct(e: Entry, s: seq<Entry>)
    requires Distinct(s) && forall x | x in s :: x.ip != e.ip
    ensures Distinct([e] + s)
  {
    var r := [e] + s;
    forall i, j | 0 <= i < j < |r| ensures r[i].ip != r[j].ip {
      assert r[j] == s[j - 1] && s[j - 1] in s;
    }
  }

  // ------------------------------------------------------------- sorted order

  /** Python's stable sort by start layer. */
  function Sort(d: seq<Entry>): seq<Entry> {
    if d == [] then [] else Insert(d[0], Sort(d[1..]))
  }

  function Insert(e: Entry, s: seq<Entry>): seq<Entry> {
    if s == [] || e.start <= s[0].start then [e] + s else [s[0]] + Insert(e, s[1..])
  }

  ghost predicate Sorted(s: seq<Entry>) {
    forall i, j | 0 <= i < j < |s| :: s[i].start <= s[j].start
  }

  function AtStart(s: seq<Entry>, start: int): seq<Entry> {
    if s == [] then [] else (if s[0].start == start then [s[0]] else []) + AtStart(s[1..], start)
  }

  lemma {:induction false} InsertContent(e: Entry, s: seq<Entry>)
    ensures multiset(Insert(e, s)) == multiset{e} + multiset(s)
  {
    if s != [] && e.start > s[0].start {
      InsertContent(e, s[1..]);
      assert s == [s[0]] + s[1..];
    }
  }

  lemma {:induction false} InsertSorted(e: Entry, s: seq<Entry>)
    requires Sorted(s)
    ensures Sorted(Insert(e, s))
  {
    if s != [] && e.start > s[0].start {
      InsertSorted(e, s[1..]);
      InsertContent(e, s[1..]);
      var rest := Insert(e, s[1..]);
      forall i | 0 <= i < |rest| ensures s[0].start <= rest[i].start {
        assert rest[i] in multiset(rest);
        assert rest[i] == e || rest[i] in s[1..];
      }
    }
  }

  lemma {:induction false} InsertStable(e: Entry, s: seq<Entry>, start: int)
    requires Sorted(s)
    ensures AtStart(Insert(e, s), start) == (if e.start == start then [e] else []) + AtStart(s, start)
  {
    if s != [] && e.start > s[0].start {
      InsertStable(e, s[1..], start);
      if s[0].start == start {
        assert e.start != start;
      }
    } else {
      assert Insert(e, s)[1..] == s;
    }
  }

  /** The sorted list has the same entries, in order of their start layers, and entries with
      the same start layer in their insertion order. */
  lemma {:induction false} SortIsStable(d: seq<Entry>, start: int)
    ensures Sorted(Sort(d)) && multiset(Sort(d)) == multiset(d) && AtStart(Sort(d), start) == AtStart(d, start)
  {
    if d != [] {
      SortIsStable(d[1..], start);
      InsertContent(d[0], Sort(d[1..]));
      InsertSorted(d[0], Sort(d[1..]));
      InsertStable(d[0], Sort(d[1..]), start);
      assert d == [d[0]] + d[1..];
    }
  }

  lemma SameContent(d: seq<Entry>, e: Entry)
    ensures e in Sort(d) <==> e in d
  {
    SortIsStable(d, 0);
    assert e in Sort(d) <==> e in multiset(Sort(d));
  }

  function Ips(s: seq<Entry>): (r: seq<Ip>)
    ensures |r| == |s| && forall i | 0 <= i < |s| :: r[i] == s[i].ip
  {
    if s == [] then [] else [s[0].ip] + Ips(s[1..])
  }

  function ServerList(d: seq<Entry>): seq<Ip> { Ips(Sort(d)) }

  lemma {:induction false} SortKeepsDistinct(d: seq<Entry>)
    requires Distinct(d)
    ensures Distinct(Sort(d)) && |Sort(d)| == |d|
  {
    if d != [] {
      TailDistinct(d);
      SortKeepsDistinct(d[1..]);
      forall e | e in Sort(d[1..]) ensures e.ip != d[0].ip {
        SameContent(d[1..], e);
      }
      InsertDistinct(d[0], Sort(d[1..]));
    }
  }

  lemma {:induction false} InsertDistinct(e: Entry, s: seq<Entry>)
    requires Distinct(s) && forall x | x in s :: x.ip != e.ip
    ensures Distinct(Insert(e, s)) && |Insert(e, s)| == |s| + 1
  {
    if s != [] && e.start > s[0].start {
      TailDistinct(s);
      InsertDistinct(e, s[1..]);
      var rest := Insert(e, s[1..]);
      InsertContent(e, s[1..]);
      forall x | x in rest ensures x.ip != s[0].ip {
        assert x in multiset(rest);
        assert s[0] in s && (x == e || x in s[1..]);
      }
      hide Insert;
      ConsDistinct(s[0], rest);
    } else {
      ConsDistinct(e, s);
    }
  }

  /** The first of the sorted entries has the least start layer. */
  lemma LeastFirst(d: seq<Entry>, x: int)
    requires d != []
    ensures |Sort(d)| == |d|
    ensures x <= Sort(d)[0].start <==> forall i | 0 <= i < |d| :: x <= d[i].start
  {
    SortIsStable(d, 0);
    SortKeepsDistinctLength(d);
    SameContent(d, Sort(d)[0]);
    hide Sort;
    if x <= Sort(d)[0].start {
      forall i | 0 <= i < |d| ensures x <= d[i].start {
        SameContent(d, d[i]);
      }
    }
  }

  /** The head of the dictionary leads the pipeline exactly when no node starts below it. */
  lemma HeadLeads(d: seq<Entry>)
    requires d != [] && Distinct(d)
    ensures ServerList(d)[0] == d[0].ip <==> forall i | 0 <= i < |d| :: d[0].start <= d[i].start
  {
    SortKeepsDistinct(d);
    LeastFirst(d, d[0].start);
    LeastFirst(d, Sort(d)[0].start);
    SameContent(d, Sort(d)[0]);
    var k :| 0 <= k < |d| && d[k] == Sort(d)[0];
    if d[0].start <= Sort(d)[0].start && |d| > 1 {
      SortIsStable(d[1..], 0);
      LeastFirst(d[1..], d[0].start);
      assert forall i | 0 <= i < |d[1..]| :: d[1..][i] == d[i + 1];
    }
  }

  lemma SortKeepsDistinctLength(d: seq<Entry>)
    ensures |Sort(d)| == |d|
  {
    SortIsStable(d, 0);
    assert |multiset(Sort(d))| == |multiset(d)|;
  }

  lemma {:induction false} InsertDrop(e: Entry, s: seq<Entry>, ip: Ip)
    requires Sorted(s) && e.ip != ip
    ensures Drop(Insert(e, s), ip) == Insert(e, Drop(s, ip))
  {
    if s != [] && e.start > s[0].start {
      InsertDrop(e, s[1..], ip);
      var r := Insert(e, s);
      assert r[0] == s[0] && r[1..] == Insert(e, s[1..]);
    } else {
      var r := Insert(e, s);
      assert r[0] == e && r[1..] == s;
      assert Drop(r, ip) == [e] + Drop(s, ip);
      DropLater(s, ip);
    }
  }

  lemma DropLater(s: seq<Entry>, ip: Ip)
    requires Sorted(s)
    ensures Drop(s, ip) != [] ==> s[0].start <= Drop(s, ip)[0].start
  {}

  lemma {:induction false} InsertDropSame(e: Entry, s: seq<Entry>)
    requires forall x | x in s :: x.ip != e.ip
    ensures Drop(Insert(e, s), e.ip) == s
  {
    if s != [] && e.start > s[0].start {
      InsertDropSame(e, s[1..]);
      var r := Insert(e, s);
      assert s[0] in s && r[0] == s[0] && r[1..] == Insert(e, s[1..]);
    } else {
      assert Insert(e, s)[1..] == s;
    }
  }

  /** Removing a node takes it out of the sorted list and leaves the others where they are. */
  lemma {:induction false} SortDrop(d: seq<Entry>, ip: Ip)
    requires Distinct(d)
    ensures Sort(Drop(d, ip)) == Drop(Sort(d), ip)
  {
    if d != [] {
      TailDistinct(d);
      var rest := Sort(d[1..]);
      if d[0].ip == ip {
        forall x | x in rest ensures x.ip != ip {
          SameContent(d[1..], x);
        }
        InsertDropSame(d[0], rest);
      } else {
        SortDrop(d[1..], ip);
        SortIsStable(d[1..], 0);
        InsertDrop(d[0], rest, ip);
        assert ([d[0]] + Drop(d[1..], ip))[1..] == Drop(d[1..], ip);
      }
    }
  }

  lemma {:induction false} DropAt(s: seq<Entry>, k: nat)
    requires Distinct(s) && k < |s|
    ensures Drop(s, s[k].ip) == s[..k] + s[k + 1..]
  {
    if k > 0 {
      TailDistinct(s);
      assert s[1..][k - 1] == s[k] && s[k] in s[1..];
      DropAt(s[1..], k - 1);
      assert Drop(s, s[k].ip) == [s[0]] + Drop(s[1..], s[k].ip);
      hide Distinct, Drop;
      WithoutLater(s, k);
    }
  }

  lemma WithoutLater<T>(s: seq<T>, k: nat)
    requires 0 < k < |s|
    ensures [s[0]] + (s[1..][..k - 1] + s[1..][k..]) == s[..k] + s[k + 1..]
  {}

  /** The server list after the k-th server has left. */
  lemma ServerLeaves(d: seq<Entry>, k: nat)
    requires Distinct(d) && k < |d|
    ensures var s := ServerList(d);
      |s| == |d| && DistinctIps(s) && ServerList(ApplyOp(d, Delete(s[k]))) == s[..k] + s[k + 1..]
  {
    hide Sort, Drop, Ips;
    SortKeepsDistinct(d);
    SortDrop(d, Sort(d)[k].ip);
    DropAt(Sort(d), k);
    IpsWithout(Sort(d), k);
    hide Distinct;
  }

  lemma IpsWithout(s: seq<Entry>, k: nat)
    requires Distinct(s) && k < |s|
    ensures DistinctIps(Ips(s)) && Ips(s[..k] + s[k + 1..]) == Ips(s)[..k] + Ips(s)[k + 1..]
  {
    hide *;
    IpsDistinct(s);
    IpsAppend(s[..k], s[k + 1..]);
    IpsSlice(s, 0, k);
    IpsSlice(s, k + 1, |s|);
    assert s[0..k] == s[..k] && s[k + 1..|s|] == s[k + 1..];
    assert Ips(s)[0..k] == Ips(s)[..k] && Ips(s)[k + 1..|s|] == Ips(s)[k + 1..];
  }

  lemma IpsDistinct(s: seq<Entry>)
    requires Distinct(s)
    ensures DistinctIps(Ips(s))
  {
    hide Ips;
    var r := Ips(s);
    forall i, j | 0 <= i < j < |r| ensures r[i] != r[j] {
      assert s[i].ip != s[j].ip;
    }
  }

  lemma IpsAppend(s: seq<Entry>, t: seq<Entry>)
    ensures Ips(s + t) == Ips(s) + Ips(t)
  {
    hide *;
    assert forall i | 0 <= i < |s + t| :: Ips(s + t)[i] == (s + t)[i].ip == (Ips(s) + Ips(t))[i];
  }

  lemma IpsSlice(s: seq<Entry>, i: nat, j: nat)
    requires i <= j <= |s|
    ensures Ips(s[i..j]) == Ips(s)[i..j]
  {
    hide *;
    assert forall k | 0 <= k < j - i :: Ips(s[i..j])[k] == s[i..j][k].ip == Ips(s)[i..j][k];
  }

  // ------------------------------------------------------------------ queries

  function IndexOf(s: seq<Ip>, ip: Ip): (i: nat)
    ensures i <= |s| && (i < |s| ==> s[i] == ip) && (forall j | 0 <= j < i :: s[j] != ip)
  {
    if s == [] || s[0] == ip then 0 else 1 + IndexOf(s[1..], ip)
  }

  function NextServer(s: seq<Ip>, current: Ip): Option<Ip> {
    var i := IndexOf(s, current);
    if i + 1 < |s| then Some(s[i + 1]) else None
  }

  /** An address that is not in the list gets rank 0. */
  function PpRank(s: seq<Ip>, ip: Ip): nat {
    var i := IndexOf(s, ip);
    if i < |s| then i else 0
  }

  predicate IsLastServer(s: seq<Ip>, ip: Ip) { s != [] && s[|s| - 1] == ip }

  /** The addresses met by asking for the next server again and again. */
  function Walk(s: seq<Ip>, ip: Ip): seq<Ip>
    decreases |s| - IndexOf(s, ip)
  {
    match NextServer(s, ip)
    case None => [ip]
    case Some(next) => if IndexOf(s, next) > IndexOf(s, ip) then [ip] + Walk(s, next) else [ip]
  }

  ghost predicate DistinctIps(s: seq<Ip>) {
    forall i, j | 0 <= i < j < |s| :: s[i] != s[j]
  }

  lemma {:induction false} WalkFrom(s: seq<Ip>, k: nat)
    requires DistinctIps(s) && k < |s|
    ensures Walk(s, s[k]) == s[k..] && PpRank(s, s[k]) == k
    decreases |s| - k
  {
    assert IndexOf(s, s[k]) == k;
    if k + 1 < |s| {
      assert IndexOf(s, s[k + 1]) == k + 1;
      WalkFrom(s, k + 1);
    }
  }

  /** From the first server, the chain of next servers visits every node exactly once, in the
      order of their ranks, and ends at the last server. */
  lemma ChainVisitsAll(d: seq<Entry>)
    requires d != [] && Distinct(d)
    ensures var s := ServerList(d);
      && s != [] && Walk(s, s[0]) == s && DistinctIps(s)
      && (forall ip :: ip in s <==> Has(d, ip))
      && (forall k | 0 <= k < |s| :: PpRank(s, s[k]) == k && (IsLastServer(s, s[k]) <==> NextServer(s, s[k]) == None))
  {
    var s := ServerList(d);
    SortKeepsDistinct(d);
    WalkFrom(s, 0);
    assert s[0..] == s;
    forall k | 0 <= k < |s| ensures PpRank(s, s[k]) == k && (IsLastServer(s, s[k]) <==> NextServer(s, s[k]) == None) {
      WalkFrom(s, k);
    }
    forall ip ensures ip in s <==> Has(d, ip) {
      ServerListHas(d, ip);
    }
  }

  lemma ServerListHas(d: seq<Entry>, ip: Ip)
    ensures ip in ServerList(d) <==> Has(d, ip)
  {
    var s := ServerList(d);
    if ip in s {
      var i :| 0 <= i < |s| && s[i] == ip;
      SameContent(d, Sort(d)[i]);
      var j :| 0 <= j < |d| && d[j] == Sort(d)[i];
      assert d[j].ip == ip;
    }
    if Has(d, ip) {
      var j :| 0 <= j < |d| && d[j].ip == ip;
      SameContent(d, d[j]);
      var i :| 0 <= i < |Sort(d)| && Sort(d)[i] == d[j];
      assert s[i] == ip;
    }
  }

  /** The rank of an address tells the first server apart from all other servers, but not from
      an address that is not in the pipeline. */
  lemma RankZero(s: seq<Ip>, ip: Ip)
    requires s != [] && DistinctIps(s)
    ensures PpRank(s, ip) == 0 <==> ip == s[0] || ip !in s
  {}

  // ------------------------------------------------------------------ updates

  function Starts(pool: seq<Node>): (r: seq<Entry>)
    ensures |r| == |pool| && forall i | 0 <= i < |pool| :: r[i] == Entry(pool[i].ip, pool[i].startLayer)
  {
    if pool == [] then [] else [Entry(pool[0].ip, pool[0].startLayer)] + Starts(pool[1..])
  }

  function Remove(pool: seq<Node>, ip: Ip): seq<Node> {
    if pool == [] then [] else (if pool[0].ip != ip then [pool[0]] else []) + Remove(pool[1..], ip)
  }

  lemma {:induction false} RemoveAbsent(pool: seq<Node>, ip: Ip)
    requires forall i | 0 <= i < |pool| :: pool[i].ip != ip
    ensures Remove(pool, ip) == pool
  {
    if pool != [] {
      RemoveAbsent(pool[1..], ip);
    }
  }

  lemma {:induction false} RemoveMatchesDrop(pool: seq<Node>, ip: Ip)
    requires Distinct(Starts(pool))
    ensures Starts(Remove(pool, ip)) == Drop(Starts(pool), ip)
  {
    if pool != [] {
      assert Starts(pool)[1..] == Starts(pool[1..]);
      assert Distinct(Starts(pool[1..])) by {
        assert forall i | 0 <= i < |pool[1..]| :: Starts(pool[1..])[i] == Starts(pool)[i + 1];
      }
      if pool[0].ip == ip {
        forall i | 0 <= i < |pool[1..]| ensures pool[1..][i].ip != ip {
          assert Starts(pool)[0].ip != Starts(pool)[i + 1].ip;
        }
        RemoveAbsent(pool[1..], ip);
      } else {
        RemoveMatchesDrop(pool[1..], ip);
        assert ([pool[0]] + Remove(pool[1..], ip))[1..] == Remove(pool[1..], ip);
      }
    }
  }

  lemma Replaced(pool: seq<Node>, i: nat, node: Node)
    requires i < |pool| && pool[i].ip == node.ip
    ensures var r := pool[i := node];
      && node in r && Starts(r) == Starts(pool)[i := Entry(node.ip, node.startLayer)]
      && forall n | n in pool && n.ip != node.ip :: n in r
  {
    var r := pool[i := node];
    assert r[i] == node;
    forall n | n in pool && n.ip != node.ip ensures n in r {
      var j :| 0 <= j < |pool| && pool[j] == n;
      assert r[j] == n;
    }
  }

  class PipelineTopology {
    const headIp: Ip
    var nodePool: seq<Node>
    var nodeInfo: seq<Entry>

    /** The pool and the dictionary list the same addresses once each, in the same order and
        with the same start layers. */
    ghost predicate Valid()
      reads this
    {
      nodeInfo == Starts(nodePool) && Distinct(nodeInfo)
    }

    constructor (headIp: Ip, startLayer: int, endLayer: int)
      ensures Valid() && this.headIp == headIp
      ensures nodePool == [Node(headIp, startLayer, endLayer)] && nodeInfo == [Entry(headIp, startLayer)]
    {
      this.headIp := headIp;
      nodePool, nodeInfo := [], [];
      new;
      AddNode(headIp, startLayer, endLayer);
    }

    method AddNode(ip: Ip, startLayer: int, endLayer: int)
      requires Valid()
      modifies this
      ensures Valid()
      ensures nodeInfo == Put(old(nodeInfo), ip, startLayer)
      ensures Node(ip, startLayer, endLayer) in nodePool
      ensures forall n | n in old(nodePool) && n.ip != ip :: n in nodePool
    {
      PutAt(nodeInfo, ip, startLayer);
      PutKeepsDistinct(nodeInfo, ip, startLayer);
      hide Put;
      if Has(nodeInfo, ip) {
        var i := Find(ip);
        Replaced(nodePool, i, Node(ip, startLayer, endLayer));
        nodePool := nodePool[i := Node(ip, startLayer, endLayer)];
        nodeInfo := Put(nodeInfo, ip, startLayer);
        return;
      }
      nodePool := nodePool + [Node(ip, startLayer, endLayer)];
      nodeInfo := Put(nodeInfo, ip, startLayer);
      assert nodeInfo == Starts(nodePool);
    }

    /** The first node of the pool with this address. */
    method Find(ip: Ip) returns (i: nat)
      requires Valid() && Has(nodeInfo, ip)
      ensures i < |nodePool| && nodePool[i].ip == ip && forall j | 0 <= j < i :: nodePool[j].ip != ip
    {
      i := 0;
      while nodePool[i].ip != ip
        invariant i < |nodePool| && forall j | 0 <= j < i :: nodePool[j].ip != ip
        decreases |nodePool| - i
      {
        assert exists k | 0 <= k < |nodePool| :: nodeInfo[k].ip == ip;
        i := i + 1;
      }
    }

    method RemoveNode(ip: Ip)
      requires Valid()
      modifies this
      ensures Valid()
      ensures nodePool == Remove(old(nodePool), ip) && nodeInfo == Drop(old(nodeInfo), ip)
    {
      RemoveMatchesDrop(nodePool, ip);
      DropKeepsDistinct(nodeInfo, ip);
      nodePool := Remove(nodePool, ip);
      nodeInfo := Drop(nodeInfo, ip);
    }
  }

  // --------------------------------------------------------------------- runs

  datatype Op = Add(ip: Ip, start: int) | Delete(ip: Ip)

  function ApplyOp(d: seq<Entry>, op: Op): seq<Entry> {
    match op
    case Add(ip, start) => Put(d, ip, start)
    case Delete(ip) => Drop(d, ip)
  }

  function ApplyOps(d: seq<Entry>, ops: seq<Op>): seq<Entry>
    decreases |ops|
  {
    if ops == [] then d else ApplyOps(ApplyOp(d, ops[0]), ops[1..])
  }

  /** However nodes join, rejoin and leave, as long as the head is not removed it stays the
      first entry; it then leads the pipeline exactly while no node starts below it. */
  lemma {:induction false} HeadStays(d: seq<Entry>, head: Ip, ops: seq<Op>)
    requires d != [] && d[0].ip == head && Distinct(d)
    requires forall i | 0 <= i < |ops| :: ops[i] != Delete(head)
    ensures var r := ApplyOps(d, ops);
      && r != [] && r[0].ip == head && Distinct(r)
      && (ServerList(r)[0] == head <==> forall i | 0 <= i < |r| :: r[0].start <= r[i].start)
    decreases |ops|
  {
    if ops == [] {
      HeadLeads(d);
    } else {
      match ops[0] {
        case Add(ip, start) => PutKeepsDistinct(d, ip, start);
        case Delete(ip) => DropKeepsDistinct(d, ip);
      }
      assert ops[0] != Delete(head);
      HeadStays(ApplyOp(d, ops[0]), head, ops[1..]);
    }
  }
}
