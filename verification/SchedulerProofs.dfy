/** What one scheduling step keeps, for every environment, configuration and queue content. */
module SchedulerProofs {
  import opened SchedulerSpec

  // ------------------------------------------------------ sequences of verdicts

  lemma Assoc<T>(a: seq<T>, b: seq<T>, c: seq<T>)
    ensures a + (b + c) == (a + b) + c
  {}

  lemma {:induction false} GroupsAppend(a: seq<Verdict>, b: seq<Verdict>)
    ensures Groups(a + b) == Groups(a) + Groups(b)
  {
    if a == [] {
      assert a + b == b;
    } else {
      GroupsAppend(a[1..], b);
      assert (a + b)[1..] == a[1..] + b;
      Assoc([a[0].group], Groups(a[1..]), Groups(b));
    }
  }

  lemma {:induction false} PickedAppend(a: seq<Verdict>, b: seq<Verdict>, k: Kind)
    ensures Picked(a + b, k) == Picked(a, k) + Picked(b, k)
  {
    if a == [] {
      assert a + b == b;
    } else {
      PickedAppend(a[1..], b, k);
      assert (a + b)[1..] == a[1..] + b;
      Assoc(if a[0].kind == k then [a[0].group] else [], Picked(a[1..], k), Picked(b, k));
    }
  }

  lemma {:induction false} BatchAppend(a: seq<Verdict>, b: seq<Verdict>, k: Kind)
    ensures Batch(a + b, k) == Batch(a, k) + Batch(b, k)
  {
    if a == [] {
      assert a + b == b;
    } else {
      BatchAppend(a[1..], b, k);
      assert (a + b)[1..] == a[1..] + b;
      Assoc(if a[0].kind == k then [Scheduled(a[0].group, a[0].chunk)] else [], Batch(a[1..], k), Batch(b, k));
    }
  }

  lemma {:induction false} ReverseAppend<T>(a: seq<T>, b: seq<T>)
    ensures Reverse(a + b) == Reverse(b) + Reverse(a)
  {
    if a == [] {
      assert a + b == b;
    } else {
      ReverseAppend(a[1..], b);
      assert (a + b)[1..] == a[1..] + b;
    }
  }

  lemma {:induction false} ReverseMultiset<T>(s: seq<T>)
    ensures multiset(Reverse(s)) == multiset(s) && |Reverse(s)| == |s|
  {
    if s != [] {
      ReverseMultiset(s[1..]);
      assert s == [s[0]] + s[1..];
    }
  }

  lemma {:induction false} GroupsOfBatch(tr: seq<Verdict>, k: Kind)
    ensures GroupsOf(Batch(tr, k)) == Picked(tr, k)
  {
    if tr != [] {
      GroupsOfBatch(tr[1..], k);
      if tr[0].kind == k {
        assert Batch(tr, k)[1..] == Batch(tr[1..], k);
      } else {
        assert Batch(tr, k) == Batch(tr[1..], k);
      }
    }
  }

  lemma {:induction false} GroupsOfAppend(a: seq<Scheduled>, b: seq<Scheduled>)
    ensures GroupsOf(a + b) == GroupsOf(a) + GroupsOf(b)
  {
    if a == [] {
      assert a + b == b;
    } else {
      GroupsOfAppend(a[1..], b);
      assert (a + b)[1..] == a[1..] + b;
      Assoc([a[0].group], GroupsOf(a[1..]), GroupsOf(b));
    }
  }

  /** How often a group occurs in a queue. Multisets are compared group by group. */
  ghost function Count(s: seq<Group>, x: Group): nat { multiset(s)[x] }

  ghost predicate Without(tr: seq<Verdict>, k: Kind) {
    forall i | 0 <= i < |tr| :: tr[i].kind != k
  }

  lemma {:induction false} PickedNone(tr: seq<Verdict>, k: Kind)
    requires Without(tr, k)
    ensures Picked(tr, k) == []
  {
    if tr != [] {
      PickedNone(tr[1..], k);
    }
  }

  /** `a` is `b` with some elements left out. */
  ghost predicate Subsequence<T>(a: seq<T>, b: seq<T>) {
    if a == [] then true
    else if b == [] then false
    else (a[0] == b[0] && Subsequence(a[1..], b[1..])) || Subsequence(a, b[1..])
  }

  lemma {:induction false} SubsequenceAppend<T>(a: seq<T>, b: seq<T>, c: seq<T>)
    requires Subsequence(a, b)
    ensures Subsequence(a + c, b + c)
  {
    if b == [] {
      assert a + c == c && b + c == c;
      SubsequenceRefl(c);
    } else {
      assert (b + c)[1..] == b[1..] + c;
      if a == [] {
        SubsequenceAppend([], b[1..], c);
      } else if a[0] == b[0] && Subsequence(a[1..], b[1..]) {
        SubsequenceAppend(a[1..], b[1..], c);
        assert (a + c)[1..] == a[1..] + c;
      } else {
        SubsequenceAppend(a, b[1..], c);
      }
    }
  }

  lemma {:induction false} SubsequenceRefl<T>(a: seq<T>)
    ensures Subsequence(a, a)
  {
    if a != [] {
      SubsequenceRefl(a[1..]);
    }
  }

  lemma {:induction false} SubsequencePrefix<T>(a: seq<T>, b: seq<T>, c: seq<T>)
    requires Subsequence(a, b)
    ensures Subsequence(a, b + c)
  {
    if b == [] {
      assert a == [];
    } else {
      assert (b + c)[1..] == b[1..] + c;
      if a != [] {
        if a[0] == b[0] && Subsequence(a[1..], b[1..]) {
          SubsequencePrefix(a[1..], b[1..], c);
        } else {
          SubsequencePrefix(a, b[1..], c);
        }
      }
    }
  }

  /** The groups of one kind keep their arrival order. */
  lemma {:induction false} PickedKeepsOrder(tr: seq<Verdict>, k: Kind)
    ensures Subsequence(Picked(tr, k), Groups(tr))
  {
    if tr != [] {
      PickedKeepsOrder(tr[1..], k);
      assert Groups(tr)[1..] == Groups(tr[1..]);
      if tr[0].kind == k {
        assert Picked(tr, k)[1..] == Picked(tr[1..], k);
      } else {
        assert Picked(tr, k) == Picked(tr[1..], k);
      }
    }
  }

  // ----------------------------------------------------------- running: shape

  ghost predicate RunKinds(tr: seq<Verdict>) {
    forall i | 0 <= i < |tr| :: var k := tr[i].kind; k.Reserved? || k.Stopped? || k.Decode? || k.Prefill?
  }

  ghost predicate EvictKinds(tr: seq<Verdict>) {
    forall i | 0 <= i < |tr| :: var k := tr[i].kind; k.Preempted? || k.SwappedOut? || k.Finished?
  }

  ghost predicate QueueKinds(tr: seq<Verdict>) {
    forall i | 0 <= i < |tr| ::
      var k := tr[i].kind; k.Reserved? || k.Leftover? || k.Rejected? || k.Decode? || k.Prefill?
  }

  lemma GroupsCons(v: Verdict, tr: seq<Verdict>)
    ensures Groups([v] + tr) == [v.group] + Groups(tr)
  {
    assert ([v] + tr)[1..] == tr;
  }

  lemma {:induction false} MakeRoomShape(env: Env, cfg: Config, g: Group, n: nat, tail: seq<Group>, b: Books)
    ensures var r := MakeRoom(env, cfg, g, n, tail, b);
      && EvictKinds(r.victims)
      && (r.fits ==> tail == r.tail + Reverse(Groups(r.victims)))
      && (!r.fits ==> r.tail == [] && Reverse(Groups(r.victims)) == [g] + tail)
    decreases |tail|
  {
    if !env.canAppend(b.clock, g) && tail != [] {
      var v := tail[|tail| - 1];
      var shorter := tail[..|tail| - 1];
      MakeRoomShape(env, cfg, g, n, shorter, b.Release(g, n).Tick());
      var rec := MakeRoom(env, cfg, g, n, shorter, b.Release(g, n).Tick());
      var first := Verdict(v, EvictKind(env, cfg, b.clock, v), 0);
      assert MakeRoom(env, cfg, g, n, tail, b) == rec.After([first]);
      assert EvictKinds([first]);
      assert tail == shorter + [v];
      hide MakeRoom, EvictKinds, EvictKind;
      KindsAppend([first], rec.victims);
      VictimsCons(first, rec.victims);
      Assoc(rec.tail, Reverse(Groups(rec.victims)), [v]);
      Assoc([g], shorter, [v]);
    }
  }

  lemma VictimsCons(v: Verdict, victims: seq<Verdict>)
    ensures Reverse(Groups([v] + victims)) == Reverse(Groups(victims)) + [v.group]
  {
    GroupsCons(v, victims);
    ReverseAppend([v.group], Groups(victims));
    assert [v.group][1..] == [];
  }

  lemma NoVictims(tail: seq<Group>)
    ensures EvictKinds([]) && tail == tail + Reverse(Groups([]))
  {}

  lemma JudgeRunningShape(env: Env, cfg: Config, g: Group, tail: seq<Group>, b: Books)
    ensures var j := JudgeRunning(env, cfg, g, tail, b);
      && (j.Take? ==> j.verdict.group == g && RunKinds([j.verdict]) && EvictKinds(j.victims)
                      && tail == j.tail + Reverse(Groups(j.victims)))
      && (j.GiveUp? ==> EvictKinds(j.victims) && Reverse(Groups(j.victims)) == [g] + tail)
  {
    hide MakeRoom, EvictKinds, Groups;
    var n := env.newTokens(b.clock, g, b.budget.Remaining()).uncached;
    MakeRoomShape(env, cfg, g, n, tail, b.Tick());
    NoVictims(tail);
  }

  /** The running queue is the scanned groups, the untouched ones, and the evicted ones read
      backwards: eviction takes the tail of the queue, and reaches the group being scheduled
      only after every group behind it. */
  ghost predicate Shape(q: seq<Group>, r: RunResult) {
    q == Groups(r.scanned) + r.rest + Reverse(Groups(r.victims))
    && RunKinds(r.scanned) && EvictKinds(r.victims)
  }

  lemma Regroup<T>(g: seq<T>, a: seq<T>, b: seq<T>, c: seq<T>, d: seq<T>)
    ensures g + ((a + b + c) + d) == (g + a) + b + (c + d)
  {}

  lemma KindsAppend(a: seq<Verdict>, b: seq<Verdict>)
    ensures RunKinds(a) && RunKinds(b) ==> RunKinds(a + b)
    ensures EvictKinds(a) && EvictKinds(b) ==> EvictKinds(a + b)
  {}

  lemma ShapeCons(v: Verdict, victims: seq<Verdict>, tail: seq<Group>, r: RunResult)
    requires RunKinds([v]) && EvictKinds(victims) && Shape(tail, r)
    ensures Shape([v.group] + (tail + Reverse(Groups(victims))), r.After([v], victims))
  {
    KindsAppend([v], r.scanned);
    KindsAppend(victims, r.victims);
    GroupsCons(v, r.scanned);
    GroupsAppend(victims, r.victims);
    ReverseAppend(Groups(victims), Groups(r.victims));
    Regroup([v.group], Groups(r.scanned), r.rest, Reverse(Groups(r.victims)), Reverse(Groups(victims)));
  }

  lemma {:induction false} RunScanShape(env: Env, cfg: Config, q: seq<Group>, b: Books)
    ensures Shape(q, RunScan(env, cfg, q, b))
    decreases |q|
  {
    if q == [] { return; }
    JudgeRunningShape(env, cfg, q[0], q[1..], b);
    var j := JudgeRunning(env, cfg, q[0], q[1..], b);
    assert q == [q[0]] + q[1..];
    if j.Take? {
      RunScanShape(env, cfg, j.tail, j.books);
      ShapeCons(j.verdict, j.victims, j.tail, RunScan(env, cfg, j.tail, j.books));
    }
  }

  /** What stays in the running queue keeps its old order. */
  lemma RunningKeepsOrder(env: Env, cfg: Config, q: seq<Group>, b: Books)
    ensures Subsequence(RunningAfter(RunScan(env, cfg, q, b)), q)
  {
    var r := RunScan(env, cfg, q, b);
    RunScanShape(env, cfg, q, b);
    PickedKeepsOrder(r.scanned, Reserved);
    SubsequenceAppend(Picked(r.scanned, Reserved), Groups(r.scanned), r.rest);
    SubsequencePrefix(RunningAfter(r), Groups(r.scanned) + r.rest, Reverse(Groups(r.victims)));
  }

  lemma {:induction false} SubsequenceSuffix<T>(a: seq<T>, b: seq<T>, c: seq<T>)
    requires Subsequence(a, b)
    ensures Subsequence(a, c + b)
  {
    if c == [] {
      assert c + b == b;
    } else {
      SubsequenceSuffix(a, b, c[1..]);
      assert (c + b)[1..] == c[1..] + b;
    }
  }

  lemma {:induction false} PickedBackwards(tr: seq<Verdict>, k: Kind)
    ensures Subsequence(Reverse(Picked(tr, k)), Reverse(Groups(tr)))
  {
    if tr != [] {
      PickedBackwards(tr[1..], k);
      var g := [tr[0].group];
      assert Groups(tr)[1..] == Groups(tr[1..]);
      if tr[0].kind == k {
        assert Picked(tr, k)[1..] == Picked(tr[1..], k);
        SubsequenceAppend(Reverse(Picked(tr[1..], k)), Reverse(Groups(tr[1..])), g);
      } else {
        assert Picked(tr, k) == Picked(tr[1..], k);
        SubsequencePrefix(Reverse(Picked(tr[1..], k)), Reverse(Groups(tr[1..])), g);
      }
    }
  }

  /** Preempted groups reach the front of the waiting queue in the order they were running in. */
  lemma PreemptedKeepOrder(env: Env, cfg: Config, q: Queues, onFly: set<Id>, clock: nat)
    ensures var s := RunScans(env, cfg, q, onFly, clock);
      var n := |Picked(s.run.victims, Preempted)|;
      && n <= |NewQueues(env, s).waiting| && Subsequence(NewQueues(env, s).waiting[..n], q.running)
      && NewQueues(env, s).waiting[n..] == QueueAfter(s.wait)
  {
    var s := RunScans(env, cfg, q, onFly, clock);
    RunScanShape(env, cfg, q.running, Books(onFly, FreshBudget(cfg), {}, clock, 0, 0));
    var back := Reverse(Picked(s.run.victims, Preempted));
    ReverseMultiset(Picked(s.run.victims, Preempted));
    PickedBackwards(s.run.victims, Preempted);
    SubsequenceSuffix(back, Reverse(Groups(s.run.victims)), Groups(s.run.scanned) + s.run.rest);
    assert NewWaiting(s)[..|back|] == back;
  }

  lemma {:induction false} GroupsIndex(tr: seq<Verdict>, i: nat)
    requires i < |tr|
    ensures |Groups(tr)| == |tr| && Groups(tr)[i] == tr[i].group
  {
    if |tr| > 1 {
      GroupsIndex(tr[1..], if i == 0 then 0 else i - 1);
    }
  }

  lemma {:induction false} ReverseIndex<T>(s: seq<T>, i: nat)
    requires i < |s|
    ensures |Reverse(s)| == |s| && Reverse(s)[|s| - 1 - i] == s[i]
  {
    if |s| > 1 {
      ReverseIndex(s[1..], if i == 0 then 0 else i - 1);
    }
  }

  ghost predicate DistinctIds(q: seq<Group>) {
    forall i, j | 0 <= i < j < |q| :: q[i].id != q[j].id
  }

  /** A group that the scan has looked at, and in particular one it has put in the batch, is
      never evicted by it. */
  lemma VictimsOutsideBatch(env: Env, cfg: Config, q: seq<Group>, b: Books, i: nat, j: nat)
    requires DistinctIds(q)
    requires i < |RunScan(env, cfg, q, b).scanned| && j < |RunScan(env, cfg, q, b).victims|
    ensures var r := RunScan(env, cfg, q, b); r.scanned[i].group.id != r.victims[j].group.id
  {
    var r := RunScan(env, cfg, q, b);
    RunScanShape(env, cfg, q, b);
    GroupsIndex(r.scanned, i);
    GroupsIndex(r.victims, j);
    ReverseIndex(Groups(r.victims), j);
    var back := Reverse(Groups(r.victims));
    var at := |r.scanned| + |r.rest| + |r.victims| - 1 - j;
    assert q[i] == r.scanned[i].group && q[at] == r.victims[j].group;
  }

  /** The running scan evicts the group it is trying to schedule only when no group is left
      behind it; the scan is then over. */
  lemma {:induction false} SelfEvictionIsLast(env: Env, cfg: Config, g: Group, tail: seq<Group>, b: Books)
    ensures var j := JudgeRunning(env, cfg, g, tail, b);
      j.GiveUp? ==> |j.victims| == |tail| + 1 && j.victims[|tail|].group == g
  {
    var j := JudgeRunning(env, cfg, g, tail, b);
    JudgeRunningShape(env, cfg, g, tail, b);
    if j.GiveUp? {
      assert j.victims != [];
      GroupsIndex(j.victims, |j.victims| - 1);
      ReverseIndex(Groups(j.victims), |j.victims| - 1);
    }
  }

  // ---------------------------------------------------- swapped, waiting: shape

  lemma {:induction false} QueueScanShape(which: Queue, env: Env, cfg: Config, q: seq<Group>, b: Books)
    ensures var r := QueueScan(which, env, cfg, q, b);
      q == Groups(r.scanned) + r.rest && QueueKinds(r.scanned)
      && (which == Waiting ==> Without(r.scanned, Decode))
    decreases |q|
  {
    if q != [] {
      var j := Judge(which, env, cfg, q[0], b);
      JudgeKind(which, env, cfg, q[0], b);
      hide Judge;
      if j.Go? {
        QueueScanShape(which, env, cfg, q[1..], j.books);
        QueueScanCons(which, env, cfg, q, b);
        hide QueueScan;
        ScanCons(Verdict(q[0], j.kind, j.chunk), QueueScan(which, env, cfg, q[1..], j.books));
        assert q == [q[0]] + q[1..];
      }
    }
  }

  lemma QueueScanCons(which: Queue, env: Env, cfg: Config, q: seq<Group>, b: Books)
    requires q != [] && Judge(which, env, cfg, q[0], b).Go?
    ensures var j := Judge(which, env, cfg, q[0], b);
      QueueScan(which, env, cfg, q, b)
      == QueueScan(which, env, cfg, q[1..], j.books).After([Verdict(q[0], j.kind, j.chunk)])
  {
    hide Judge;
  }

  lemma ScanCons(v: Verdict, r: ScanResult)
    ensures var r' := r.After([v]);
      && Groups(r'.scanned) + r'.rest == [v.group] + (Groups(r.scanned) + r.rest)
      && (QueueKinds([v]) && QueueKinds(r.scanned) ==> QueueKinds(r'.scanned))
      && (!v.kind.Decode? && Without(r.scanned, Decode) ==> Without(r'.scanned, Decode))
  {
    GroupsCons(v, r.scanned);
    assert QueueKinds([v]) ==> [v][0] == v;
  }

  lemma JudgeKind(which: Queue, env: Env, cfg: Config, g: Group, b: Books)
    ensures var j := Judge(which, env, cfg, g, b); j.Go? ==>
      QueueKinds([Verdict(g, j.kind, j.chunk)]) && (which == Waiting ==> !j.kind.Decode?)
  {}

  /** A swapped or waiting queue is left as leftovers, parked groups and an unscanned suffix,
      each class in arrival order; every other scanned group was put in the batch and marked,
      or reported. */
  lemma QueueScanOrder(which: Queue, env: Env, cfg: Config, q: seq<Group>, b: Books)
    ensures var r := QueueScan(which, env, cfg, q, b);
      var n := |Groups(r.scanned)|;
      && n <= |q| && r.rest == q[n..]
      && QueueAfter(r) == Picked(r.scanned, Leftover) + Picked(r.scanned, Reserved) + q[n..]
      && Subsequence(Picked(r.scanned, Leftover), q[..n]) && Subsequence(Picked(r.scanned, Reserved), q[..n])
      && (forall v | v in r.scanned :: v.kind.Leftover? || v.kind.Reserved? || v.kind.Rejected?
                                       || (IsChosen(v) && v.group.id in r.books.onFly))
  {
    var r := QueueScan(which, env, cfg, q, b);
    QueueScanShape(which, env, cfg, q, b);
    PickedKeepsOrder(r.scanned, Leftover);
    PickedKeepsOrder(r.scanned, Reserved);
    assert q[..|Groups(r.scanned)|] == Groups(r.scanned);
    QueueScanMarks(which, env, cfg, q, b);
    forall v | v in r.scanned && IsChosen(v) ensures v.group.id in r.books.onFly {
      ChosenIsListed(r.scanned, v);
    }
  }

  lemma {:induction false} ChosenIsListed(tr: seq<Verdict>, v: Verdict)
    requires v in tr && IsChosen(v)
    ensures v.group.id in ChosenIds(tr)
  {
    if v != tr[0] {
      ChosenIsListed(tr[1..], v);
    }
  }

  // ------------------------------------------------------------ conservation

  ghost function Content(q: Queues): multiset<Group> {
    multiset(q.waiting) + multiset(q.running) + multiset(q.swapped)
  }

  /** Groups the step takes out of the scheduler: reported ignored or infeasible, handed to
      the async stop list, or found finished when chosen as victims. */
  ghost function Removed(s: Scans): multiset<Group> {
    multiset(Ignored(s)) + multiset(Picked(s.run.scanned, Stopped)) + multiset(Picked(s.run.victims, Finished))
  }

  lemma {:induction false} CountRunKinds(tr: seq<Verdict>, x: Group)
    requires RunKinds(tr)
    ensures Count(Groups(tr), x) == Count(Picked(tr, Reserved), x) + Count(Picked(tr, Stopped), x)
                                  + Count(Picked(tr, Decode), x) + Count(Picked(tr, Prefill), x)
  {
    if tr != [] {
      CountRunKinds(tr[1..], x);
    }
  }

  lemma {:induction false} CountEvictKinds(tr: seq<Verdict>, x: Group)
    requires EvictKinds(tr)
    ensures Count(Groups(tr), x) == Count(Picked(tr, Preempted), x) + Count(Picked(tr, SwappedOut), x)
                                  + Count(Picked(tr, Finished), x)
  {
    if tr != [] {
      CountEvictKinds(tr[1..], x);
    }
  }

  lemma {:induction false} CountQueueKinds(tr: seq<Verdict>, x: Group)
    requires QueueKinds(tr)
    ensures Count(Groups(tr), x) == Count(Picked(tr, Leftover), x) + Count(Picked(tr, Reserved), x)
                                  + Count(Picked(tr, Rejected), x) + Count(Picked(tr, Decode), x)
                                  + Count(Picked(tr, Prefill), x)
  {
    if tr != [] {
      CountQueueKinds(tr[1..], x);
    }
  }

  lemma RunScanConserves(env: Env, cfg: Config, q: seq<Group>, b: Books, x: Group)
    ensures var r := RunScan(env, cfg, q, b);
      Count(q, x) == Count(RunningAfter(r), x)
        + Count(Picked(r.scanned, Stopped), x) + Count(Picked(r.scanned, Decode), x)
        + Count(Picked(r.scanned, Prefill), x)
        + Count(Picked(r.victims, Preempted), x) + Count(Picked(r.victims, SwappedOut), x)
        + Count(Picked(r.victims, Finished), x)
  {
    var r := RunScan(env, cfg, q, b);
    RunScanShape(env, cfg, q, b);
    CountRunKinds(r.scanned, x);
    CountEvictKinds(r.victims, x);
    ReverseMultiset(Groups(r.victims));
  }

  lemma QueueScanConserves(which: Queue, env: Env, cfg: Config, q: seq<Group>, b: Books, x: Group)
    ensures var r := QueueScan(which, env, cfg, q, b);
      Count(q, x) == Count(QueueAfter(r), x) + Count(Picked(r.scanned, Rejected), x)
        + Count(Picked(r.scanned, Decode), x) + Count(Picked(r.scanned, Prefill), x)
      && (which == Waiting ==> Picked(r.scanned, Decode) == [])
  {
    var r := QueueScan(which, env, cfg, q, b);
    QueueScanShape(which, env, cfg, q, b);
    CountQueueKinds(r.scanned, x);
    if which == Waiting {
      PickedNone(r.scanned, Decode);
    }
  }

  lemma FinishingCons(env: Env, b: seq<Scheduled>, yes: bool, x: Group)
    requires b != []
    ensures Count(GroupsOf(Finishing(env, b, yes)), x)
         == (if env.finishesPrompt(b[0].group, b[0].chunk) == yes && b[0].group == x then 1 else 0)
            + Count(GroupsOf(Finishing(env, b[1..], yes)), x)
  {
    var rest := Finishing(env, b[1..], yes);
    if env.finishesPrompt(b[0].group, b[0].chunk) == yes {
      assert Finishing(env, b, yes) == [b[0]] + rest;
      assert ([b[0]] + rest)[1..] == rest;
    } else {
      assert Finishing(env, b, yes) == rest;
    }
  }

  lemma {:induction false} FinishingPartition(env: Env, b: seq<Scheduled>, x: Group)
    ensures Count(FinishingFirst(env, b), x) == Count(GroupsOf(b), x)
  {
    if b != [] {
      FinishingPartition(env, b[1..], x);
      FinishingCons(env, b, true, x);
      FinishingCons(env, b, false, x);
      hide Finishing;
    }
  }

  lemma NewRunningContent(env: Env, s: Scans, x: Group)
    ensures Count(NewRunning(env, s), x) == Count(RunningAfter(s.run), x)
      + Count(Picked(s.swap.scanned, Decode), x) + Count(Picked(s.swap.scanned, Prefill), x)
      + Count(Picked(s.run.scanned, Decode), x) + Count(Picked(s.run.scanned, Prefill), x)
      + Count(Picked(s.wait.scanned, Prefill), x)
  {
    GroupsOfBatch(s.swap.scanned, Decode);
    GroupsOfBatch(s.swap.scanned, Prefill);
    GroupsOfBatch(s.run.scanned, Decode);
    GroupsOfBatch(s.run.scanned, Prefill);
    GroupsOfBatch(s.wait.scanned, Prefill);
    FinishingPartition(env, Batch(s.run.scanned, Prefill), x);
  }

  lemma NothingScanned(q: seq<Group>, b: Books)
    ensures var r := Unscanned(q, b);
      && QueueAfter(r) == q && Picked(r.scanned, Rejected) == []
      && Picked(r.scanned, Decode) == [] && Picked(r.scanned, Prefill) == []
  {}

  lemma ScansConserve(env: Env, cfg: Config, q: Queues, onFly: set<Id>, clock: nat, x: Group)
    ensures var s := RunScans(env, cfg, q, onFly, clock);
      && Picked(s.wait.scanned, Decode) == []
      && Count(q.swapped, x) == Count(QueueAfter(s.swap), x) + Count(Picked(s.swap.scanned, Rejected), x)
           + Count(Picked(s.swap.scanned, Decode), x) + Count(Picked(s.swap.scanned, Prefill), x)
      && Count(q.waiting, x) == Count(QueueAfter(s.wait), x) + Count(Picked(s.wait.scanned, Rejected), x)
           + Count(Picked(s.wait.scanned, Prefill), x)
  {
    hide QueueScan, RunScan, Picked, QueueAfter;
    var s := RunScans(env, cfg, q, onFly, clock);
    NothingScanned(q.swapped, s.run.books.NewScan());
    NothingScanned(q.waiting, s.swap.books.NewScan());
    QueueScanConserves(Swapped, env, cfg, q.swapped, s.run.books.NewScan(), x);
    QueueScanConserves(Waiting, env, cfg, q.waiting, s.swap.books.NewScan(), x);
  }

  lemma StepConservesEach(env: Env, cfg: Config, q: Queues, onFly: set<Id>, clock: nat, x: Group)
    ensures var s := RunScans(env, cfg, q, onFly, clock);
      && Count(q.waiting, x) + Count(q.running, x) + Count(q.swapped, x)
        == Count(NewWaiting(s), x) + Count(NewRunning(env, s), x) + Count(NewSwapped(s), x) + Removed(s)[x]
  {
    var s := RunScans(env, cfg, q, onFly, clock);
    ReverseMultiset(Picked(s.run.victims, Preempted));
    RunScanConserves(env, cfg, q.running, Books(onFly, FreshBudget(cfg), {}, clock, 0, 0), x);
    ScansConserve(env, cfg, q, onFly, clock, x);
    NewRunningContent(env, s, x);
    assert Count(NewWaiting(s), x) == Count(Picked(s.run.victims, Preempted), x) + Count(QueueAfter(s.wait), x);
    assert Count(NewSwapped(s), x) == Count(QueueAfter(s.swap), x) + Count(Picked(s.run.victims, SwappedOut), x);
  }

  /** One chunked scheduling step neither loses nor duplicates a group. */
  lemma StepConserves(env: Env, cfg: Config, q: Queues, onFly: set<Id>, clock: nat)
    ensures var s := RunScans(env, cfg, q, onFly, clock);
      Content(q) == Content(NewQueues(env, s)) + Removed(s)
  {
    hide NewRunning, NewWaiting, NewSwapped, RunScans, Removed;
    var s := RunScans(env, cfg, q, onFly, clock);
    forall x ensures Content(q)[x] == (Content(NewQueues(env, s)) + Removed(s))[x] {
      StepConservesEach(env, cfg, q, onFly, clock, x);
    }
  }

  lemma BatchContent(s: Scans, x: Group)
    ensures Count(GroupsOf(NewBatch(s)), x) == Count(Picked(s.wait.scanned, Prefill), x)
      + Count(Picked(s.run.scanned, Prefill), x) + Count(Picked(s.swap.scanned, Prefill), x)
      + Count(Picked(s.run.scanned, Decode), x) + Count(Picked(s.swap.scanned, Decode), x)
  {
    var a, b := Batch(s.wait.scanned, Prefill), Batch(s.run.scanned, Prefill);
    var c, d := Batch(s.swap.scanned, Prefill), Batch(s.run.scanned, Decode);
    GroupsOfAppend(a, b);
    GroupsOfAppend(a + b, c);
    GroupsOfAppend(a + b + c, d);
    GroupsOfAppend(a + b + c + d, Batch(s.swap.scanned, Decode));
    GroupsOfBatch(s.wait.scanned, Prefill);
    GroupsOfBatch(s.run.scanned, Prefill);
    GroupsOfBatch(s.swap.scanned, Prefill);
    GroupsOfBatch(s.run.scanned, Decode);
    GroupsOfBatch(s.swap.scanned, Decode);
  }

  /** The new running queue is what the scan left there plus the batch handed out. */
  lemma BatchIsRunning(env: Env, s: Scans)
    ensures multiset(NewRunning(env, s)) == multiset(RunningAfter(s.run)) + multiset(GroupsOf(NewBatch(s)))
  {
    hide NewRunning, NewBatch, RunningAfter, GroupsOf, Picked;
    forall x
      ensures multiset(NewRunning(env, s))[x] == (multiset(RunningAfter(s.run)) + multiset(GroupsOf(NewBatch(s))))[x]
    {
      NewRunningContent(env, s, x);
      BatchContent(s, x);
    }
  }

  /** The groups that a step whose assertion fails has taken from the queues and put nowhere. */
  ghost function Dropped(s: Scans): multiset<Group> {
    multiset(GroupsOf(NewBatch(s))) + multiset(Picked(s.run.victims, Preempted))
    + multiset(Picked(s.run.victims, SwappedOut))
  }

  /** A step that fails its assertion loses the groups it had chosen, preempted or swapped out:
      they are in no queue any more. */
  lemma FailingStepDrops(env: Env, cfg: Config, q: Queues, onFly: set<Id>, clock: nat)
    ensures var s := RunScans(env, cfg, q, onFly, clock);
      && Content(q) == Content(AbandonedQueues(s)) + Dropped(s) + Removed(s)
      && multiset(AbandonedQueues(s).waiting) <= multiset(q.waiting)
      && multiset(AbandonedQueues(s).running) <= multiset(q.running)
      && multiset(AbandonedQueues(s).swapped) <= multiset(q.swapped)
  {
    var s := RunScans(env, cfg, q, onFly, clock);
    NoneComes(env, cfg, q, onFly, clock);
    StepConserves(env, cfg, q, onFly, clock);
    BatchIsRunning(env, s);
    ReverseMultiset(Picked(s.run.victims, Preempted));
    MergedContent(env, s);
  }

  /** What the scans leave in a queue was in that queue. */
  lemma NoneComes(env: Env, cfg: Config, q: Queues, onFly: set<Id>, clock: nat)
    ensures var s := RunScans(env, cfg, q, onFly, clock);
      && multiset(QueueAfter(s.wait)) <= multiset(q.waiting) && multiset(RunningAfter(s.run)) <= multiset(q.running)
      && multiset(QueueAfter(s.swap)) <= multiset(q.swapped)
  {
    var s := RunScans(env, cfg, q, onFly, clock);
    forall x
      ensures Count(QueueAfter(s.wait), x) <= Count(q.waiting, x)
      ensures Count(RunningAfter(s.run), x) <= Count(q.running, x)
      ensures Count(QueueAfter(s.swap), x) <= Count(q.swapped, x)
    {
      ScansConserve(env, cfg, q, onFly, clock, x);
      RunScanConserves(env, cfg, q.running, Books(onFly, FreshBudget(cfg), {}, clock, 0, 0), x);
    }
    hide QueueAfter, RunningAfter, RunScan, QueueScan;
    assert forall x :: multiset(QueueAfter(s.wait))[x] == Count(QueueAfter(s.wait), x);
    assert forall x :: multiset(RunningAfter(s.run))[x] == Count(RunningAfter(s.run), x);
    assert forall x :: multiset(QueueAfter(s.swap))[x] == Count(QueueAfter(s.swap), x);
  }

  lemma MergedContent(env: Env, s: Scans)
    requires multiset(NewRunning(env, s)) == multiset(RunningAfter(s.run)) + multiset(GroupsOf(NewBatch(s)))
    requires multiset(Reverse(Picked(s.run.victims, Preempted))) == multiset(Picked(s.run.victims, Preempted))
    ensures Content(NewQueues(env, s)) == Content(AbandonedQueues(s)) + Dropped(s)
  {
    hide NewRunning, NewBatch, RunningAfter, GroupsOf, Picked, QueueAfter, Reverse;
    AddUp(multiset(QueueAfter(s.wait)), multiset(Picked(s.run.victims, Preempted)), multiset(RunningAfter(s.run)),
          multiset(GroupsOf(NewBatch(s))), multiset(QueueAfter(s.swap)), multiset(Picked(s.run.victims, SwappedOut)));
  }

  lemma AddUp(a: multiset<Group>, p: multiset<Group>, b: multiset<Group>, n: multiset<Group>, c: multiset<Group>,
              o: multiset<Group>)
    ensures (p + a) + (b + n) + (c + o) == (a + b + c) + (n + p + o)
  {}

  // ------------------------------------------------------------------ marking

  /** The listed requests were all free before, are pairwise different, and are exactly what
      was added to the set of requests on the fly. */
  ghost predicate Marks(before: set<Id>, ids: seq<Id>, after: set<Id>) {
    (forall x | x in ids :: multiset(ids)[x] == 1 && x !in before)
    && after == before + set x | x in ids
  }

  lemma MarksCompose(a: set<Id>, m: seq<Id>, b: set<Id>, n: seq<Id>, c: set<Id>)
    requires Marks(a, m, b) && Marks(b, n, c)
    ensures Marks(a, m + n, c)
  {
    assert multiset(m + n) == multiset(m) + multiset(n);
    forall x | x in m + n ensures multiset(m + n)[x] == 1 && x !in a {
      if x in m { assert x in b; } else { assert x !in m; }
    }
  }

  function IdsOf(b: seq<Scheduled>): (r: seq<Id>) {
    if b == [] then [] else [b[0].group.id] + IdsOf(b[1..])
  }

  predicate IsChosen(v: Verdict) { v.kind.Decode? || v.kind.Prefill? }

  function ChosenIds(tr: seq<Verdict>): (r: seq<Id>) {
    if tr == [] then []
    else (if IsChosen(tr[0]) then [tr[0].group.id] else []) + ChosenIds(tr[1..])
  }

  lemma ChosenCons(v: Verdict, tr: seq<Verdict>)
    ensures ChosenIds([v] + tr) == ChosenIds([v]) + ChosenIds(tr)
    ensures ChosenIds([v]) == if IsChosen(v) then [v.group.id] else []
  {
    assert ([v] + tr)[1..] == tr;
  }

  ghost function CountId(s: seq<Id>, x: Id): nat { multiset(s)[x] }

  lemma {:induction false} IdsAppend(a: seq<Scheduled>, b: seq<Scheduled>)
    ensures IdsOf(a + b) == IdsOf(a) + IdsOf(b)
  {
    if a == [] {
      assert a + b == b;
    } else {
      IdsAppend(a[1..], b);
      assert (a + b)[1..] == a[1..] + b;
      Assoc([a[0].group.id], IdsOf(a[1..]), IdsOf(b));
    }
  }

  lemma CountIdsAppend(a: seq<Scheduled>, b: seq<Scheduled>, x: Id)
    ensures CountId(IdsOf(a + b), x) == CountId(IdsOf(a), x) + CountId(IdsOf(b), x)
  {
    IdsAppend(a, b);
    hide IdsOf;
  }

  lemma BatchIdsCons(tr: seq<Verdict>, k: Kind)
    requires tr != []
    ensures IdsOf(Batch(tr, k)) == (if tr[0].kind == k then [tr[0].group.id] else []) + IdsOf(Batch(tr[1..], k))
  {
    var one := [Scheduled(tr[0].group, tr[0].chunk)];
    if tr[0].kind == k {
      assert IdsOf(one) == [tr[0].group.id] + IdsOf(one[1..]);
      IdsAppend(one, Batch(tr[1..], k));
    } else {
      assert Batch(tr, k) == Batch(tr[1..], k);
    }
  }

  lemma {:induction false} CountChosen(tr: seq<Verdict>, x: Id)
    ensures CountId(ChosenIds(tr), x) == CountId(IdsOf(Batch(tr, Decode)), x) + CountId(IdsOf(Batch(tr, Prefill)), x)
  {
    if tr != [] {
      CountChosen(tr[1..], x);
      BatchIdsCons(tr, Decode);
      BatchIdsCons(tr, Prefill);
      hide IdsOf, Batch;
    }
  }

  lemma {:induction false} MakeRoomMarksNothing(env: Env, cfg: Config, g: Group, n: nat, tail: seq<Group>, b: Books)
    ensures var r := MakeRoom(env, cfg, g, n, tail, b);
      r.books.onFly == b.onFly && r.books.count == b.count && r.books.tokens == b.tokens
    decreases |tail|
  {
    if !env.canAppend(b.clock, g) && tail != [] {
      MakeRoomMarksNothing(env, cfg, g, n, tail[..|tail| - 1], b.Release(g, n).Tick());
    }
  }

  lemma MarksOne(before: set<Id>, id: Id)
    ensures Marks(before, [], before)
    ensures id !in before ==> Marks(before, [id], before + {id})
  {}

  lemma JudgeRunningMarks(env: Env, cfg: Config, g: Group, tail: seq<Group>, b: Books)
    ensures var j := JudgeRunning(env, cfg, g, tail, b);
      && (j.Take? ==> Marks(b.onFly, ChosenIds([j.verdict]), j.books.onFly))
      && (j.GiveUp? ==> j.books.onFly == b.onFly)
  {
    var n := env.newTokens(b.clock, g, b.budget.Remaining()).uncached;
    MakeRoomMarksNothing(env, cfg, g, n, tail, b.Tick());
    hide MakeRoom, ChosenIds, Marks;
    var j := JudgeRunning(env, cfg, g, tail, b);
    MarksOne(b.onFly, g.id);
    ChosenNothing();
    if j.Take? {
      ChosenCons(j.verdict, []);
    }
  }

  lemma {:induction false} RunScanMarks(env: Env, cfg: Config, q: seq<Group>, b: Books)
    ensures var r := RunScan(env, cfg, q, b); Marks(b.onFly, ChosenIds(r.scanned), r.books.onFly)
    decreases |q|
  {
    if q == [] { return; }
    JudgeRunningMarks(env, cfg, q[0], q[1..], b);
    var j := JudgeRunning(env, cfg, q[0], q[1..], b);
    if j.Take? {
      RunScanMarks(env, cfg, j.tail, j.books);
      var r := RunScan(env, cfg, j.tail, j.books);
      ChosenCons(j.verdict, r.scanned);
      MarksCompose(b.onFly, ChosenIds([j.verdict]), j.books.onFly, ChosenIds(r.scanned), r.books.onFly);
    }
  }

  lemma JudgeMarks(which: Queue, env: Env, cfg: Config, g: Group, b: Books)
    ensures var j := Judge(which, env, cfg, g, b);
      j.Go? ==> Marks(b.onFly, ChosenIds([Verdict(g, j.kind, j.chunk)]), j.books.onFly)
  {
    var j := Judge(which, env, cfg, g, b);
    JudgeMarksOne(which, env, cfg, g, b);
    hide Judge, ChosenIds, Marks;
    if j.Go? {
      ChosenCons(Verdict(g, j.kind, j.chunk), []);
      MarksOne(b.onFly, g.id);
      ChosenNothing();
    }
  }

  lemma JudgeMarksOne(which: Queue, env: Env, cfg: Config, g: Group, b: Books)
    ensures var j := Judge(which, env, cfg, g, b); j.Go? ==>
      if IsChosen(Verdict(g, j.kind, j.chunk)) then g.id !in b.onFly && j.books.onFly == b.onFly + {g.id}
      else j.books.onFly == b.onFly
  {
    match which
    case Swapped => assert Judge(which, env, cfg, g, b) == JudgeSwapped(env, cfg, g, b);
    case Waiting => assert Judge(which, env, cfg, g, b) == JudgeWaiting(env, cfg, g, b);
  }

  lemma {:induction false} QueueScanMarks(which: Queue, env: Env, cfg: Config, q: seq<Group>, b: Books)
    ensures var r := QueueScan(which, env, cfg, q, b); Marks(b.onFly, ChosenIds(r.scanned), r.books.onFly)
    decreases |q|
  {
    if q == [] { return; }
    JudgeMarks(which, env, cfg, q[0], b);
    var j := Judge(which, env, cfg, q[0], b);
    if j.Go? {
      QueueScanMarks(which, env, cfg, q[1..], j.books);
      var r := QueueScan(which, env, cfg, q[1..], j.books);
      var v := Verdict(q[0], j.kind, j.chunk);
      ChosenCons(v, r.scanned);
      MarksCompose(b.onFly, ChosenIds([v]), j.books.onFly, ChosenIds(r.scanned), r.books.onFly);
    }
  }

  lemma NewBatchIds(env: Env, cfg: Config, q: Queues, onFly: set<Id>, clock: nat, x: Id)
    ensures var s := RunScans(env, cfg, q, onFly, clock);
      CountId(IdsOf(NewBatch(s)), x)
      == CountId(ChosenIds(s.run.scanned), x) + CountId(ChosenIds(s.swap.scanned), x)
         + CountId(ChosenIds(s.wait.scanned), x)
  {
    var s := RunScans(env, cfg, q, onFly, clock);
    ScansConserve(env, cfg, q, onFly, clock, Group("", false, 0, 0, 0));
    GroupsOfBatch(s.wait.scanned, Decode);
    assert Batch(s.wait.scanned, Decode) == [];
    CountChosen(s.run.scanned, x);
    CountChosen(s.swap.scanned, x);
    CountChosen(s.wait.scanned, x);
    var a, b := Batch(s.wait.scanned, Prefill), Batch(s.run.scanned, Prefill);
    var c, d := Batch(s.swap.scanned, Prefill), Batch(s.run.scanned, Decode);
    CountIdsAppend(a, b, x);
    CountIdsAppend(a + b, c, x);
    CountIdsAppend(a + b + c, d, x);
    CountIdsAppend(a + b + c + d, Batch(s.swap.scanned, Decode), x);
  }

  /** A step puts only free requests into its batch, each once, and marks exactly those: it
      never schedules a request that is in another micro-batch. */
  lemma StepMarksBatch(env: Env, cfg: Config, q: Queues, onFly: set<Id>, clock: nat)
    ensures var s := RunScans(env, cfg, q, onFly, clock);
      Marks(onFly, IdsOf(NewBatch(s)), s.wait.books.onFly)
  {
    hide RunScan, QueueScan, ChosenIds, IdsOf, NewBatch;
    var s := RunScans(env, cfg, q, onFly, clock);
    var b := Books(onFly, FreshBudget(cfg), {}, clock, 0, 0);
    assert ChosenIds([]) == [] by { ChosenNothing(); }
    RunScanMarks(env, cfg, q.running, b);
    QueueScanMarks(Swapped, env, cfg, q.swapped, s.run.books.NewScan());
    QueueScanMarks(Waiting, env, cfg, q.waiting, s.swap.books.NewScan());
    var i, j, k := ChosenIds(s.run.scanned), ChosenIds(s.swap.scanned), ChosenIds(s.wait.scanned);
    MarksCompose(onFly, i, s.run.books.onFly, j, s.swap.books.onFly);
    MarksCompose(onFly, i + j, s.swap.books.onFly, k, s.wait.books.onFly);
    forall x ensures multiset(IdsOf(NewBatch(s)))[x] == multiset(i + j + k)[x] {
      NewBatchIds(env, cfg, q, onFly, clock, x);
    }
    MarksPermute(onFly, i + j + k, IdsOf(NewBatch(s)), s.wait.books.onFly);
  }

  lemma ChosenNothing()
    ensures ChosenIds([]) == []
  {}

  lemma MarksPermute(a: set<Id>, m: seq<Id>, n: seq<Id>, b: set<Id>)
    requires Marks(a, m, b) && forall x :: multiset(n)[x] == multiset(m)[x]
    ensures Marks(a, n, b)
  {
    assert forall x :: x in n <==> x in multiset(n);
    assert forall x :: x in m <==> x in multiset(m);
  }
}
