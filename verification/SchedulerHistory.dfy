/** Why a step did what it did: an account of each scan, group by group, from the answers the
    environment gave at that moment and from what had been done before. It does not look at how
    the scans decide; a scan's result is shown to be the only one with such an account. */
module SchedulerHistory {
  import opened SchedulerSpec
  import opened SchedulerProofs

  /** Where a scan stands: the requests on the fly, the adapters in use, the number of the next
      question, what the scan has counted, and what the step has charged so far. */
  datatype Standing = Standing(
    onFly: set<Id>, loras: set<nat>, clock: nat, count: nat, tokens: nat, batched: int, seqs: int)

  function Now(b: Books): Standing {
    Standing(b.onFly, b.loras, b.clock, b.count, b.tokens, b.budget.batched, b.budget.seqs)
  }

  /** No free request has been charged, and the budget is the configured one. */
  ghost predicate Uncharged(cfg: Config, b: Books) {
    && b.budget.tokenIds <= b.onFly && b.budget.seqIds <= b.onFly
    && b.budget.tokenBudget == cfg.maxNumBatchedTokens && b.budget.maxNumSeqs == cfg.maxNumSeqs
  }

  function NewTokens(env: Env, cfg: Config, g: Group, p: Standing): Tokens {
    env.newTokens(p.clock, g, cfg.maxNumBatchedTokens - p.batched)
  }

  // ------------------------------------------------- swapped and waiting scans

  predicate NoAdapterPlace(cfg: Config, g: Group, p: Standing) {
    cfg.loraEnabled && g.lora > 0 && g.lora !in p.loras && |p.loras| >= cfg.maxLoras
  }

  predicate OverBudget(env: Env, cfg: Config, g: Group, p: Standing) {
    var n := NewTokens(env, cfg, g, p).uncached;
    n == 0 || p.batched + n > cfg.maxNumBatchedTokens || p.seqs + g.numSeqs > cfg.maxNumSeqs
  }

  predicate WithinPromptLimit(env: Env, cfg: Config, g: Group, p: Standing) {
    var t := NewTokens(env, cfg, g, p);
    t.uncached + t.cached <= env.promptLimit(p.clock, g)
  }

  /** The group is free and nothing about the request itself stands in its way. */
  predicate Admissible(which: Queue, env: Env, cfg: Config, g: Group, p: Standing) {
    g.id !in p.onFly && (which == Waiting ==> env.partialPrefillOk(p.clock, g) && WithinPromptLimit(env, cfg, g, p))
  }

  function Memory(which: Queue, env: Env, g: Group, p: Standing): AllocStatus {
    match which
    case Swapped => env.canSwapIn(p.clock, g)
    case Waiting => env.canAllocate(p.clock, g)
  }

  /** The causes that end a scan in front of a group: for the waiting queue the delay and the two
      limits; and for either queue a free, admissible group for which memory is short for now, or
      which has memory and an adapter place but exceeds the budget. */
  ghost predicate Ends(which: Queue, env: Env, cfg: Config, g: Group, p: Standing) {
    || (which == Waiting
        && (|| !env.passedDelay(p.clock)
            || (cfg.chunking && p.tokens >= cfg.maxNumBatchedTokens)
            || p.count >= cfg.scheduleLimit))
    || (&& Admissible(which, env, cfg, g, p)
        && (|| Memory(which, env, g, p) == Later
            || (&& Memory(which, env, g, p) == Ok && !NoAdapterPlace(cfg, g, p)
                && (OverBudget(env, cfg, g, p) || (which == Waiting && p.batched >= cfg.maxNumBatchedTokens)))))
  }

  /** What becomes of a group in front of which the scan does not end. A group is only reported if
      its prompt is too long or memory will never do for it; if there is no place for its partial
      prefill or its adapter, it is left over. */
  ghost predicate Judged(which: Queue, env: Env, cfg: Config, g: Group, p: Standing, v: Verdict) {
    var t, free := NewTokens(env, cfg, g, p), g.id !in p.onFly;
    var partial := which == Waiting && !env.partialPrefillOk(p.clock, g);
    var tooLong := which == Waiting && !WithinPromptLimit(env, cfg, g, p);
    && v.group == g
    && (v.kind.Reserved? <==> !free)
    && (v.kind.Rejected? <==> free && !partial && (tooLong || Memory(which, env, g, p) == Never))
    && (v.kind.Leftover? <==>
          free && (partial || (!tooLong && Memory(which, env, g, p) == Ok && NoAdapterPlace(cfg, g, p))))
    && (IsChosen(v) <==>
          Admissible(which, env, cfg, g, p) && Memory(which, env, g, p) == Ok && !NoAdapterPlace(cfg, g, p))
    && (v.kind.Decode? ==> which == Swapped && !g.isPrefill && v.chunk == 1)
    && (v.kind.Prefill? ==> (which == Swapped ==> g.isPrefill) && v.chunk == t.uncached + t.cached)
    && (!IsChosen(v) ==> v.chunk == 0)
  }

  /** Where the scan stands afterwards. Only a parked group of the swapped queue costs no question. */
  ghost predicate Follows(which: Queue, env: Env, cfg: Config, p: Standing, v: Verdict, p': Standing) {
    var g, n := v.group, NewTokens(env, cfg, v.group, p).uncached;
    if IsChosen(v) then
      && p'.onFly == p.onFly + {g.id}
      && p'.loras == p.loras + (if cfg.loraEnabled && g.lora > 0 then {g.lora} else {})
      && p'.clock == p.clock + 1 && p'.count == p.count + 1 && p'.tokens == p.tokens + n
      && p'.batched == p.batched + n && p'.seqs == p.seqs + g.numSeqs
    else
      p' == if v.kind.Reserved? && which == Swapped then p else p.(clock := p.clock + 1)
  }

  /** An account of a scan of `q`: `h[i]` is where it stands in front of the i-th group. */
  ghost predicate Explains(which: Queue, env: Env, cfg: Config, q: seq<Group>, h: seq<Standing>,
                           scanned: seq<Verdict>, rest: seq<Group>) {
    && |h| == |scanned| + 1 <= |q| + 1 && rest == q[|scanned|..]
    && (forall i: nat | i < |scanned| :: Turned(which, env, cfg, q[i], h[i], scanned[i], h[i + 1]))
    && (rest != [] ==> Ends(which, env, cfg, rest[0], h[|scanned|]))
  }

  ghost predicate Turned(which: Queue, env: Env, cfg: Config, g: Group, p: Standing, v: Verdict, p': Standing) {
    !Ends(which, env, cfg, g, p) && Judged(which, env, cfg, g, p, v) && Follows(which, env, cfg, p, v, p')
  }

  lemma AdmittedFollows(which: Queue, env: Env, cfg: Config, g: Group, b: Books, v: Verdict)
    requires Uncharged(cfg, b) && g.id !in b.onFly && v.group == g && IsChosen(v)
    ensures var b' := ChooseNew(cfg, b.Tick(), g, env.newTokens(b.clock, g, b.budget.Remaining()));
      Uncharged(cfg, b') && Follows(which, env, cfg, Now(b), v, Now(b'))
  {}

  lemma SwappedJudged(env: Env, cfg: Config, g: Group, b: Books)
    requires Uncharged(cfg, b)
    ensures var j := JudgeSwapped(env, cfg, g, b);
      if j.Stop? then Ends(Swapped, env, cfg, g, Now(b))
      else !Ends(Swapped, env, cfg, g, Now(b)) && Judged(Swapped, env, cfg, g, Now(b), Verdict(g, j.kind, j.chunk))
  {
    hide ChooseNew;
  }

  lemma SwappedFollows(env: Env, cfg: Config, g: Group, b: Books)
    requires Uncharged(cfg, b) && JudgeSwapped(env, cfg, g, b).Go?
    ensures var j := JudgeSwapped(env, cfg, g, b);
      Follows(Swapped, env, cfg, Now(b), Verdict(g, j.kind, j.chunk), Now(j.books)) && Uncharged(cfg, j.books)
  {
    var j := JudgeSwapped(env, cfg, g, b);
    if IsChosen(Verdict(g, j.kind, j.chunk)) {
      AdmittedFollows(Swapped, env, cfg, g, b, Verdict(g, j.kind, j.chunk));
      hide Follows, Uncharged, ChooseNew, NoLoraSpace;
    } else {
      hide ChooseNew, NoLoraSpace;
    }
  }

  lemma WaitingJudged(env: Env, cfg: Config, g: Group, b: Books)
    requires Uncharged(cfg, b)
    ensures var j := JudgeWaiting(env, cfg, g, b);
      if j.Stop? then Ends(Waiting, env, cfg, g, Now(b))
      else !Ends(Waiting, env, cfg, g, Now(b)) && Judged(Waiting, env, cfg, g, Now(b), Verdict(g, j.kind, j.chunk))
  {
    hide ChooseNew;
  }

  lemma WaitingFollows(env: Env, cfg: Config, g: Group, b: Books)
    requires Uncharged(cfg, b) && JudgeWaiting(env, cfg, g, b).Go?
    ensures var j := JudgeWaiting(env, cfg, g, b);
      Follows(Waiting, env, cfg, Now(b), Verdict(g, j.kind, j.chunk), Now(j.books)) && Uncharged(cfg, j.books)
  {
    var j := JudgeWaiting(env, cfg, g, b);
    if IsChosen(Verdict(g, j.kind, j.chunk)) {
      AdmittedFollows(Waiting, env, cfg, g, b, Verdict(g, j.kind, j.chunk));
      hide Follows, Uncharged, ChooseNew, NoLoraSpace;
    } else {
      hide ChooseNew, NoLoraSpace;
    }
  }

  /** A judgment is a turn, or ends the scan. */
  lemma JudgeTurn(which: Queue, env: Env, cfg: Config, g: Group, b: Books)
    requires Uncharged(cfg, b)
    ensures var j := Judge(which, env, cfg, g, b);
      if j.Stop? then Ends(which, env, cfg, g, Now(b))
      else Turned(which, env, cfg, g, Now(b), Verdict(g, j.kind, j.chunk), Now(j.books)) && Uncharged(cfg, j.books)
  {
    hide JudgeSwapped, JudgeWaiting, Ends, Judged, Follows, Uncharged, Now;
    match which {
      case Swapped =>
        SwappedJudged(env, cfg, g, b);
        if Judge(which, env, cfg, g, b).Go? { SwappedFollows(env, cfg, g, b); }
      case Waiting =>
        WaitingJudged(env, cfg, g, b);
        if Judge(which, env, cfg, g, b).Go? { WaitingFollows(env, cfg, g, b); }
    }
  }

  lemma ExplainsCons(which: Queue, env: Env, cfg: Config, q: seq<Group>, p: Standing, v: Verdict, h: seq<Standing>,
                     scanned: seq<Verdict>, rest: seq<Group>)
    requires q != [] && Explains(which, env, cfg, q[1..], h, scanned, rest)
    requires Turned(which, env, cfg, q[0], p, v, h[0])
    ensures Explains(which, env, cfg, q, [p] + h, [v] + scanned, rest)
  {
    hide Turned, Ends;
    var h', s' := [p] + h, [v] + scanned;
    assert q[1..][|scanned|..] == q[|s'|..];
    forall i: nat | i < |s'| ensures Turned(which, env, cfg, q[i], h'[i], s'[i], h'[i + 1]) {
      if i > 0 {
        assert Turned(which, env, cfg, q[1..][i - 1], h[i - 1], scanned[i - 1], h[i - 1 + 1]);
      }
    }
  }

  /** The scan has an account that starts where its books do and ends where they end. */
  lemma {:induction false} QueueScanExplained(which: Queue, env: Env, cfg: Config, q: seq<Group>, b: Books)
    returns (h: seq<Standing>)
    requires Uncharged(cfg, b)
    ensures var r := QueueScan(which, env, cfg, q, b);
      && Explains(which, env, cfg, q, h, r.scanned, r.rest)
      && h[0] == Now(b) && h[|r.scanned|] == Now(r.books) && Uncharged(cfg, r.books)
    decreases |q|
  {
    h := [Now(b)];
    if q != [] {
      var j := Judge(which, env, cfg, q[0], b);
      JudgeTurn(which, env, cfg, q[0], b);
      hide Judge, Turned, Ends, Uncharged, Now, Explains;
      if j.Go? {
        var rest := QueueScanExplained(which, env, cfg, q[1..], j.books);
        var r := QueueScan(which, env, cfg, q[1..], j.books);
        h := [Now(b)] + rest;
        ExplainsCons(which, env, cfg, q, Now(b), Verdict(q[0], j.kind, j.chunk), rest, r.scanned, r.rest);
      } else {
        EndsAtOnce(which, env, cfg, q, Now(b));
      }
    }
    if q == [] { assert Explains(which, env, cfg, q, h, [], []); }
  }

  lemma EndsAtOnce(which: Queue, env: Env, cfg: Config, q: seq<Group>, p: Standing)
    requires q != [] && Ends(which, env, cfg, q[0], p)
    ensures Explains(which, env, cfg, q, [p], [], q)
  {
    hide Ends;
  }

  lemma TurnDetermined(which: Queue, env: Env, cfg: Config, g: Group, p: Standing, v: Verdict, p': Standing,
                       w: Verdict, r': Standing)
    requires Turned(which, env, cfg, g, p, v, p') && Turned(which, env, cfg, g, p, w, r')
    ensures v == w && p' == r'
  {
    KindDetermined(which, env, cfg, g, p, v, w);
    hide Ends, Judged;
  }

  lemma KindDetermined(which: Queue, env: Env, cfg: Config, g: Group, p: Standing, v: Verdict, w: Verdict)
    requires !Ends(which, env, cfg, g, p) && Judged(which, env, cfg, g, p, v) && Judged(which, env, cfg, g, p, w)
    ensures v == w
  {}

  lemma ExplainsTail(which: Queue, env: Env, cfg: Config, q: seq<Group>, h: seq<Standing>, scanned: seq<Verdict>,
                     rest: seq<Group>)
    requires Explains(which, env, cfg, q, h, scanned, rest) && scanned != []
    ensures q != [] && Turned(which, env, cfg, q[0], h[0], scanned[0], h[1])
    ensures Explains(which, env, cfg, q[1..], h[1..], scanned[1..], rest)
  {
    hide Turned, Ends;
    assert q[1..][|scanned[1..]|..] == q[|scanned|..];
    assert Turned(which, env, cfg, q[0], h[0], scanned[0], h[0 + 1]);
    forall i: nat | i < |scanned[1..]|
      ensures Turned(which, env, cfg, q[1..][i], h[1..][i], scanned[1..][i], h[1..][i + 1])
    {
      assert Turned(which, env, cfg, q[i + 1], h[i + 1], scanned[i + 1], h[i + 1 + 1]);
    }
  }

  /** From one start there is only one account: it decides what the scan does. */
  lemma {:induction false} OneAccount(which: Queue, env: Env, cfg: Config, q: seq<Group>,
                                      h1: seq<Standing>, s1: seq<Verdict>, r1: seq<Group>,
                                      h2: seq<Standing>, s2: seq<Verdict>, r2: seq<Group>)
    requires Explains(which, env, cfg, q, h1, s1, r1) && Explains(which, env, cfg, q, h2, s2, r2) && h1[0] == h2[0]
    ensures s1 == s2 && r1 == r2 && h1 == h2
    decreases |q|
  {
    if s1 != [] { ExplainsTail(which, env, cfg, q, h1, s1, r1); }
    if s2 != [] { ExplainsTail(which, env, cfg, q, h2, s2, r2); }
    if s1 != [] && s2 != [] {
      TurnDetermined(which, env, cfg, q[0], h1[0], s1[0], h1[1], s2[0], h2[1]);
      OneAccount(which, env, cfg, q[1..], h1[1..], s1[1..], r1, h2[1..], s2[1..], r2);
      assert s1 == [s1[0]] + s1[1..] && s2 == [s2[0]] + s2[1..];
      assert h1 == [h1[0]] + h1[1..] && h2 == [h2[0]] + h2[1..];
    } else {
      hide Judged, Follows;
      assert q == [] || s1 == s2 == [];
    }
  }

  // ------------------------------------------------------------- running scan

  predicate LimitReached(cfg: Config, p: Standing) {
    (cfg.chunking && p.tokens as real >= cfg.decodeTokenLimit) || p.count >= cfg.scheduleLimit
  }

  /** One turn of the running scan: where it stands, how many groups are left in the queue from its
      own on, and how many it evicts from the end of them to make room. The search asks one
      question per eviction, from the number after `at.clock` on. */
  datatype Turn = Turn(at: Standing, left: nat, evicted: nat)
  {
    function Asked(i: nat): nat { at.clock + 1 + i }
  }

  /** A victim whose last output finishes it is freed; of the others, the one that vLLM preempts by
      recomputation goes back to the waiting queue, and the one it swaps out to the swapped queue. */
  ghost predicate EvictedAs(env: Env, cfg: Config, clock: nat, v: Verdict) {
    var done := cfg.useAsyncOutputProc && env.finishes(clock, v.group);
    && (v.kind.Finished? <==> done)
    && (v.kind.Preempted? <==> !done && env.recompute(clock, v.group))
    && (v.kind.SwappedOut? <==> !done && !env.recompute(clock, v.group))
    && v.chunk == 0
  }

  /** No slot was free for `g` at any of the questions from `clock` up to `until`. */
  ghost predicate NoSlot(env: Env, g: Group, clock: nat, until: nat) {
    forall c: nat | clock <= c < until :: !env.canAppend(c, g)
  }

  /** The victims are the groups at the end of `tail`, last one first, then `g` itself. */
  ghost predicate FromTail(env: Env, cfg: Config, g: Group, tail: seq<Group>, clock: nat, victims: seq<Verdict>) {
    && |victims| <= |tail| + 1
    && forall i: nat | i < |victims| ::
         && EvictedAs(env, cfg, clock + i, victims[i])
         && victims[i].group == if i < |tail| then tail[|tail| - 1 - i] else g
  }

  /** A search for room evicts as long as there is no slot: it succeeds at the first question that
      finds one, and fails when `g` itself was the last victim. */
  ghost predicate Searched(env: Env, cfg: Config, g: Group, tail: seq<Group>, p: Standing, r: Room) {
    var e := |r.victims|;
    && FromTail(env, cfg, g, tail, p.clock, r.victims) && NoSlot(env, g, p.clock, p.clock + e)
    && (r.fits <==> e <= |tail|)
    && (r.fits ==> env.canAppend(p.clock + e, g) && r.tail == tail[..|tail| - e])
    && Now(r.books) == p.(clock := p.clock + e + (if r.fits then 1 else 0),
                          loras := if e > 0 && g.lora > 0 then p.loras - {g.lora} else p.loras)
  }

  lemma {:induction false} RoomExplained(env: Env, cfg: Config, g: Group, n: nat, tail: seq<Group>, b: Books)
    requires Uncharged(cfg, b) && g.id !in b.onFly
    ensures var r := MakeRoom(env, cfg, g, n, tail, b);
      && Searched(env, cfg, g, tail, Now(b), r) && r.books.budget == b.budget
    decreases |tail|
  {
    var r := MakeRoom(env, cfg, g, n, tail, b);
    if !env.canAppend(b.clock, g) && tail != [] {
      var v, shorter, b' := tail[|tail| - 1], tail[..|tail| - 1], b.Release(g, n).Tick();
      assert b'.budget == b.budget;
      RoomExplained(env, cfg, g, n, shorter, b');
      var rest := MakeRoom(env, cfg, g, n, shorter, b');
      var first := Verdict(v, EvictKind(env, cfg, b.clock, v), 0);
      assert r == rest.After([first]);
      assert EvictedAs(env, cfg, b.clock, first);
      hide MakeRoom, EvictKind, EvictedAs, Uncharged;
      SearchedCons(env, cfg, g, tail, Now(b), first, Now(b'), rest);
    }
  }

  lemma SearchedCons(env: Env, cfg: Config, g: Group, tail: seq<Group>, p: Standing, first: Verdict, p': Standing,
                     rest: Room)
    requires tail != [] && !env.canAppend(p.clock, g)
    requires first.group == tail[|tail| - 1] && EvictedAs(env, cfg, p.clock, first)
    requires p' == p.(clock := p.clock + 1, loras := if g.lora > 0 then p.loras - {g.lora} else p.loras)
    requires Searched(env, cfg, g, tail[..|tail| - 1], p', rest)
    ensures Searched(env, cfg, g, tail, p, rest.After([first]))
  {
    hide EvictedAs, Now;
    var r, shorter := rest.After([first]), tail[..|tail| - 1];
    forall i: nat | i < |r.victims|
      ensures EvictedAs(env, cfg, p.clock + i, r.victims[i])
      ensures r.victims[i].group == if i < |tail| then tail[|tail| - 1 - i] else g
    {
      if i > 0 {
        assert r.victims[i] == rest.victims[i - 1];
        assert EvictedAs(env, cfg, p'.clock + (i - 1), rest.victims[i - 1]);
      }
    }
  }

  /** The scan ends in front of a group if a limit is reached, or if there are no tokens for it. */
  ghost predicate RunEnds(env: Env, cfg: Config, g: Group, p: Standing) {
    LimitReached(cfg, p) || (g.id !in p.onFly && NewTokens(env, cfg, g, p).uncached == 0)
  }

  predicate TooLongToRun(cfg: Config, g: Group) { cfg.useAsyncOutputProc && g.length > cfg.maxModelLen }

  /** Where the scan stands after a group: parked at no cost, stopped at the cost of one question,
      or chosen and charged. */
  ghost predicate RunFollows(env: Env, cfg: Config, t: Turn, v: Verdict, p': Standing) {
    var g, p, n := v.group, t.at, NewTokens(env, cfg, v.group, t.at).uncached;
    if IsChosen(v) then
      && p'.onFly == p.onFly + {g.id} && p'.loras == p.loras + (if g.lora > 0 then {g.lora} else {})
      && p'.clock == t.Asked(t.evicted) + 1 && p'.count == p.count + 1 && p'.tokens == p.tokens + 1
      && p'.batched == p.batched + n && p'.seqs == p.seqs + (if cfg.chunking then g.numSeqs else 0)
    else
      p' == if v.kind.Reserved? then p else p.(clock := p.clock + 1)
  }

  /** A turn that takes its group off the queue: it is parked if it is on the fly, stopped if it is
      too long, and else chosen, as soon as a slot is free, with its eviction of fewer groups than
      are behind it. */
  ghost predicate RunTurned(env: Env, cfg: Config, g: Group, t: Turn, v: Verdict, t': Turn) {
    var free := g.id !in t.at.onFly;
    && t.left > 0 && !RunEnds(env, cfg, g, t.at) && v.group == g
    && (v.kind.Reserved? <==> !free) && (v.kind.Stopped? <==> free && TooLongToRun(cfg, g))
    && (IsChosen(v) <==> free && !TooLongToRun(cfg, g))
    && (v.kind.Decode? ==> !g.isPrefill && v.chunk == 1)
    && (v.kind.Prefill? ==> g.isPrefill && v.chunk == NewTokens(env, cfg, g, t.at).uncached)
    && (if IsChosen(v) then t.evicted < t.left && env.canAppend(t.Asked(t.evicted), g)
        else t.evicted == 0 && v.chunk == 0)
    && NoSlot(env, g, t.Asked(0), t.Asked(t.evicted))
    && t'.left == t.left - 1 - t.evicted && RunFollows(env, cfg, t, v, t'.at)
  }

  /** The last turn: the queue is used up, or the scan ends in front of the group, or it evicts all
      that is left and then the group itself, never having found a slot. */
  ghost predicate RunOver(env: Env, cfg: Config, left: seq<Group>, t: Turn, rest: seq<Group>) {
    && t.left == |left|
    && if t.evicted == 0 then rest == left && (left != [] ==> RunEnds(env, cfg, left[0], t.at))
       else
         && left != [] && rest == [] && t.evicted == t.left && !RunEnds(env, cfg, left[0], t.at)
         && left[0].id !in t.at.onFly && !TooLongToRun(cfg, left[0])
         && NoSlot(env, left[0], t.Asked(0), t.Asked(t.evicted))
  }

  /** The victims of the k-th turn, whose groups end `skip` places before the end of the queue. */
  ghost predicate TurnEvicts(env: Env, cfg: Config, t: Turn, skip: int, victims: seq<Verdict>) {
    && 0 <= skip && skip + t.evicted <= |victims|
    && forall i: nat | i < t.evicted :: EvictedAs(env, cfg, t.Asked(i), victims[skip + i])
  }

  /** An account of a running scan of `q`: victims are taken from the end of the queue, one after
      the other, each in the turn of some group in front of it or in its own. */
  ghost predicate RunExplains(env: Env, cfg: Config, q: seq<Group>, h: seq<Turn>, scanned: seq<Verdict>,
                              victims: seq<Verdict>, rest: seq<Group>) {
    var n := |scanned|;
    && |h| == n + 1 <= |q| + 1 && h[0].left == |q| && n + h[n].left <= |q|
    && (forall k: nat | k < n :: RunTurned(env, cfg, q[k], h[k], scanned[k], h[k + 1]))
    && RunOver(env, cfg, q[n..n + h[n].left], h[n], rest)
    && |victims| == |q| - n - h[n].left + h[n].evicted && Backwards(q, victims)
    && (forall k: nat | k <= n :: TurnEvicts(env, cfg, h[k], |q| - k - h[k].left, victims))
  }

  ghost predicate Backwards(q: seq<Group>, victims: seq<Verdict>) {
    |victims| <= |q| && forall j: nat | j < |victims| :: victims[j].group == q[|q| - 1 - j]
  }

  lemma RunExplainsCons(env: Env, cfg: Config, q: seq<Group>, t: Turn, v: Verdict, front: seq<Verdict>,
                        h: seq<Turn>, scanned: seq<Verdict>, victims: seq<Verdict>, rest: seq<Group>)
    requires q != [] && t.left == |q| && |front| == t.evicted < |q|
    requires RunExplains(env, cfg, q[1..|q| - |front|], h, scanned, victims, rest)
    requires RunTurned(env, cfg, q[0], t, v, h[0])
    requires FromTail(env, cfg, q[0], q[1..], t.Asked(0), front)
    ensures RunExplains(env, cfg, q, [t] + h, [v] + scanned, front + victims, rest)
  {
    hide RunTurned, RunOver, TurnEvicts, Backwards, FromTail;
    var e, m := |front|, |scanned|;
    SliceOfSlice(q, e, m, m + h[m].left);
    TurnsCons(env, cfg, q, t, v, h, scanned, e);
    BackwardsCons(env, cfg, q, t.Asked(0), front, victims);
    EvictsCons(env, cfg, q, t, front, h, victims);
    assert ([t] + h)[m + 1] == h[m] && |[v] + scanned| == m + 1;
    hide *;
  }

  lemma TurnsCons(env: Env, cfg: Config, q: seq<Group>, t: Turn, v: Verdict, h: seq<Turn>, scanned: seq<Verdict>,
                  e: nat)
    requires |h| == |scanned| + 1 && e < |q| && |scanned| <= |q| - 1 - e && RunTurned(env, cfg, q[0], t, v, h[0])
    requires forall k: nat | k < |scanned| :: RunTurned(env, cfg, q[1..|q| - e][k], h[k], scanned[k], h[k + 1])
    ensures var h', s' := [t] + h, [v] + scanned;
      forall k: nat | k < |s'| :: RunTurned(env, cfg, q[k], h'[k], s'[k], h'[k + 1])
  {
    hide RunTurned;
    var h', s' := [t] + h, [v] + scanned;
    forall k: nat | k < |s'| ensures RunTurned(env, cfg, q[k], h'[k], s'[k], h'[k + 1]) {
      if k > 0 {
        assert RunTurned(env, cfg, q[1..|q| - e][k - 1], h[k - 1], scanned[k - 1], h[k - 1 + 1]);
      }
    }
  }

  lemma BackwardsCons(env: Env, cfg: Config, q: seq<Group>, clock: nat, front: seq<Verdict>, victims: seq<Verdict>)
    requires q != [] && |front| < |q| && FromTail(env, cfg, q[0], q[1..], clock, front)
    requires Backwards(q[1..|q| - |front|], victims)
    ensures Backwards(q, front + victims)
  {
    hide EvictedAs;
    var all, q' := front + victims, q[1..|q| - |front|];
    forall j: nat | j < |all| ensures all[j].group == q[|q| - 1 - j] {
      if j < |front| {
        assert front[j].group == q[1..][|q| - 2 - j];
      } else {
        assert victims[j - |front|].group == q'[|q'| - 1 - (j - |front|)];
      }
    }
  }

  lemma EvictsCons(env: Env, cfg: Config, q: seq<Group>, t: Turn, front: seq<Verdict>, h: seq<Turn>,
                   victims: seq<Verdict>)
    requires q != [] && t.left == |q| && |front| == t.evicted < |q|
    requires FromTail(env, cfg, q[0], q[1..], t.Asked(0), front)
    requires forall k: nat | k < |h| :: TurnEvicts(env, cfg, h[k], |q| - 1 - |front| - k - h[k].left, victims)
    ensures var h' := [t] + h;
      forall k: nat | k < |h'| :: TurnEvicts(env, cfg, h'[k], |q| - k - h'[k].left, front + victims)
  {
    FirstEvicts(env, cfg, q, t, front, victims);
    hide TurnEvicts, FromTail;
    var h' := [t] + h;
    forall k: nat | k < |h'| ensures TurnEvicts(env, cfg, h'[k], |q| - k - h'[k].left, front + victims) {
      if k > 0 {
        assert TurnEvicts(env, cfg, h[k - 1], |q| - 1 - |front| - (k - 1) - h[k - 1].left, victims);
        TurnShifts(env, cfg, h[k - 1], |q| - 1 - |front| - (k - 1) - h[k - 1].left, front, victims);
      }
    }
  }

  lemma SliceOfSlice(q: seq<Group>, e: nat, i: nat, j: nat)
    requires e < |q| && i <= j <= |q| - 1 - e
    ensures q[1..|q| - e][i..j] == q[i + 1..j + 1]
  {
    var a, b := q[1..|q| - e][i..j], q[i + 1..j + 1];
    assert forall k | 0 <= k < j - i :: a[k] == b[k];
  }

  lemma EvictsWhatIsLeft(env: Env, cfg: Config, left: seq<Group>, t: Turn, rest: seq<Group>)
    requires RunOver(env, cfg, left, t, rest)
    ensures t.evicted <= |left|
  {}

  lemma TurnShifts(env: Env, cfg: Config, t: Turn, skip: int, front: seq<Verdict>, victims: seq<Verdict>)
    requires TurnEvicts(env, cfg, t, skip, victims)
    ensures TurnEvicts(env, cfg, t, |front| + skip, front + victims)
  {
    hide EvictedAs;
    forall i: nat | i < t.evicted ensures EvictedAs(env, cfg, t.Asked(i), (front + victims)[|front| + skip + i]) {
      assert (front + victims)[|front| + (skip + i)] == victims[skip + i];
    }
  }

  lemma FirstEvicts(env: Env, cfg: Config, q: seq<Group>, t: Turn, front: seq<Verdict>, victims: seq<Verdict>)
    requires q != [] && |front| == t.evicted && FromTail(env, cfg, q[0], q[1..], t.Asked(0), front)
    ensures TurnEvicts(env, cfg, t, 0, front + victims)
  {
    hide EvictedAs;
    forall i: nat | i < t.evicted ensures EvictedAs(env, cfg, t.Asked(i), (front + victims)[0 + i]) {
      assert EvictedAs(env, cfg, t.Asked(0) + i, front[i]);
    }
  }

  /** What one judgment does, as a turn. */
  ghost predicate TurnOf(env: Env, cfg: Config, g: Group, tail: seq<Group>, j: RunJudgment, t: Turn) {
    && t.left == |tail| + 1
    && match j
       case Halt => t.evicted == 0 && RunEnds(env, cfg, g, t.at)
       case Take(v, victims, tail', b') =>
         && t.evicted == |victims| <= |tail| && tail' == tail[..|tail| - |victims|] && Uncharged(cfg, b')
         && RunTurned(env, cfg, g, t, v, Turn(Now(b'), |tail'|, 0))
         && FromTail(env, cfg, g, tail, t.Asked(0), victims)
       case GiveUp(victims, b') =>
         && t.evicted == |victims| == t.left && !RunEnds(env, cfg, g, t.at)
         && g.id !in t.at.onFly && !TooLongToRun(cfg, g)
         && NoSlot(env, g, t.Asked(0), t.Asked(t.evicted)) && FromTail(env, cfg, g, tail, t.Asked(0), victims)
         && Uncharged(cfg, b') && Now(b') == GivenUp(t, g)
  }

  ghost predicate Searches(env: Env, cfg: Config, g: Group, b: Books) {
    && !RunLimitReached(cfg, b) && g.id !in b.onFly && !TooLong(cfg, g)
    && env.newTokens(b.clock, g, b.budget.Remaining()).uncached > 0
  }

  lemma RunTurnExplained(env: Env, cfg: Config, g: Group, tail: seq<Group>, b: Books) returns (t: Turn)
    requires Uncharged(cfg, b)
    ensures t.at == Now(b) && TurnOf(env, cfg, g, tail, JudgeRunning(env, cfg, g, tail, b), t)
  {
    t := Turn(Now(b), |tail| + 1, 0);
    hide *;
    if Searches(env, cfg, g, b) {
      t := SearchTurn(env, cfg, g, tail, b);
    } else {
      QuickTurn(env, cfg, g, tail, b);
    }
  }

  /** A turn without a search. */
  lemma QuickTurn(env: Env, cfg: Config, g: Group, tail: seq<Group>, b: Books)
    requires Uncharged(cfg, b) && !Searches(env, cfg, g, b)
    ensures TurnOf(env, cfg, g, tail, JudgeRunning(env, cfg, g, tail, b), Turn(Now(b), |tail| + 1, 0))
  {
    hide MakeRoom, EvictedAs, ChooseRunning;
    assert tail[..|tail| - 0] == tail;
  }

  lemma SearchTurn(env: Env, cfg: Config, g: Group, tail: seq<Group>, b: Books) returns (t: Turn)
    requires Uncharged(cfg, b) && Searches(env, cfg, g, b)
    ensures t.at == Now(b) && TurnOf(env, cfg, g, tail, JudgeRunning(env, cfg, g, tail, b), t)
  {
    var n := env.newTokens(b.clock, g, b.budget.Remaining()).uncached;
    var room := MakeRoom(env, cfg, g, n, tail, b.Tick());
    RoomExplained(env, cfg, g, n, tail, b.Tick());
    t := Turn(Now(b), |tail| + 1, |room.victims|);
    assert n == NewTokens(env, cfg, g, t.at).uncached;
    assert Now(b.Tick()) == t.at.(clock := t.Asked(0));
    hide MakeRoom, EvictedAs, FromTail;
    if room.fits {
      ChosenFollows(env, cfg, g, n, b, t, room.books);
    }
    hide ChooseRunning, RunFollows;
  }

  lemma ChosenFollows(env: Env, cfg: Config, g: Group, n: nat, b: Books, t: Turn, b': Books)
    requires Uncharged(cfg, b) && g.id !in b.onFly && t.at == Now(b) && n == NewTokens(env, cfg, g, t.at).uncached
    requires b'.budget == b.budget
    requires Now(b') == t.at.(clock := t.Asked(t.evicted) + 1,
                              loras := if t.evicted > 0 && g.lora > 0 then t.at.loras - {g.lora} else t.at.loras)
    ensures var b2 := ChooseRunning(cfg, b', g, n);
      Uncharged(cfg, b2) && RunFollows(env, cfg, t, RunVerdict(g, n), Now(b2))
  {}

  /** Where a scan stands that has given up on a group. */
  function GivenUp(t: Turn, g: Group): Standing {
    t.at.(clock := t.Asked(t.evicted), loras := if g.lora > 0 then t.at.loras - {g.lora} else t.at.loras)
  }

  lemma GivesUp(env: Env, cfg: Config, q: seq<Group>, t: Turn, victims: seq<Verdict>)
    requires q != [] && t.left == |q| == t.evicted == |victims| && FromTail(env, cfg, q[0], q[1..], t.Asked(0), victims)
    requires RunOver(env, cfg, q, t, [])
    ensures RunExplains(env, cfg, q, [t], [], victims, [])
  {
    hide RunOver, EvictedAs;
    assert q[0..0 + t.left] == q;
    FirstEvicts(env, cfg, q, t, victims, []);
    assert victims + [] == victims;
    forall j: nat | j < |victims| ensures victims[j].group == q[|q| - 1 - j] {
      assert j < |q| - 1 ==> victims[j].group == q[1..][|q| - 2 - j];
    }
  }

  lemma OverGivenUp(env: Env, cfg: Config, q: seq<Group>, j: RunJudgment, t: Turn)
    requires q != [] && j.GiveUp? && TurnOf(env, cfg, q[0], q[1..], j, t)
    ensures RunOver(env, cfg, q, t, [])
  {
    hide RunEnds, NoSlot, FromTail;
  }

  lemma RunEndsAtOnce(env: Env, cfg: Config, q: seq<Group>, t: Turn)
    requires t.left == |q| && t.evicted == 0 && (q != [] ==> RunEnds(env, cfg, q[0], t.at))
    ensures RunExplains(env, cfg, q, [t], [], [], q)
  {
    hide RunEnds;
    assert q[0..0 + t.left] == q;
  }

  /** Where the scan stands after its last turn. */
  function Ended(t: Turn, q: seq<Group>, n: nat): Standing {
    if t.evicted == 0 || n >= |q| then t.at else GivenUp(t, q[n])
  }

  /** The running scan has an account that starts where its books do and ends where they end. */
  lemma {:induction false} RunScanExplained(env: Env, cfg: Config, q: seq<Group>, b: Books) returns (h: seq<Turn>)
    requires Uncharged(cfg, b)
    ensures var r := RunScan(env, cfg, q, b);
      && RunExplains(env, cfg, q, h, r.scanned, r.victims, r.rest) && h[0].at == Now(b)
      && Now(r.books) == Ended(h[|r.scanned|], q, |r.scanned|) && Uncharged(cfg, r.books)
    decreases |q|
  {
    hide RunTurned, RunEnds, Uncharged, Now, NoSlot, FromTail, RunExplains;
    h := [Turn(Now(b), 0, 0)];
    if q == [] {
      RunEndsAtOnce(env, cfg, q, h[0]);
      return;
    }
    var t := RunTurnExplained(env, cfg, q[0], q[1..], b);
    var j := JudgeRunning(env, cfg, q[0], q[1..], b);
    hide JudgeRunning, RunOver;
    if j.GiveUp? {
      OverGivenUp(env, cfg, q, j, t);
    }
    match j {
      case Halt =>
        RunEndsAtOnce(env, cfg, q, t);
        h := [t];
      case GiveUp(victims, b') =>
        GivesUp(env, cfg, q, t, victims);
        h := [t];
      case Take(v, victims, tail', b') =>
        assert tail' == q[1..|q| - |victims|];
        var later := RunScanExplained(env, cfg, tail', b');
        var r := RunScan(env, cfg, tail', b');
        LastTurn(env, cfg, tail', later, r.scanned, r.victims, r.rest);
        TurnMeets(env, cfg, q[0], t, v, Turn(Now(b'), |tail'|, 0), later[0]);
        RunExplainsCons(env, cfg, q, t, v, victims, later, r.scanned, r.victims, r.rest);
        h := [t] + later;
    }
  }

  lemma LastTurn(env: Env, cfg: Config, q: seq<Group>, h: seq<Turn>, scanned: seq<Verdict>, victims: seq<Verdict>,
                 rest: seq<Group>)
    requires RunExplains(env, cfg, q, h, scanned, victims, rest)
    ensures var n := |scanned|;
      && |h| == n + 1 && h[0].left == |q| && n + h[n].left <= |q| && (h[n].evicted > 0 ==> n < |q|)
      && |victims| <= |q| - n
  {
    EvictsWhatIsLeft(env, cfg, q[|scanned|..|scanned| + h[|scanned|].left], h[|scanned|], rest);
    hide RunTurned, RunOver, TurnEvicts;
  }

  lemma TurnMeets(env: Env, cfg: Config, g: Group, t: Turn, v: Verdict, t': Turn, u: Turn)
    requires RunTurned(env, cfg, g, t, v, t') && u.left == t'.left && u.at == t'.at
    ensures RunTurned(env, cfg, g, t, v, u)
  {
    hide RunEnds, RunFollows;
  }

  lemma RunExplainsTail(env: Env, cfg: Config, q: seq<Group>, h: seq<Turn>, scanned: seq<Verdict>,
                        victims: seq<Verdict>, rest: seq<Group>)
    requires RunExplains(env, cfg, q, h, scanned, victims, rest) && scanned != []
    ensures var e := h[0].evicted;
      && e < |q| && e <= |victims| && RunTurned(env, cfg, q[0], h[0], scanned[0], h[1])
      && RunExplains(env, cfg, q[1..|q| - e], h[1..], scanned[1..], victims[e..], rest)
  {
    hide RunTurned, RunOver, TurnEvicts, Backwards;
    FirstTurn(env, cfg, q, h, scanned, victims, rest);
    var n, e := |scanned|, h[0].evicted;
    assert n + h[n].left <= |q| - e && e <= |victims| < |q|;
    BackwardsTail(q, victims, e);
    SliceOfSlice(q, e, n - 1, n - 1 + h[n].left);
    TurnsTail(env, cfg, q, h, scanned, e);
    EvictsTail(env, cfg, q, h, victims, e);
    var h', s' := h[1..], scanned[1..];
    assert |h'| == |s'| + 1 && h'[|s'|] == h[n] && h'[0] == h[1] && |s'| == n - 1;
  }

  lemma BackwardsTail(q: seq<Group>, victims: seq<Verdict>, e: nat)
    requires Backwards(q, victims) && e <= |victims| < |q|
    ensures Backwards(q[1..|q| - e], victims[e..])
  {}

  lemma TurnsTail(env: Env, cfg: Config, q: seq<Group>, h: seq<Turn>, scanned: seq<Verdict>, e: nat)
    requires 1 < |h| == |scanned| + 1 && e < |q| && |scanned| <= |q| - e
    requires forall k: nat | k < |scanned| :: RunTurned(env, cfg, q[k], h[k], scanned[k], h[k + 1])
    ensures var q', h', s' := q[1..|q| - e], h[1..], scanned[1..];
      forall k: nat | k < |s'| :: RunTurned(env, cfg, q'[k], h'[k], s'[k], h'[k + 1])
  {
    hide RunTurned;
    var q', h', s' := q[1..|q| - e], h[1..], scanned[1..];
    forall k: nat | k < |s'| ensures RunTurned(env, cfg, q'[k], h'[k], s'[k], h'[k + 1]) {
      assert RunTurned(env, cfg, q[k + 1], h[k + 1], scanned[k + 1], h[k + 1 + 1]);
    }
  }

  lemma EvictsTail(env: Env, cfg: Config, q: seq<Group>, h: seq<Turn>, victims: seq<Verdict>, e: nat)
    requires h != [] && e < |q| && e <= |victims|
    requires forall k: nat | k < |h| :: TurnEvicts(env, cfg, h[k], |q| - k - h[k].left, victims)
    requires forall k: nat | 1 <= k < |h| :: k + h[k].left <= |q| - e
    ensures var q', h' := q[1..|q| - e], h[1..];
      forall k: nat | k < |h'| :: TurnEvicts(env, cfg, h'[k], |q'| - k - h'[k].left, victims[e..])
  {
    hide TurnEvicts;
    var q', h' := q[1..|q| - e], h[1..];
    forall k: nat | k < |h'| ensures TurnEvicts(env, cfg, h'[k], |q'| - k - h'[k].left, victims[e..]) {
      assert TurnEvicts(env, cfg, h[k + 1], |q| - (k + 1) - h[k + 1].left, victims);
      TurnDrops(env, cfg, h[k + 1], |q| - (k + 1) - h[k + 1].left, e, victims);
    }
  }

  lemma FirstTurn(env: Env, cfg: Config, q: seq<Group>, h: seq<Turn>, scanned: seq<Verdict>,
                  victims: seq<Verdict>, rest: seq<Group>)
    requires RunExplains(env, cfg, q, h, scanned, victims, rest) && scanned != []
    ensures var e := h[0].evicted;
      && e < |q| && e <= |victims| && RunTurned(env, cfg, q[0], h[0], scanned[0], h[1])
      && |victims| < |q| && h[1].left == |q| - 1 - e
      && forall k: nat | 1 <= k < |h| :: k + h[k].left <= |q| - e
  {
    LastTurn(env, cfg, q, h, scanned, victims, rest);
    hide RunOver, RunEnds, NoSlot, EvictedAs, RunFollows;
    assert RunTurned(env, cfg, q[0], h[0], scanned[0], h[0 + 1]);
    assert TurnEvicts(env, cfg, h[0], |q| - 0 - h[0].left, victims);
    assert h[0].evicted < |q| && h[1].left == |q| - 1 - h[0].evicted;
    hide RunTurned, TurnEvicts;
    forall k: nat | 1 <= k < |h| ensures k + h[k].left <= |q| - h[0].evicted {
      LeftShrinks(env, cfg, q, h, scanned, k);
    }
  }

  /** Each turn takes its group and its victims off the queue. */
  lemma {:induction false} LeftShrinks(env: Env, cfg: Config, q: seq<Group>, h: seq<Turn>, scanned: seq<Verdict>,
                                       k: nat)
    requires |h| == |scanned| + 1 <= |q| + 1 && 1 <= k < |h| && h[0].left == |q|
    requires forall k: nat | k < |scanned| :: RunTurned(env, cfg, q[k], h[k], scanned[k], h[k + 1])
    ensures k + h[k].left <= |q| - h[0].evicted && (k < |scanned| ==> k + h[k].left > 0)
  {
    assert RunTurned(env, cfg, q[k - 1], h[k - 1], scanned[k - 1], h[k - 1 + 1]);
    if k > 1 {
      LeftShrinks(env, cfg, q, h, scanned, k - 1);
    }
  }

  lemma TurnDrops(env: Env, cfg: Config, t: Turn, skip: int, e: nat, victims: seq<Verdict>)
    requires TurnEvicts(env, cfg, t, skip, victims) && e <= skip
    ensures TurnEvicts(env, cfg, t, skip - e, victims[e..])
  {
    hide EvictedAs;
    forall i: nat | i < t.evicted ensures EvictedAs(env, cfg, t.Asked(i), victims[e..][skip - e + i]) {
      assert victims[e..][skip - e + i] == victims[skip + i];
      assert EvictedAs(env, cfg, t.Asked(i), victims[skip + i]);
    }
  }

  /** From one standing a turn goes one way only. */
  lemma RunTurnDetermined(env: Env, cfg: Config, g: Group, t: Turn, v: Verdict, t': Turn, u: Turn, w: Verdict, u': Turn)
    requires RunTurned(env, cfg, g, t, v, t') && RunTurned(env, cfg, g, u, w, u') && t.at == u.at && t.left == u.left
    ensures t == u && v == w && t'.at == u'.at && t'.left == u'.left
  {
    hide RunEnds;
    assert env.canAppend(t.Asked(t.evicted), g) || !IsChosen(v);
    assert env.canAppend(u.Asked(u.evicted), g) || !IsChosen(w);
  }

  lemma TurnOrOver(env: Env, cfg: Config, left: seq<Group>, t: Turn, v: Verdict, t': Turn, u: Turn, rest: seq<Group>)
    requires left != [] && RunTurned(env, cfg, left[0], t, v, t') && t.at == u.at && t.left == u.left
    ensures !RunOver(env, cfg, left, u, rest)
  {
    hide RunEnds;
    assert env.canAppend(t.Asked(t.evicted), left[0]) || !IsChosen(v);
  }

  lemma OverDetermined(env: Env, cfg: Config, left: seq<Group>, t: Turn, rest: seq<Group>, u: Turn, rest': seq<Group>)
    requires RunOver(env, cfg, left, t, rest) && RunOver(env, cfg, left, u, rest') && t.at == u.at
    ensures t == u && rest == rest'
  {
    hide RunEnds;
  }

  lemma SameVictims(env: Env, cfg: Config, t: Turn, v1: seq<Verdict>, v2: seq<Verdict>, i: nat)
    requires TurnEvicts(env, cfg, t, 0, v1) && TurnEvicts(env, cfg, t, 0, v2) && i < t.evicted
    requires v1[i].group == v2[i].group
    ensures v1[i] == v2[i]
  {
    assert EvictedAs(env, cfg, t.Asked(i), v1[0 + i]) && EvictedAs(env, cfg, t.Asked(i), v2[0 + i]);
  }

  lemma FirstVictims(env: Env, cfg: Config, q: seq<Group>, t: Turn,
                     h1: seq<Turn>, s1: seq<Verdict>, v1: seq<Verdict>, r1: seq<Group>,
                     h2: seq<Turn>, s2: seq<Verdict>, v2: seq<Verdict>, r2: seq<Group>)
    requires RunExplains(env, cfg, q, h1, s1, v1, r1) && RunExplains(env, cfg, q, h2, s2, v2, r2)
    requires h1[0] == h2[0] == t
    ensures t.evicted <= |v1| && t.evicted <= |v2| && v1[..t.evicted] == v2[..t.evicted]
  {
    LastTurn(env, cfg, q, h1, s1, v1, r1);
    hide RunTurned, RunOver, EvictedAs;
    assert TurnEvicts(env, cfg, h1[0], |q| - 0 - h1[0].left, v1);
    assert TurnEvicts(env, cfg, h2[0], |q| - 0 - h2[0].left, v2);
    forall i: nat | i < t.evicted ensures v1[i] == v2[i] {
      assert v1[i].group == q[|q| - 1 - i] == v2[i].group;
      SameVictims(env, cfg, t, v1, v2, i);
    }
  }

  lemma NoTurns(env: Env, cfg: Config, q: seq<Group>, h: seq<Turn>, victims: seq<Verdict>, rest: seq<Group>)
    requires RunExplains(env, cfg, q, h, [], victims, rest)
    ensures |h| == 1 && h[0].left == |q| && RunOver(env, cfg, q, h[0], rest) && |victims| == h[0].evicted
  {
    assert q[0..0 + h[0].left] == q;
    hide RunTurned, RunOver, TurnEvicts;
  }

  lemma Whole<T>(a: seq<T>, b: seq<T>, k: nat)
    requires k <= |a| && k <= |b| && (a[..k] == b[..k] || (k == 1 && a[0] == b[0])) && a[k..] == b[k..]
    ensures a == b
  {
    assert a == a[..k] + a[k..] && b == b[..k] + b[k..];
  }

  /** From one start there is only one account of a running scan. */
  lemma {:induction false} OneRunAccount(env: Env, cfg: Config, q: seq<Group>,
                                         h1: seq<Turn>, s1: seq<Verdict>, v1: seq<Verdict>, r1: seq<Group>,
                                         h2: seq<Turn>, s2: seq<Verdict>, v2: seq<Verdict>, r2: seq<Group>)
    requires RunExplains(env, cfg, q, h1, s1, v1, r1) && RunExplains(env, cfg, q, h2, s2, v2, r2)
    requires h1[0].at == h2[0].at
    ensures h1 == h2 && s1 == s2 && v1 == v2 && r1 == r2
    decreases |q|
  {
    hide *;
    LastTurn(env, cfg, q, h1, s1, v1, r1);
    LastTurn(env, cfg, q, h2, s2, v2, r2);
    if s1 != [] { RunExplainsTail(env, cfg, q, h1, s1, v1, r1); }
    if s2 != [] { RunExplainsTail(env, cfg, q, h2, s2, v2, r2); }
    if s1 == [] { NoTurns(env, cfg, q, h1, v1, r1); }
    if s2 == [] { NoTurns(env, cfg, q, h2, v2, r2); }
    if s1 != [] && s2 != [] {
      RunTurnDetermined(env, cfg, q[0], h1[0], s1[0], h1[1], h2[0], s2[0], h2[1]);
      var e := h1[0].evicted;
      OneRunAccount(env, cfg, q[1..|q| - e], h1[1..], s1[1..], v1[e..], r1, h2[1..], s2[1..], v2[e..], r2);
      FirstVictims(env, cfg, q, h1[0], h1, s1, v1, r1, h2, s2, v2, r2);
      Whole(v1, v2, e);
      Whole(s1, s2, 1);
      Whole(h1, h2, 1);
    } else if s1 == [] && s2 == [] {
      OverDetermined(env, cfg, q, h1[0], r1, h2[0], r2);
      FirstVictims(env, cfg, q, h1[0], h1, s1, v1, r1, h2, s2, v2, r2);
      Whole(v1, v2, |v1|);
      Whole(h1, h2, 1);
    } else if s1 != [] {
      TurnOrOver(env, cfg, q, h1[0], s1[0], h1[1], h2[0], r2);
    } else {
      TurnOrOver(env, cfg, q, h2[0], s2[0], h2[1], h1[0], r1);
    }
  }

  // ------------------------------------------------------------- the whole step

  /** A victim of the running scan went back to the waiting or to the swapped queue. */
  ghost predicate Preempts(s: Scans) {
    exists j :: 0 <= j < |s.run.victims| && (s.run.victims[j].kind.Preempted? || s.run.victims[j].kind.SwappedOut?)
  }

  /** The scans of a step charge one budget and share the marks; each counts for itself. */
  function NewScan(p: Standing): Standing { p.(count := 0, tokens := 0) }

  /** The account of a queue that is not scanned. */
  ghost predicate LeftAlone(q: seq<Group>, p: Standing, r: ScanResult, h: seq<Standing>) {
    r.scanned == [] && r.rest == q && h == [p]
  }

  /** The three scans of a step: first the running queue, with everything uncharged; then the
      swapped queue, exactly if nothing was preempted; then the waiting queue, exactly if token
      budget is left. */
  ghost predicate StepExplains(env: Env, cfg: Config, q: Queues, start: Standing, s: Scans, run: seq<Turn>,
                               swap: seq<Standing>, wait: seq<Standing>) {
    && RunExplains(env, cfg, q.running, run, s.run.scanned, s.run.victims, s.run.rest)
    && run[0].at == start && |swap| == |s.swap.scanned| + 1
    && swap[0] == NewScan(Ended(run[|s.run.scanned|], q.running, |s.run.scanned|))
    && (if Preempts(s) then LeftAlone(q.swapped, swap[0], s.swap, swap)
        else Explains(Swapped, env, cfg, q.swapped, swap, s.swap.scanned, s.swap.rest))
    && var p := NewScan(swap[|s.swap.scanned|]);
    && wait != [] && wait[0] == p
    && (if p.batched == cfg.maxNumBatchedTokens then LeftAlone(q.waiting, p, s.wait, wait)
        else Explains(Waiting, env, cfg, q.waiting, wait, s.wait.scanned, s.wait.rest))
    && |wait| == |s.wait.scanned| + 1 && wait[|s.wait.scanned|] == Now(s.wait.books)
  }

  lemma {:induction false} PickedSome(tr: seq<Verdict>, k: Kind)
    ensures Picked(tr, k) != [] <==> exists j :: 0 <= j < |tr| && tr[j].kind == k
  {
    if tr != [] {
      PickedSome(tr[1..], k);
      if tr[0].kind != k {
        assert Picked(tr, k) == Picked(tr[1..], k);
        if exists j :: 0 <= j < |tr| && tr[j].kind == k {
          var j :| 0 <= j < |tr| && tr[j].kind == k;
          assert tr[1..][j - 1].kind == k;
        }
      }
    }
  }

  lemma PreemptsWhen(s: Scans)
    ensures Preempts(s) <==> Picked(s.run.victims, Preempted) + Picked(s.run.victims, SwappedOut) != []
  {
    PickedSome(s.run.victims, Preempted);
    PickedSome(s.run.victims, SwappedOut);
  }

  lemma NewScanNow(cfg: Config, b: Books)
    ensures Now(b.NewScan()) == NewScan(Now(b)) && (Uncharged(cfg, b) ==> Uncharged(cfg, b.NewScan()))
    ensures Uncharged(cfg, b) ==> (b.budget.Remaining() == 0 <==> NewScan(Now(b)).batched == cfg.maxNumBatchedTokens)
  {}

  /** Every chunked step has such an account, and its assertions compare what it ends with. */
  lemma StepExplained(env: Env, cfg: Config, q: Queues, onFly: set<Id>, clock: nat)
    returns (run: seq<Turn>, swap: seq<Standing>, wait: seq<Standing>)
    ensures StepExplains(env, cfg, q, Standing(onFly, {}, clock, 0, 0, 0, 0), RunScans(env, cfg, q, onFly, clock),
                         run, swap, wait)
    ensures var end := wait[|wait| - 1];
      BudgetHeld(cfg, RunScans(env, cfg, q, onFly, clock))
      <==> end.batched <= cfg.maxNumBatchedTokens && end.seqs <= cfg.maxNumSeqs
  {
    hide *;
    var b := Books(onFly, FreshBudget(cfg), {}, clock, 0, 0);
    var s := RunScans(env, cfg, q, onFly, clock);
    Starts(cfg, onFly, clock);
    ScansAre(env, cfg, q, onFly, clock);
    run := RunScanExplained(env, cfg, q.running, b);
    NewScanNow(cfg, s.run.books);
    swap := AccountOf(Swapped, env, cfg, q.swapped, s.run.books.NewScan(), !Preempts(s), s.swap);
    NewScanNow(cfg, s.swap.books);
    var left := s.swap.books.budget.Remaining() != 0;
    wait := AccountOf(Waiting, env, cfg, q.waiting, s.swap.books.NewScan(), left, s.wait);
    HeldWhen(cfg, s);
    Accounts(env, cfg, q, Now(b), s, run, swap, wait);
  }

  lemma Starts(cfg: Config, onFly: set<Id>, clock: nat)
    ensures var b := Books(onFly, FreshBudget(cfg), {}, clock, 0, 0);
      Uncharged(cfg, b) && Now(b) == Standing(onFly, {}, clock, 0, 0, 0, 0)
  {}

  lemma ScansAre(env: Env, cfg: Config, q: Queues, onFly: set<Id>, clock: nat)
    ensures var s := RunScans(env, cfg, q, onFly, clock);
      && s.run == RunScan(env, cfg, q.running, Books(onFly, FreshBudget(cfg), {}, clock, 0, 0))
      && s.swap == ScanIf(Swapped, env, cfg, q.swapped, s.run.books.NewScan(), !Preempts(s))
      && s.wait == ScanIf(Waiting, env, cfg, q.waiting, s.swap.books.NewScan(), s.swap.books.budget.Remaining() != 0)
  {
    hide RunScan, QueueScan, Picked, Preempts;
    PreemptsWhen(RunScans(env, cfg, q, onFly, clock));
  }

  function ScanIf(which: Queue, env: Env, cfg: Config, q: seq<Group>, b: Books, yes: bool): ScanResult {
    if yes then QueueScan(which, env, cfg, q, b) else Unscanned(q, b)
  }

  /** What a scan, if it takes place, and its account amount to. */
  ghost predicate Accounted(which: Queue, env: Env, cfg: Config, q: seq<Group>, p: Standing, yes: bool, r: ScanResult,
                            h: seq<Standing>) {
    && |h| == |r.scanned| + 1 && h[0] == p && h[|r.scanned|] == Now(r.books)
    && if yes then Explains(which, env, cfg, q, h, r.scanned, r.rest) else LeftAlone(q, p, r, h)
  }

  lemma AccountOf(which: Queue, env: Env, cfg: Config, q: seq<Group>, b: Books, yes: bool, r: ScanResult)
    returns (h: seq<Standing>)
    requires Uncharged(cfg, b) && r == ScanIf(which, env, cfg, q, b, yes)
    ensures Accounted(which, env, cfg, q, Now(b), yes, r, h) && Uncharged(cfg, r.books)
  {
    hide QueueScan, Uncharged, Explains, Now;
    if yes {
      h := QueueScanExplained(which, env, cfg, q, b);
      ExplainsLength(which, env, cfg, q, h, r.scanned, r.rest);
    } else {
      h := [Now(b)];
    }
  }

  lemma Accounts(env: Env, cfg: Config, q: Queues, start: Standing, s: Scans, run: seq<Turn>, swap: seq<Standing>,
                 wait: seq<Standing>)
    requires RunExplains(env, cfg, q.running, run, s.run.scanned, s.run.victims, s.run.rest) && run[0].at == start
    requires Accounted(Swapped, env, cfg, q.swapped, NewScan(Ended(run[|s.run.scanned|], q.running, |s.run.scanned|)),
                       !Preempts(s), s.swap, swap)
    requires var p := NewScan(Now(s.swap.books));
      Accounted(Waiting, env, cfg, q.waiting, p, p.batched != cfg.maxNumBatchedTokens, s.wait, wait)
    ensures StepExplains(env, cfg, q, start, s, run, swap, wait)
    ensures wait[|wait| - 1] == Now(s.wait.books)
  {
    hide RunExplains, Explains, Preempts, Now, Ended, LeftAlone;
  }

  lemma HeldWhen(cfg: Config, s: Scans)
    ensures var end := Now(s.wait.books);
      BudgetHeld(cfg, s) <==> end.batched <= cfg.maxNumBatchedTokens && end.seqs <= cfg.maxNumSeqs
  {}

  lemma ExplainsLength(which: Queue, env: Env, cfg: Config, q: seq<Group>, h: seq<Standing>, scanned: seq<Verdict>,
                       rest: seq<Group>)
    requires Explains(which, env, cfg, q, h, scanned, rest)
    ensures |h| == |scanned| + 1
  {
    hide Turned, Ends;
  }
}
