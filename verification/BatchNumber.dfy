/** How many micro-batches the engine keeps going, and the latency estimate behind it. */
module BatchNumber {
  import opened SchedulerSpec
  import Scheduler
  import opened EngineRuns

  // ------------------------------------------------------ latency interpolation

  /** A profile: sampled batch sizes in increasing order, and a latency for each. */
  datatype Profile = Profile(keys: seq<nat>, latency: map<nat, real>)
  {
    ghost predicate Valid() {
      && keys != [] && keys[0] == 1
      && (forall i, j | 0 <= i < j < |keys| :: keys[i] < keys[j])
      && (forall k | k in keys :: k in latency)
    }
  }

  predicate Brackets(p: Profile, i: nat, size: nat)
    requires i + 1 < |p.keys|
  {
    p.keys[i] <= size <= p.keys[i + 1]
  }

  /** The estimate between the samples at `keys[i]` and `keys[i + 1]`. */
  function Between(p: Profile, i: nat, size: nat): real
    requires p.Valid() && i + 1 < |p.keys|
  {
    var left, right := p.latency[p.keys[i]], p.latency[p.keys[i + 1]];
    left + Times(right - left, Fraction(p.keys[i], p.keys[i + 1], size))
  }

  function Times(x: real, y: real): real { x * y }

  function Fraction(left: nat, right: nat, size: nat): real
    requires left < right
  {
    (size - left) as real / (right - left) as real
  }

  function FirstBracket(p: Profile, i: nat, size: nat): (r: nat)
    requires i < |p.keys|
    ensures i <= r < |p.keys|
    ensures r + 1 < |p.keys| ==> Brackets(p, r, size)
    ensures forall j | i <= j < r :: !Brackets(p, j, size)
    decreases |p.keys| - i
  {
    if i + 1 == |p.keys| || Brackets(p, i, size) then i else FirstBracket(p, i + 1, size)
  }

  /** The estimate for a batch size: interpolated inside the profile, and the latency of a
      single request for every size outside it. */
  function Latency(p: Profile, size: nat): real
    requires p.Valid()
  {
    if size == 1 then p.latency[1]
    else
      var i := FirstBracket(p, 0, size);
      if i + 1 < |p.keys| then Between(p, i, size) else p.latency[1]
  }

  method ComputeLatency(p: Profile, size: nat) returns (r: real)
    requires p.Valid()
    ensures r == Latency(p, size)
  {
    var left, right := 1, 1;
    if size == 1 {
      return p.latency[1];
    }
    var i := 0;
    while i < |p.keys| - 1
      invariant i <= |p.keys| - 1 && left == right == 1
      invariant FirstBracket(p, 0, size) == FirstBracket(p, i, size)
    {
      if p.keys[i] <= size && p.keys[i + 1] >= size {
        left, right := p.keys[i], p.keys[i + 1];
        break;
      }
      i := i + 1;
    }
    if left == right {
      return p.latency[left];
    }
    var leftLatency, rightLatency := p.latency[left], p.latency[right];
    r := leftLatency + (rightLatency - leftLatency) * ((size - left) as real / (right - left) as real);
  }

  lemma FractionBounds(left: nat, right: nat, s1: nat, s2: nat)
    requires left < right && left <= s1 <= s2 <= right
    ensures 0.0 <= Fraction(left, right, s1) <= Fraction(left, right, s2) <= 1.0
    ensures s1 == left ==> Fraction(left, right, s1) == 0.0
    ensures s2 == right ==> Fraction(left, right, s2) == 1.0
  {
    var d := (right - left) as real;
    DivideMonotone(0.0, (s1 - left) as real, d);
    DivideMonotone((s1 - left) as real, (s2 - left) as real, d);
    DivideMonotone((s2 - left) as real, d, d);
  }

  lemma DivideMonotone(a: real, b: real, d: real)
    requires a <= b && d > 0.0
    ensures a / d <= b / d
  {
    assert (b - a) / d >= 0.0;
    assert b / d == a / d + (b - a) / d;
  }

  lemma TimesMonotone(d: real, x: real, y: real)
    requires 0.0 <= d && x <= y
    ensures Times(d, x) <= Times(d, y)
  {
    ProductNonNegative(d, y - x);
  }

  lemma TimesWithin(d: real, t: real)
    requires 0.0 <= t <= 1.0
    ensures 0.0 <= d ==> 0.0 <= Times(d, t) <= d
    ensures d <= 0.0 ==> d <= Times(d, t) <= 0.0
  {
    if 0.0 <= d {
      ProductNonNegative(d, t);
      ProductNonNegative(d, 1.0 - t);
    } else {
      ProductNonNegative(-d, t);
      ProductNonNegative(-d, 1.0 - t);
    }
  }

  lemma ProductNonNegative(x: real, y: real)
    requires 0.0 <= x && 0.0 <= y
    ensures 0.0 <= x * y
  {}

  /** Inside the profile some pair of neighbouring samples brackets the size. */
  lemma {:induction false} BracketExists(p: Profile, i: nat, size: nat)
    requires p.Valid() && i < |p.keys| && p.keys[i] <= size <= p.keys[|p.keys| - 1]
    requires |p.keys| > 1
    ensures i + 1 < |p.keys| ==> FirstBracket(p, i, size) + 1 < |p.keys|
    decreases |p.keys| - i
  {
    if i + 1 < |p.keys| && !Brackets(p, i, size) {
      assert p.keys[i + 1] < size;
      if i + 2 < |p.keys| {
        BracketExists(p, i + 1, size);
      }
    }
  }

  ghost predicate Increasing(p: Profile)
    requires p.Valid()
  {
    forall i, j | 0 <= i < j < |p.keys| :: p.latency[p.keys[i]] <= p.latency[p.keys[j]]
  }

  /** Any pair of samples that brackets the size gives the same estimate. */
  lemma AnyBracket(p: Profile, i: nat, size: nat)
    requires p.Valid() && i + 1 < |p.keys| && Brackets(p, i, size)
    ensures Latency(p, size) == Between(p, i, size)
  {
    FractionBounds(p.keys[i], p.keys[i + 1], size, size);
    var f := FirstBracket(p, 0, size);
    assert f <= i;
    FractionBounds(p.keys[f], p.keys[f + 1], size, size);
    if f < i {
      assert p.keys[f + 1] <= p.keys[i];
      assert f + 1 == i && size == p.keys[i];
    }
    if size == 1 {
      assert p.keys[0] == 1;
      assert i == 0;
    }
  }

  /** The estimate is exact at every sampled size. */
  lemma ExactAtSamples(p: Profile, i: nat)
    requires p.Valid() && i < |p.keys|
    ensures Latency(p, p.keys[i]) == p.latency[p.keys[i]]
  {
    if i + 1 < |p.keys| {
      AnyBracket(p, i, p.keys[i]);
      FractionBounds(p.keys[i], p.keys[i + 1], p.keys[i], p.keys[i]);
    } else if i > 0 {
      AnyBracket(p, i - 1, p.keys[i]);
      FractionBounds(p.keys[i - 1], p.keys[i], p.keys[i], p.keys[i]);
    }
  }

  /** Between two neighbouring samples the estimate lies between theirs. */
  lemma WithinNeighbours(p: Profile, i: nat, size: nat)
    requires p.Valid() && i + 1 < |p.keys| && Brackets(p, i, size)
    ensures var a, b := p.latency[p.keys[i]], p.latency[p.keys[i + 1]];
      (if a <= b then a else b) <= Latency(p, size) <= (if a <= b then b else a)
  {
    AnyBracket(p, i, size);
    FractionBounds(p.keys[i], p.keys[i + 1], size, size);
    var a, b := p.latency[p.keys[i]], p.latency[p.keys[i + 1]];
    var t := Fraction(p.keys[i], p.keys[i + 1], size);
    TimesWithin(b - a, t);
    hide Latency, Fraction, Times;
  }

  lemma {:induction false} FirstBracketMonotone(p: Profile, i: nat, s1: nat, s2: nat)
    requires p.Valid() && i < |p.keys| && p.keys[i] <= s1 <= s2
    ensures FirstBracket(p, i, s1) <= FirstBracket(p, i, s2)
    decreases |p.keys| - i
  {
    if i + 1 < |p.keys| && !Brackets(p, i, s1) {
      FirstBracketMonotone(p, i + 1, s1, s2);
    }
  }

  /** If the samples increase, so does the estimate, over the whole sampled range. */
  lemma MonotoneInRange(p: Profile, s1: nat, s2: nat)
    requires p.Valid() && Increasing(p)
    requires 1 <= s1 <= s2 <= p.keys[|p.keys| - 1]
    ensures Latency(p, s1) <= Latency(p, s2)
  {
    if |p.keys| == 1 { return; }
    BracketExists(p, 0, s1);
    BracketExists(p, 0, s2);
    var i, j := FirstBracket(p, 0, s1), FirstBracket(p, 0, s2);
    FirstBracketMonotone(p, 0, s1, s2);
    AnyBracket(p, i, s1);
    AnyBracket(p, j, s2);
    hide Latency, FirstBracket, Between;
    if i == j {
      SameBracket(p, i, s1, s2);
    } else {
      WithinNeighbours(p, i, s1);
      WithinNeighbours(p, j, s2);
      assert i + 1 == j || p.latency[p.keys[i + 1]] <= p.latency[p.keys[j]];
    }
  }

  lemma SameBracket(p: Profile, i: nat, s1: nat, s2: nat)
    requires p.Valid() && Increasing(p) && i + 1 < |p.keys|
    requires s1 <= s2 && Brackets(p, i, s1) && Brackets(p, i, s2)
    ensures Between(p, i, s1) <= Between(p, i, s2)
  {
    var a, b := p.latency[p.keys[i]], p.latency[p.keys[i + 1]];
    var t1, t2 := Fraction(p.keys[i], p.keys[i + 1], s1), Fraction(p.keys[i], p.keys[i + 1], s2);
    FractionBounds(p.keys[i], p.keys[i + 1], s1, s2);
    TimesMonotone(b - a, t1, t2);
    hide Times, Fraction;
  }

  /** Beyond the largest sample the estimate falls back to that of a single request, so for
      increasing samples it keeps its bound exactly up to the largest sample. */
  lemma BeyondRange(p: Profile, size: nat)
    requires p.Valid() && Increasing(p)
    requires p.latency[1] < p.latency[p.keys[|p.keys| - 1]]
    requires p.keys[|p.keys| - 1] <= size
    ensures Latency(p, size) >= p.latency[p.keys[|p.keys| - 1]] <==> size == p.keys[|p.keys| - 1]
  {
    ExactAtSamples(p, |p.keys| - 1);
    if size > p.keys[|p.keys| - 1] {
      var i := FirstBracket(p, 0, size);
      if i + 1 < |p.keys| {
        assert false;
      }
    }
  }

  /** Outside the sampled sizes, the estimate is the latency of a single request. */
  lemma OutsideRange(p: Profile, size: nat)
    requires p.Valid() && (size == 0 || p.keys[|p.keys| - 1] < size)
    ensures Latency(p, size) == p.latency[1]
  {}

  /** Between two samples the estimate grows by the same amount from each size to the next, and by
      the difference of the samples in all. */
  lemma EvenSteps(p: Profile, i: nat, size: nat)
    requires p.Valid() && i + 1 < |p.keys| && Brackets(p, i, size) && Brackets(p, i, size + 1)
    ensures Times((p.keys[i + 1] - p.keys[i]) as real, Latency(p, size + 1) - Latency(p, size))
         == p.latency[p.keys[i + 1]] - p.latency[p.keys[i]]
  {
    AnyBracket(p, i, size);
    AnyBracket(p, i, size + 1);
    var d, left, right := p.latency[p.keys[i + 1]] - p.latency[p.keys[i]], p.keys[i], p.keys[i + 1];
    hide Latency, Times, Fraction, Brackets;
    var x, y := Fraction(left, right, size), Fraction(left, right, size + 1);
    assert Latency(p, size + 1) - Latency(p, size) == Times(d, y) - Times(d, x);
    StepFraction(left, right, size);
    Factor(d, x, y, (right - left) as real);
  }

  lemma StepFraction(left: nat, right: nat, size: nat)
    requires left < right
    ensures Times((right - left) as real, Fraction(left, right, size + 1) - Fraction(left, right, size)) == 1.0
  {}

  lemma Factor(d: real, x: real, y: real, w: real)
    requires Times(w, y - x) == 1.0
    ensures Times(w, Times(d, y) - Times(d, x)) == d
  {
    assert w * (d * y - d * x) == d * (w * (y - x));
  }

  // --------------------------------------------------------------- batch count

  const BASE_BATCH_NUM := 2

  datatype Model = Model(profile: Profile, typeSize: nat, hiddenSize: nat)

  /** Milliseconds over a 1000 Mbps link with 5 ms latency. */
  function TransmissionLatency(m: Model, size: nat): real {
    (m.typeSize * m.hiddenSize * size) as real / 1000000000.0 * 1000.0 + 5.0
  }

  const SYSTEM_OVERHEAD := 5.0

  /** With `n` batches the computation hides the transmission bubbles. */
  predicate HidesBubble(m: Model, requests: nat, n: nat)
    requires m.profile.Valid() && n > 0
  {
    (n - BASE_BATCH_NUM) as real * (Latency(m.profile, requests / n) + SYSTEM_OVERHEAD)
      >= BASE_BATCH_NUM as real * TransmissionLatency(m, requests / n)
  }

  /** In milliseconds: while one of `n` batches is sent twice over the link, at a million units of
      its size each and 5 for the latency, the computing of `n - 2` others, and 5 of overhead for
      each of them, must take no less time. */
  lemma HidesWhen(m: Model, requests: nat, n: nat)
    requires m.profile.Valid() && n > 0
    ensures var size := m.typeSize * m.hiddenSize * (requests / n);
      HidesBubble(m, requests, n)
      <==> (n - 2) as real * (Latency(m.profile, requests / n) + 5.0) >= 2.0 * (size as real / 1000000.0) + 10.0
  {}

  class BatchPlanner {
    const scheduler: Scheduler.MolinkScheduler
    const model: Model

    constructor (scheduler: Scheduler.MolinkScheduler, model: Model)
      ensures this.scheduler == scheduler && this.model == model
    {
      this.scheduler, this.model := scheduler, model;
    }

    method BubbleHidden(numRequests: nat, batchNum: nat) returns (hidden: bool)
      requires model.profile.Valid() && batchNum > 0
      ensures hidden == HidesBubble(model, numRequests, batchNum)
    {
      var size := numRequests / batchNum;
      var compute := ComputeLatency(model.profile, size);
      var single := compute + SYSTEM_OVERHEAD;
      var bubble := BASE_BATCH_NUM as real * TransmissionLatency(model, size);
      hidden := (batchNum - BASE_BATCH_NUM) as real * single >= bubble;
    }

    /** The plan for `n` batches: without chunked prefill, the least count that hides the bubble,
        or the maximum, with the schedule limit that spreads the requests over the batches; for
        one or two requests the limit set before stays. With it, two batches, whose decode limits
        are half of the running decodes and one more. */
    ghost predicate Planned(before: Config, n: nat)
      requires before.chunking || model.profile.Valid()
      reads scheduler
    {
      var requests := |scheduler.waiting| + |scheduler.running|;
      if before.chunking then
        && n == 2
        && scheduler.config == before.(decodeTokenLimit := |DecodesAt(scheduler.running)| as real / 2.0 + 1.0)
      else if requests <= 2 then
        n == (if requests == 2 then 2 else 1) && scheduler.config == before
      else
        && 2 < n <= MAX_BATCH_NUM && (n == MAX_BATCH_NUM || HidesBubble(model, requests, n))
        && (forall k | 2 < k < n :: !HidesBubble(model, requests, k))
        && scheduler.config == before.(scheduleLimit := requests / n + 1)
    }

    /** The profile is only filled, and only needed, without chunked prefill. */
    method CalculateBatchNum() returns (n: nat)
      requires scheduler.config.chunking || model.profile.Valid()
      requires scheduler.config.scheduleLimit >= 1
      modifies scheduler`config
      ensures 1 <= n <= MAX_BATCH_NUM && scheduler.config.scheduleLimit >= 1
      ensures scheduler.config.chunking == old(scheduler.config.chunking)
      ensures Planned(old(scheduler.config), n)
    {
      hide HidesBubble;
      if scheduler.config.chunking {
        n := CalculateBatchNumChunkedPrefill();
      } else {
        n := CalculateBatchNumDefault();
      }
    }

    /** The batch count, with the schedule limit set to match: together they always cover all
        requests, also when an early return keeps an older limit. */
    method CalculateBatchNumDefault() returns (n: nat)
      requires model.profile.Valid() && scheduler.config.scheduleLimit >= 1
      modifies scheduler`config
      ensures
        var requests := |scheduler.waiting| + |scheduler.running|;
        && 1 <= n <= MAX_BATCH_NUM
        && n * scheduler.config.scheduleLimit >= requests && scheduler.config.scheduleLimit >= 1
        && (requests <= BASE_BATCH_NUM ==>
              n == (if requests <= 1 then 1 else BASE_BATCH_NUM) && scheduler.config == old(scheduler.config))
        && (requests > BASE_BATCH_NUM ==>
              && n > BASE_BATCH_NUM && (n == MAX_BATCH_NUM || HidesBubble(model, requests, n))
              && (forall k | BASE_BATCH_NUM < k < n :: !HidesBubble(model, requests, k))
              && scheduler.config == old(scheduler.config).(scheduleLimit := requests / n + 1))
    {
      hide HidesBubble;
      var numRequests := |scheduler.waiting| + |scheduler.running|;
      if numRequests <= 1 {
        return 1;
      }
      if numRequests <= BASE_BATCH_NUM {
        return BASE_BATCH_NUM;
      }
      for batchNum := BASE_BATCH_NUM + 1 to MAX_BATCH_NUM + 1
        invariant forall k | BASE_BATCH_NUM < k < batchNum :: !HidesBubble(model, numRequests, k)
        invariant batchNum == BASE_BATCH_NUM + 1
               || scheduler.config == old(scheduler.config).(scheduleLimit := numRequests / (batchNum - 1) + 1)
        invariant batchNum == BASE_BATCH_NUM + 1 ==> scheduler.config == old(scheduler.config)
      {
        scheduler.SetScheduleLimit(numRequests / batchNum + 1);
        var hidden := BubbleHidden(numRequests, batchNum);
        if hidden {
          Covers(numRequests, batchNum);
          return batchNum;
        }
      }
      Covers(numRequests, MAX_BATCH_NUM);
      return MAX_BATCH_NUM;
    }

    /** With chunked prefill there are always two batches, and their decode limits together
        are two more than the running decodes. */
    method CalculateBatchNumChunkedPrefill() returns (n: nat)
      modifies scheduler`config
      ensures n == BASE_BATCH_NUM <= MAX_BATCH_NUM
      ensures n as real * scheduler.config.decodeTokenLimit == |DecodesAt(scheduler.running)| as real + 2.0
      ensures scheduler.config == old(scheduler.config).(decodeTokenLimit := scheduler.config.decodeTokenLimit)
    {
      var decodes := 0;
      for i := 0 to |scheduler.running|
        invariant decodes == |DecodesAt(scheduler.running[..i])| && scheduler.config == old(scheduler.config)
      {
        NextDecode(scheduler.running, i);
        if !scheduler.running[i].isPrefill {
          decodes := decodes + 1;
        }
      }
      assert scheduler.running[..|scheduler.running|] == scheduler.running;
      scheduler.SetScheduleLimitChunkedPrefill(decodes as real / 2.0 + 1.0, scheduler.config.maxNumBatchedTokens);
      n := BASE_BATCH_NUM;
    }
  }

  /** The places of a queue that hold groups in the decode stage. */
  function DecodesAt(q: seq<Group>): set<nat> { set i: nat | i < |q| && !q[i].isPrefill }

  lemma NextDecode(q: seq<Group>, i: nat)
    requires i < |q|
    ensures |DecodesAt(q[..i + 1])| == |DecodesAt(q[..i])| + if q[i].isPrefill then 0 else 1
  {
    var now, next := DecodesAt(q[..i]), DecodesAt(q[..i + 1]);
    assert next == if q[i].isPrefill then now else now + {i};
  }

  lemma Covers(requests: nat, n: nat)
    requires n > 0
    ensures n * (requests / n + 1) >= requests
  {
    assert requests == n * (requests / n) + requests % n;
    assert n * (requests / n + 1) == n * (requests / n) + n;
  }
}
