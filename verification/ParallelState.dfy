/** The layer range and stage flags of a v1 node: what the configured pair of layers resolves
    to, when a chain of configured nodes tiles the model, and when the flags are right. */
module ParallelState {
  import opened Wrappers
  import opened LayerSplit

  /** The configured layers; an `end` of -1 stands for all remaining ones. */
  datatype Serving = Serving(start: int, end: int)

  function EndLayer(c: Serving, numLayers: nat): int { if c.end == -1 then numLayers else c.end }

  /** The layers the configuration asks for. */
  predicate Asks(c: Serving, numLayers: nat, layer: int) { c.start <= layer < EndLayer(c, numLayers) }

  function Resolve(c: Serving, numLayers: nat): Range {
    var end := if EndLayer(c, numLayers) > numLayers then numLayers else EndLayer(c, numLayers);
    var start := if c.start < 0 then 0 else c.start;
    if start >= end then Range(0, numLayers) else Range(start, end)
  }

  /** A node serves exactly those layers of the model it asks for, or, if it asks for none of
      them, all. */
  lemma ServesWhatItAsks(c: Serving, numLayers: nat)
    ensures var r := Resolve(c, numLayers);
      && r.start <= r.end <= numLayers && (numLayers > 0 ==> r.start < r.end)
      && ((exists i: nat :: i < numLayers && Asks(c, numLayers, i))
           ==> forall i: nat | i < numLayers :: r.start <= i < r.end <==> Asks(c, numLayers, i))
      && ((forall i: nat | i < numLayers :: !Asks(c, numLayers, i)) ==> r == Range(0, numLayers))
  {
    var r := Resolve(c, numLayers);
    if r != Range(0, numLayers) {
      assert Asks(c, numLayers, r.start);
    }
  }

  function FirstFlag(c: Serving): bool { c.start == 0 }

  /** The last-stage flag set by the initialisation, which may not know the number of layers. */
  function LastFlag(c: Serving, numLayers: Option<nat>): bool {
    c.end == -1 || (numLayers.Some? && c.end >= numLayers.value)
  }

  // ---------------------------------------------------------------- the flags

  /** With the number of layers known, the last-stage flag tells whether the layers end at the
      last one, unless the range falls back to all layers. */
  lemma FlagsFit(m: Model, c: Serving)
    requires m.numLayers > 0 && c.start >= 0 && (c.end == -1 || c.end > c.start)
    ensures c.start < m.numLayers ==> FirstFlag(c) == IsFirst(Resolve(c, m.numLayers))
    ensures c.start < m.numLayers ==> LastFlag(c, Some(m.numLayers)) == IsLast(m, Resolve(c, m.numLayers))
    ensures c.start >= m.numLayers ==>
              !FirstFlag(c) && IsFirst(Resolve(c, m.numLayers)) && IsLast(m, Resolve(c, m.numLayers))
  {}

  /** Without it, the guess is right exactly when the end is given as -1 or lies before the
      last layer's and the range is not empty: a last node with an explicit end is not flagged,
      so it does not normalise. */
  lemma GuessIsRight(m: Model, c: Serving)
    requires m.numLayers > 0
    ensures LastFlag(c, None) == IsLast(m, Resolve(c, m.numLayers))
       <==> c.end == -1 || (c.end < m.numLayers && 0 < c.end && c.start < c.end)
  {}

  // ---------------------------------------------------------------- the tiling

  function ResolveAll(cs: seq<Serving>, numLayers: nat): (rs: seq<Range>)
    ensures |rs| == |cs| && forall i | 0 <= i < |cs| :: rs[i] == Resolve(cs[i], numLayers)
  {
    if cs == [] then [] else [Resolve(cs[0], numLayers)] + ResolveAll(cs[1..], numLayers)
  }

  /** Each node takes up where the one before it ends; only the last may end at -1. */
  ghost predicate Chained(cs: seq<Serving>) {
    && cs != [] && cs[0].start == 0
    && (forall i | 0 <= i < |cs| - 1 :: cs[i].start < cs[i].end == cs[i + 1].start)
    && (cs[|cs| - 1].end == -1 || cs[|cs| - 1].start < cs[|cs| - 1].end)
  }

  lemma {:induction false} ChainedStarts(cs: seq<Serving>, i: nat, j: nat)
    requires Chained(cs) && i <= j < |cs|
    ensures 0 <= cs[i].start <= cs[j].start && (i < j ==> cs[i].end <= cs[j].start)
    decreases j
  {
    if i < j {
      ChainedStarts(cs, i, j - 1);
    } else if i > 0 {
      ChainedStarts(cs, i - 1, i - 1);
    }
  }

  /** A chain of nodes tiles the model exactly when the last one starts inside it and ends at
      or after its last layer. */
  lemma {:induction false} ChainTiles(m: Model, cs: seq<Serving>)
    requires Chained(cs)
    ensures var last := cs[|cs| - 1];
      Tiles(m, ResolveAll(cs, m.numLayers)) <==> last.start < m.numLayers && (last.end == -1 || m.numLayers <= last.end)
  {
    if cs[|cs| - 1].start < m.numLayers {
      ChainAdjoins(m, cs);
    } else {
      StartBeyond(m, cs);
    }
  }

  /** If the last node starts inside the model, the ranges adjoin from layer 0 on, and they tile it
      if the last one ends with it. */
  lemma {:induction false} ChainAdjoins(m: Model, cs: seq<Serving>)
    requires Chained(cs) && cs[|cs| - 1].start < m.numLayers
    ensures Tiles(m, ResolveAll(cs, m.numLayers)) <==> cs[|cs| - 1].end == -1 || m.numLayers <= cs[|cs| - 1].end
  {
    var rs, n := ResolveAll(cs, m.numLayers), |cs| - 1;
    LastEnd(m, cs);
    hide Resolve, Chained, Tiles, FirstFlag, LastFlag;
    forall i | 0 <= i < |rs| ensures rs[i].start < rs[i].end && (i == 0 ==> rs[i].start == 0) {
      ResolvedAt(m, cs, None, i);
    }
    forall i | 0 < i < |rs| ensures rs[i].start == rs[i - 1].end {
      ResolvedAt(m, cs, None, i - 1);
      ResolvedAt(m, cs, None, i);
    }
    EndsTiling(m, rs);
  }

  lemma EndsTiling(m: Model, rs: seq<Range>)
    requires rs != [] && rs[0].start == 0
    requires forall i | 0 <= i < |rs| :: rs[i].start < rs[i].end
    requires forall i | 0 < i < |rs| :: rs[i].start == rs[i - 1].end
    ensures Tiles(m, rs) <==> rs[|rs| - 1].end == m.numLayers
  {}

  lemma LastEnd(m: Model, cs: seq<Serving>)
    requires Chained(cs) && cs[|cs| - 1].start < m.numLayers
    ensures var last := cs[|cs| - 1];
      Resolve(last, m.numLayers).end == m.numLayers <==> last.end == -1 || m.numLayers <= last.end
  {
    ChainedStarts(cs, |cs| - 1, |cs| - 1);
  }

  /** If it starts beyond the model, it falls back to all layers and overlaps the others. */
  lemma {:induction false} StartBeyond(m: Model, cs: seq<Serving>)
    requires Chained(cs) && cs[|cs| - 1].start >= m.numLayers
    ensures !Tiles(m, ResolveAll(cs, m.numLayers))
  {
    var rs, n := ResolveAll(cs, m.numLayers), |cs| - 1;
    assert rs[n] == Range(0, m.numLayers);
    assert n == 0 ==> m.numLayers == 0;
    hide Resolve, Chained;
    StartsAtZero(m, rs, n);
  }

  lemma StartsAtZero(m: Model, rs: seq<Range>, k: nat)
    requires k < |rs| && rs[k].start == 0 && (k == 0 ==> rs[k].end == 0)
    ensures !Tiles(m, rs)
  {
    if k > 0 && Tiles(m, rs) {
      TilesBounds(m, rs, k - 1, k);
    }
  }

  // ------------------------------------------------- what the flagged nodes run

  /** A node's forward pass as its flags tell it to run: it embeds if flagged first, and
      normalises if flagged last. */
  function ForwardBy(m: Model, r: Range, first: bool, last: bool, request: Tensor, received: Option<Hidden>): Outcome {
    match if first then Some(Hidden(m.embed(request), None)) else received
    case None => AssertionFailed
    case Some(h) =>
      var h' := RunLayers(m, r.start, r.end, h);
      if last then Output(m.norm(h')) else Intermediate(h')
  }

  /** The configured nodes in order, each fed with what the one before it produced, with the
      flags of an initialisation that was given `known` as the number of layers. */
  function ChainBy(m: Model, cs: seq<Serving>, known: Option<nat>, request: Tensor, received: Option<Hidden>): Outcome
    decreases |cs|
  {
    if cs == [] then AssertionFailed
    else
      var o := ForwardBy(m, Resolve(cs[0], m.numLayers), FirstFlag(cs[0]), LastFlag(cs[0], known), request, received);
      if |cs| == 1 || !o.Intermediate? then o
      else ChainBy(m, cs[1..], known, request, Some(o.hidden))
  }

  /** Up to its last node, a chain of nodes resolves to adjoining ranges with one first stage,
      and none is flagged last. */
  lemma ResolvedAt(m: Model, cs: seq<Serving>, known: Option<nat>, k: nat)
    requires Chained(cs) && k < |cs| && cs[|cs| - 1].start < m.numLayers && known in {None, Some(m.numLayers)}
    ensures var r := Resolve(cs[k], m.numLayers);
      && r.start == cs[k].start < r.end && (FirstFlag(cs[k]) <==> k == 0) && (k == 0 ==> r.start == 0)
      && (k + 1 < |cs| ==> r.end == cs[k].end == cs[k + 1].start && !LastFlag(cs[k], known))
  {
    ChainedStarts(cs, 0, k);
    ChainedStarts(cs, k, |cs| - 1);
    if k > 0 {
      ChainedStarts(cs, k - 1, k);
    }
  }

  /** A stage that starts where its input stands ends at its own last layer. */
  lemma StageBy(m: Model, r: Range, first: bool, last: bool, request: Tensor, received: Option<Hidden>)
    requires r.start <= r.end && (first ==> r.start == 0)
    requires !first ==> received == Some(Upto(m, r.start, request))
    ensures ForwardBy(m, r, first, last, request, received)
         == if last then Output(m.norm(Upto(m, r.end, request))) else Intermediate(Upto(m, r.end, request))
  {
    RunLayersSplit(m, 0, r.start, r.end, Hidden(m.embed(request), None));
  }

  /** Whether or not the number of layers is known, the nodes bring the state to the end of the
      last one's layers, where its flag decides whether it is normalised. */
  lemma {:induction false} ChainByFrom(m: Model, cs: seq<Serving>, known: Option<nat>, k: nat, request: Tensor,
                                       received: Option<Hidden>)
    requires Chained(cs) && k < |cs| && cs[|cs| - 1].start < m.numLayers && known in {None, Some(m.numLayers)}
    requires k > 0 ==> received == Some(Upto(m, Resolve(cs[k], m.numLayers).start, request))
    ensures ChainBy(m, cs[k..], known, request, received) == LastOutcome(m, cs[|cs| - 1], known, request)
    decreases |cs| - k
  {
    ResolvedAt(m, cs, known, k);
    var r := Resolve(cs[k], m.numLayers);
    StageBy(m, r, FirstFlag(cs[k]), LastFlag(cs[k], known), request, received);
    if k < |cs| - 1 {
      ResolvedAt(m, cs, known, k + 1);
      hide Resolve, LastFlag, FirstFlag, ForwardBy, Upto, Chained;
      assert cs[k..][1..] == cs[k + 1..];
      ChainByFrom(m, cs, known, k + 1, request, Some(Upto(m, r.end, request)));
    }
  }

  function LastOutcome(m: Model, last: Serving, known: Option<nat>, request: Tensor): Outcome {
    var h := Upto(m, Resolve(last, m.numLayers).end, request);
    if LastFlag(last, known) then Output(m.norm(h)) else Intermediate(h)
  }

  /** With the number of layers known, a chain whose last node starts inside the model computes
      what a single node with all layers computes exactly when it reaches the last layer. */
  lemma KnownChainComputesWhole(m: Model, cs: seq<Serving>, request: Tensor)
    requires Chained(cs) && cs[|cs| - 1].start < m.numLayers
    ensures ChainBy(m, cs, Some(m.numLayers), request, None) == Forward(m, Range(0, m.numLayers), request, None)
       <==> cs[|cs| - 1].end == -1 || m.numLayers <= cs[|cs| - 1].end
  {
    ChainByFrom(m, cs, Some(m.numLayers), 0, request, None);
    ResolvedAt(m, cs, Some(m.numLayers), |cs| - 1);
    assert cs[0..] == cs;
  }

  /** As v1 initialises its nodes, without the number of layers, it does so exactly when the
      last node's end is given as -1: with an explicit end no node normalises. */
  lemma GuessedChainComputesWhole(m: Model, cs: seq<Serving>, request: Tensor)
    requires Chained(cs) && cs[|cs| - 1].start < m.numLayers
    ensures ChainBy(m, cs, None, request, None) == Forward(m, Range(0, m.numLayers), request, None)
       <==> cs[|cs| - 1].end == -1
    ensures cs[|cs| - 1].end != -1 ==> ChainBy(m, cs, None, request, None).Intermediate?
  {
    ChainByFrom(m, cs, None, 0, request, None);
    ResolvedAt(m, cs, None, |cs| - 1);
    assert cs[0..] == cs;
  }

  /** Two nodes that split 32 layers in halves with explicit ends: the ranges tile the model,
      but the run ends with a hidden state. With -1 for the second end it is right. */
  lemma ExplicitHalves(m: Model, request: Tensor)
    requires m.numLayers == 32
    ensures Tiles(m, ResolveAll([Serving(0, 16), Serving(16, 32)], 32))
    ensures ChainBy(m, [Serving(0, 16), Serving(16, 32)], None, request, None).Intermediate?
    ensures ChainBy(m, [Serving(0, 16), Serving(16, -1)], None, request, None)
         == Forward(m, Range(0, 32), request, None)
  {
    ChainTiles(m, [Serving(0, 16), Serving(16, 32)]);
    GuessedChainComputesWhole(m, [Serving(0, 16), Serving(16, 32)], request);
    GuessedChainComputesWhole(m, [Serving(0, 16), Serving(16, -1)], request);
  }

  /** A chain that tiles has one first and one last stage, flagged as such once the number of
      layers is known, and its nodes then compute what a single node with all layers computes. */
  lemma ChainedNodesComputeWhole(m: Model, cs: seq<Serving>, request: Tensor)
    requires Chained(cs) && cs[|cs| - 1].start < m.numLayers
    requires cs[|cs| - 1].end == -1 || m.numLayers <= cs[|cs| - 1].end
    ensures forall i | 0 <= i < |cs| ::
              (FirstFlag(cs[i]) <==> i == 0) && (LastFlag(cs[i], Some(m.numLayers)) <==> i == |cs| - 1)
    ensures ChainBy(m, cs, Some(m.numLayers), request, None) == Forward(m, Range(0, m.numLayers), request, None)
    ensures Chain(m, ResolveAll(cs, m.numLayers), request, None) == Forward(m, Range(0, m.numLayers), request, None)
  {
    var rs := ResolveAll(cs, m.numLayers);
    ChainTiles(m, cs);
    forall i | 0 <= i < |cs|
      ensures (FirstFlag(cs[i]) <==> i == 0) && (LastFlag(cs[i], Some(m.numLayers)) <==> i == |cs| - 1)
    {
      OneFirstOneLast(m, rs, i);
      ChainedStarts(cs, i, |cs| - 1);
      FlagsFit(m, cs[i]);
    }
    KnownChainComputesWhole(m, cs, request);
    TilingComputesWhole(m, rs, request, None);
  }

  // ---------------------------------------------------------------- the state

  /** The module-level variables. */
  class ParallelState {
    var enabled: bool
    var serving: Serving
    var numHiddenLayers: Option<nat>
    var isFirstStage: bool
    var isLastStage: bool
    var ppRank: int
    var ppSize: int

    /** The flags of an enabled node follow from the rest of the state. */
    ghost predicate Valid()
      reads this
    {
      enabled ==> isFirstStage == FirstFlag(serving) && isLastStage == LastFlag(serving, numHiddenLayers)
    }

    constructor ()
      ensures Valid() && !enabled && serving == Serving(0, -1) && isFirstStage && isLastStage
      ensures numHiddenLayers == None && ppRank == 0 && ppSize == 1
    {
      enabled, serving, numHiddenLayers := false, Serving(0, -1), None;
      isFirstStage, isLastStage, ppRank, ppSize := true, true, 0, 1;
    }

    /** A disabled node keeps the flags it had. */
    method Init(enabled: bool, startLayer: int, endLayer: int, numHiddenLayers: Option<nat>, ppRank: int, ppSize: int)
      modifies this
      ensures Valid() && this.enabled == enabled && serving == Serving(startLayer, endLayer)
      ensures this.numHiddenLayers == numHiddenLayers && this.ppRank == ppRank && this.ppSize == ppSize
      ensures !enabled ==> isFirstStage == old(isFirstStage) && isLastStage == old(isLastStage)
    {
      this.enabled, serving := enabled, Serving(startLayer, endLayer);
      this.numHiddenLayers, this.ppRank, this.ppSize := numHiddenLayers, ppRank, ppSize;
      if enabled {
        isFirstStage := startLayer == 0;
        if endLayer == -1 {
          isLastStage := true;
        } else if numHiddenLayers.Some? {
          isLastStage := endLayer >= numHiddenLayers.value;
        } else {
          isLastStage := endLayer == -1;
        }
      }
    }

    /** A disabled node uses vLLM's own split, here `fallback`. */
    method GetPpIndices(numLayers: nat, fallback: Range) returns (r: Range)
      ensures r == if enabled then Resolve(serving, numLayers) else fallback
    {
      if !enabled {
        return fallback;
      }
      var startLayer, endLayer := serving.start, serving.end;
      if endLayer == -1 {
        endLayer := numLayers;
      }
      if startLayer < 0 {
        startLayer := 0;
      }
      if endLayer > numLayers {
        endLayer := numLayers;
      }
      if startLayer >= endLayer {
        startLayer, endLayer := 0, numLayers;
      }
      r := Range(startLayer, endLayer);
    }

    method UpdateStageInfo(numLayers: nat)
      requires Valid()
      modifies this`numHiddenLayers, this`isLastStage
      ensures Valid()
      ensures enabled ==> numHiddenLayers == Some(numLayers)
      ensures !enabled ==> numHiddenLayers == old(numHiddenLayers) && isLastStage == old(isLastStage)
    {
      if !enabled {
        return;
      }
      numHiddenLayers := Some(numLayers);
      var endLayer := serving.end;
      if endLayer == -1 {
        endLayer := numLayers;
      }
      isLastStage := endLayer >= numLayers;
    }

    method Destroy()
      modifies this
      ensures Valid() && !enabled && serving == Serving(0, -1) && isFirstStage && isLastStage
      ensures numHiddenLayers == None && ppRank == 0 && ppSize == 1
    {
      enabled, serving, numHiddenLayers := false, Serving(0, -1), None;
      isFirstStage, isLastStage, ppRank, ppSize := true, true, 0, 1;
    }
  }
}
