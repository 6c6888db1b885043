/** What a node computes for its slice of the layers, and that a chain of nodes whose slices
    tile the layer stack computes what one node would. Layers, embedding and norm are
    arbitrary functions. */
module LayerSplit {
  import opened Wrappers

  type Tensor(==, !new)

  /** What one layer hands to the next. */
  datatype Hidden = Hidden(states: Tensor, residual: Option<Tensor>)

  datatype Model = Model(
    numLayers: nat, embed: Tensor -> Tensor, layer: (nat, Hidden) -> Hidden, norm: Hidden -> Tensor)

  /** Layers `start` up to, not including, `end`. */
  datatype Range = Range(start: nat, end: nat)

  /** The v0 option names the first and the last layer served; the code works with the one after
      the last. */
  datatype ServingLayers = ServingLayers(start: nat, last: nat)

  function ServingRanges(os: seq<ServingLayers>): (rs: seq<Range>)
    ensures |rs| == |os| && forall i | 0 <= i < |os| :: rs[i] == Range(os[i].start, os[i].last + 1)
  {
    if os == [] then [] else [Range(os[0].start, os[0].last + 1)] + ServingRanges(os[1..])
  }

  datatype Module = Missing | Decoder(idx: nat)

  function Gap(lo: nat, hi: nat): nat { if lo < hi then hi - lo else 0 }

  function MakeLayers(numLayers: nat, r: Range): seq<Module> {
    seq(r.start, i => Missing) + OwnLayers(r) + seq(Gap(r.end, numLayers), i => Missing)
  }

  function OwnLayers(r: Range): seq<Module> {
    seq(Gap(r.start, r.end), i requires 0 <= i => Decoder(r.start + i))
  }

  /** The slice a node runs holds its own layers in order, and no placeholder. */
  lemma SliceIsOwnLayers(numLayers: nat, r: Range)
    requires r.start <= r.end
    ensures var all := MakeLayers(numLayers, r);
      r.end <= |all| && all[r.start..r.end] == OwnLayers(r) && (r.end <= numLayers ==> |all| == numLayers)
  {
    var all := MakeLayers(numLayers, r);
    forall i | 0 <= i < r.end - r.start ensures all[r.start..r.end][i] == Decoder(r.start + i) {}
  }

  function RunModules(m: Model, s: seq<Module>, h: Hidden): Hidden {
    if s == [] then h
    else RunModules(m, s[1..], match s[0] case Missing => h case Decoder(i) => m.layer(i, h))
  }

  /** Layers `lo` up to `hi` of the whole stack. */
  function RunLayers(m: Model, lo: nat, hi: nat, h: Hidden): Hidden
    decreases hi - lo
  {
    if lo >= hi then h else RunLayers(m, lo + 1, hi, m.layer(lo, h))
  }

  lemma {:induction false} RunLayersSplit(m: Model, lo: nat, mid: nat, hi: nat, h: Hidden)
    requires lo <= mid <= hi
    ensures RunLayers(m, lo, hi, h) == RunLayers(m, mid, hi, RunLayers(m, lo, mid, h))
    decreases mid - lo
  {
    if lo < mid {
      RunLayersSplit(m, lo + 1, mid, hi, m.layer(lo, h));
    }
  }

  lemma {:induction false} RunModulesIsRunLayers(m: Model, s: seq<Module>, lo: nat, h: Hidden)
    requires forall i | 0 <= i < |s| :: s[i] == Decoder(lo + i)
    ensures RunModules(m, s, h) == RunLayers(m, lo, lo + |s|, h)
    decreases |s|
  {
    if s != [] {
      assert s[0] == Decoder(lo);
      forall i | 0 <= i < |s[1..]| ensures s[1..][i] == Decoder(lo + 1 + i) {
        assert s[i + 1] == Decoder(lo + (i + 1));
      }
      RunModulesIsRunLayers(m, s[1..], lo + 1, m.layer(lo, h));
    }
  }

  /** The states in `hs` follow each other through the layers from `lo` on. */
  ghost predicate Steps(m: Model, lo: nat, hs: seq<Hidden>) {
    forall i | 0 <= i < |hs| - 1 :: hs[i + 1] == m.layer(lo + i, hs[i])
  }

  /** The states of the whole stack: the embedded request, and then what each layer in turn makes
      of the state before it. */
  ghost predicate Stack(m: Model, request: Tensor, hs: seq<Hidden>) {
    |hs| == m.numLayers + 1 && hs[0] == Hidden(m.embed(request), None) && Steps(m, 0, hs)
  }

  /** The answer to a request: the last state of the stack, normalised. */
  ghost predicate IsAnswer(m: Model, request: Tensor, o: Outcome) {
    forall hs | Stack(m, request, hs) :: o == Output(m.norm(hs[m.numLayers]))
  }

  lemma {:induction false} RunLayersAlong(m: Model, lo: nat, hs: seq<Hidden>, k: nat)
    requires Steps(m, lo, hs) && k < |hs|
    ensures RunLayers(m, lo, lo + k, hs[0]) == hs[k]
    decreases k
  {
    if k > 0 {
      RunLayersAlong(m, lo, hs, k - 1);
      RunLayersSplit(m, lo, lo + k - 1, lo + k, hs[0]);
      assert hs[k - 1 + 1] == m.layer(lo + (k - 1), hs[k - 1]);
      assert RunLayers(m, lo + k, lo + k, hs[k]) == hs[k];
    }
  }

  /** From every state and every layer on, there are such states. */
  lemma {:induction false} StepsExist(m: Model, lo: nat, n: nat, h: Hidden) returns (hs: seq<Hidden>)
    ensures |hs| == n + 1 && hs[0] == h && Steps(m, lo, hs)
    decreases n
  {
    if n == 0 {
      hs := [h];
    } else {
      var rest := StepsExist(m, lo + 1, n - 1, m.layer(lo, h));
      hs := [h] + rest;
      forall i | 0 <= i < |hs| - 1 ensures hs[i + 1] == m.layer(lo + i, hs[i]) {
        if i > 0 { assert rest[i - 1 + 1] == m.layer(lo + 1 + (i - 1), rest[i - 1]); }
      }
    }
  }

  /** So every request has exactly one answer. */
  lemma OneAnswer(m: Model, request: Tensor)
    ensures exists o :: IsAnswer(m, request, o)
    ensures forall o, o' | IsAnswer(m, request, o) && IsAnswer(m, request, o') :: o == o'
  {
    var hs := StepsExist(m, 0, m.numLayers, Hidden(m.embed(request), None));
    assert Stack(m, request, hs);
    UptoAnswers(m, request);
  }

  lemma UptoAnswers(m: Model, request: Tensor)
    ensures IsAnswer(m, request, Output(m.norm(Upto(m, m.numLayers, request))))
  {
    forall hs | Stack(m, request, hs) ensures Upto(m, m.numLayers, request) == hs[m.numLayers] {
      RunLayersAlong(m, 0, hs, m.numLayers);
    }
  }

  // ---------------------------------------------------------------- one stage

  predicate IsFirst(r: Range) { r.start == 0 }

  predicate IsLast(m: Model, r: Range) { r.end == m.numLayers }

  /** A stage fails its assertion if it is not the first and gets no tensors. */
  datatype Outcome = Intermediate(hidden: Hidden) | Output(logits: Tensor) | AssertionFailed

  function Entry(m: Model, r: Range, request: Tensor, received: Option<Hidden>): Option<Hidden> {
    if IsFirst(r) then Some(Hidden(m.embed(request), None)) else received
  }

  function Forward(m: Model, r: Range, request: Tensor, received: Option<Hidden>): Outcome {
    match Entry(m, r, request, received)
    case None => AssertionFailed
    case Some(h) =>
      var h' := RunLayers(m, r.start, r.end, h);
      if IsLast(m, r) then Output(m.norm(h')) else Intermediate(h')
  }

  /** The loop over the slice of the module list. */
  method RunSlice(m: Model, slice: seq<Module>, h0: Hidden) returns (h: Hidden)
    ensures h == RunModules(m, slice, h0)
  {
    h := h0;
    for i := 0 to |slice|
      invariant RunModules(m, slice, h0) == RunModules(m, slice[i..], h)
    {
      assert slice[i..][0] == slice[i] && slice[i..][1..] == slice[i + 1..];
      if slice[i].Decoder? {
        h := m.layer(slice[i].idx, h);
      }
    }
  }

  /** The forward pass as the node runs it, layer by layer over its slice of the list. */
  method RunForward(m: Model, r: Range, request: Tensor, received: Option<Hidden>) returns (o: Outcome)
    requires r.start <= r.end
    ensures o == Forward(m, r, request, received)
    ensures o.AssertionFailed? <==> r.start > 0 && received.None?
    ensures forall hs | Steps(m, r.start, hs) && |hs| == r.end - r.start + 1
                        && Some(hs[0]) == (if r.start == 0 then Some(Hidden(m.embed(request), None)) else received) ::
              o == if r.end == m.numLayers then Output(m.norm(hs[|hs| - 1])) else Intermediate(hs[|hs| - 1])
  {
    hide RunModules, RunLayers, Steps;
    var all := MakeLayers(m.numLayers, r);
    SliceIsOwnLayers(m.numLayers, r);
    hide MakeLayers;
    var slice := all[r.start..r.end];
    assert |slice| == r.end - r.start && slice == OwnLayers(r);
    var h: Hidden;
    if r.start == 0 {
      h := Hidden(m.embed(request), None);
    } else if received.None? {
      return AssertionFailed;
    } else {
      h := received.value;
    }
    RunModulesIsRunLayers(m, slice, r.start, h);
    hide OwnLayers;
    forall hs | Steps(m, r.start, hs) && |hs| == |slice| + 1 && hs[0] == h
      ensures RunModules(m, slice, h) == hs[|hs| - 1]
    {
      RunLayersAlong(m, r.start, hs, |slice|);
    }
    h := RunSlice(m, slice, h);
    if r.end != m.numLayers {
      o := Intermediate(h);
    } else {
      o := Output(m.norm(h));
    }
  }

  // -------------------------------------------------------------------- tiling

  /** Non-empty consecutive ranges from layer 0 to the last one. */
  ghost predicate Tiles(m: Model, rs: seq<Range>) {
    && rs != [] && rs[0].start == 0 && rs[|rs| - 1].end == m.numLayers
    && (forall i | 0 <= i < |rs| :: rs[i].start < rs[i].end)
    && (forall i | 0 < i < |rs| :: rs[i].start == rs[i - 1].end)
  }

  lemma {:induction false} TilesBounds(m: Model, rs: seq<Range>, i: nat, j: nat)
    requires Tiles(m, rs) && i <= j < |rs|
    ensures rs[i].end <= rs[j].end <= m.numLayers && (i < j ==> rs[i].end <= rs[j].start)
    decreases |rs| - i
  {
    if i + 1 < |rs| {
      assert rs[i + 1].start == rs[i].end;
      if i < j {
        TilesBounds(m, rs, i + 1, j);
      } else {
        TilesBounds(m, rs, i + 1, |rs| - 1);
      }
    }
  }

  /** Exactly the first range of a tiling is a first stage, and exactly the last a last one. */
  lemma OneFirstOneLast(m: Model, rs: seq<Range>, i: nat)
    requires Tiles(m, rs) && i < |rs|
    ensures IsFirst(rs[i]) <==> i == 0
    ensures IsLast(m, rs[i]) <==> i == |rs| - 1
  {
    TilesBounds(m, rs, 0, i);
    TilesBounds(m, rs, i, |rs| - 1);
  }

  /** The hidden state after all layers below `end`. */
  function Upto(m: Model, end: nat, request: Tensor): Hidden {
    RunLayers(m, 0, end, Hidden(m.embed(request), None))
  }

  /** The k-th stage of a tiling takes the state after the layers before it to the state after
      its own, and the last stage to the output of the whole stack. */
  lemma StageAdvances(m: Model, rs: seq<Range>, k: nat, request: Tensor, received: Option<Hidden>)
    requires Tiles(m, rs) && k < |rs|
    requires k > 0 ==> received == Some(Upto(m, rs[k - 1].end, request))
    ensures Forward(m, rs[k], request, received)
         == if k == |rs| - 1 then Output(m.norm(Upto(m, m.numLayers, request)))
            else Intermediate(Upto(m, rs[k].end, request))
  {
    OneFirstOneLast(m, rs, k);
    if k > 0 {
      assert rs[k].start == rs[k - 1].end;
    }
    RunLayersSplit(m, 0, rs[k].start, rs[k].end, Hidden(m.embed(request), None));
  }

  /** The stages in order, each fed with what the one before it produced. */
  function Chain(m: Model, rs: seq<Range>, request: Tensor, received: Option<Hidden>): Outcome
    decreases |rs|
  {
    if rs == [] then AssertionFailed
    else
      var o := Forward(m, rs[0], request, received);
      if |rs| == 1 || !o.Intermediate? then o
      else Chain(m, rs[1..], request, Some(o.hidden))
  }

  lemma {:induction false} ChainFrom(m: Model, rs: seq<Range>, k: nat, request: Tensor, received: Option<Hidden>)
    requires Tiles(m, rs) && k < |rs|
    requires k > 0 ==> received == Some(Upto(m, rs[k - 1].end, request))
    ensures Chain(m, rs[k..], request, received) == Output(m.norm(Upto(m, m.numLayers, request)))
    decreases |rs| - k
  {
    StageAdvances(m, rs, k, request, received);
    if k < |rs| - 1 {
      assert rs[k..][1..] == rs[k + 1..];
      ChainFrom(m, rs, k + 1, request, Some(Upto(m, rs[k].end, request)));
    }
  }

  /** A tiling computes what a single node with all layers computes, and that is the answer: the
      layers applied to the embedded request one after another, and the result normalised. */
  lemma TilingComputesWhole(m: Model, rs: seq<Range>, request: Tensor, received: Option<Hidden>)
    requires Tiles(m, rs)
    ensures Chain(m, rs, request, received) == Forward(m, Range(0, m.numLayers), request, None)
    ensures IsAnswer(m, request, Chain(m, rs, request, received))
  {
    assert rs[0..] == rs;
    UptoAnswers(m, request);
    ChainFrom(m, rs, 0, request, received);
  }

  /** The options start at layer 0, each at the layer after the last one before it, and end with
      the model's last layer. */
  ghost predicate Adjoin(m: Model, os: seq<ServingLayers>) {
    && os != [] && os[0].start == 0 && os[|os| - 1].last == m.numLayers - 1
    && (forall i | 0 <= i < |os| :: os[i].start <= os[i].last)
    && (forall i | 0 < i < |os| :: os[i].start == os[i - 1].last + 1)
  }

  /** Such nodes compute what a single node computes, and exactly the first and the last of them
      have an option that names layer 0 first or the model's last layer last. */
  lemma ServingLayersComputeWhole(m: Model, os: seq<ServingLayers>, request: Tensor)
    requires Adjoin(m, os)
    ensures forall i | 0 <= i < |os| ::
              (os[i].start == 0 <==> i == 0) && (os[i].last == m.numLayers - 1 <==> i == |os| - 1)
    ensures Chain(m, ServingRanges(os), request, None) == Forward(m, Range(0, m.numLayers), request, None)
    ensures IsAnswer(m, request, Chain(m, ServingRanges(os), request, None))
  {
    var rs := ServingRanges(os);
    assert Tiles(m, rs);
    hide Tiles, Chain, Forward, Adjoin, IsAnswer;
    forall i | 0 <= i < |os|
      ensures (os[i].start == 0 <==> i == 0) && (os[i].last == m.numLayers - 1 <==> i == |os| - 1)
    {
      OneFirstOneLast(m, rs, i);
    }
    TilingComputesWhole(m, rs, request, None);
  }
}
