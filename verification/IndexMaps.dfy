/** Index permutations done with reshape, transpose and narrow on row-major tensors: the fused
    query/key/value rows of Bloom and Falcon, the rotary rows of Llama, and the visiting order
    of Qwen2-VL's image patches. */
module IndexMaps {
  import opened Wrappers

  // ------------------------------------------------- row-major four-digit indices

  datatype Shape = Shape(a: nat, b: nat, c: nat, d: nat)

  datatype Index = Index(a: nat, b: nat, c: nat, d: nat)

  function Size(s: Shape): nat { s.a * s.b * s.c * s.d }

  predicate In(i: Index, s: Shape) { i.a < s.a && i.b < s.b && i.c < s.c && i.d < s.d }

  function Flat(i: Index, s: Shape): nat { ((i.a * s.b + i.b) * s.c + i.c) * s.d + i.d }

  function Unflat(r: nat, s: Shape): Index
    requires s.b > 0 && s.c > 0 && s.d > 0
  {
    var abc := Div(r, s.d);
    var ab := Div(abc, s.c);
    Index(Div(ab, s.b), Mod(ab, s.b), Mod(abc, s.c), Mod(r, s.d))
  }

  function Div(r: nat, b: nat): nat
    requires b > 0
  {
    r / b
  }

  function Mod(r: nat, b: nat): (x: nat)
    requires b > 0
    ensures x < b
  {
    r % b
  }

  lemma DivMod(q: nat, b: nat, r: nat)
    requires r < b
    ensures (q * b + r) / b == q && (q * b + r) % b == r
  {
    var x := q * b + r;
    assert x == (x / b) * b + x % b;
    Unique(q, r, x / b, x % b, b);
  }

  lemma Unique(q: nat, r: nat, q': nat, r': nat, b: nat)
    requires r < b && r' < b && q * b + r == q' * b + r'
    ensures q == q' && r == r'
  {
    TimesLess(q, q', b);
    TimesLess(q', q, b);
  }

  lemma TimesLess(q: nat, a: nat, b: nat)
    ensures q < a ==> q * b + b <= a * b
  {
    if q < a {
      var k: nat := a - q - 1;
      assert a == q + 1 + k;
      Distribute(q, k, b);
    }
  }

  lemma Distribute(q: nat, k: nat, b: nat)
    ensures (q + 1 + k) * b == q * b + b + k * b && k * b >= 0
  {}

  lemma Below(q: nat, a: nat, r: nat, b: nat)
    requires q < a && r < b
    ensures q * b + r < a * b
  {
    TimesLess(q, a, b);
  }

  lemma DivBelow(x: nat, a: nat, b: nat)
    requires b > 0 && x < a * b
    ensures x / b < a && x == (x / b) * b + x % b
  {
    TimesLess(x / b, a, b);
    TimesLess(a, x / b, b);
  }

  /** Flattening an index of the shape and taking the result apart again undo each other. */
  lemma FlatUnflat(i: Index, s: Shape)
    requires In(i, s)
    ensures Flat(i, s) < Size(s) && Unflat(Flat(i, s), s) == i
  {
    var ab, abc := i.a * s.b + i.b, (i.a * s.b + i.b) * s.c + i.c;
    Below(i.a, s.a, i.b, s.b);
    Below(ab, s.a * s.b, i.c, s.c);
    Below(abc, s.a * s.b * s.c, i.d, s.d);
    DivMod(abc, s.d, i.d);
    DivMod(ab, s.c, i.c);
    DivMod(i.a, s.b, i.b);
  }

  lemma Positive(s: Shape)
    requires Size(s) > 0
    ensures s.a > 0 && s.b > 0 && s.c > 0 && s.d > 0
  {}

  lemma UnflatFlat(r: nat, s: Shape)
    requires r < Size(s)
    ensures s.b > 0 && s.c > 0 && s.d > 0 && In(Unflat(r, s), s) && Flat(Unflat(r, s), s) == r
  {
    Positive(s);
    DivBelow(r, s.a * s.b * s.c, s.d);
    DivBelow(r / s.d, s.a * s.b, s.c);
    DivBelow(r / s.d / s.c, s.a, s.b);
  }

  // ------------------------------------------- exchanging the two middle digits

  function Swap(s: Shape): Shape { Shape(s.a, s.c, s.b, s.d) }

  function SwapIndex(i: Index): Index { Index(i.a, i.c, i.b, i.d) }

  lemma SwapSize(s: Shape)
    ensures Size(Swap(s)) == Size(s)
  {
    assert s.a * s.c * s.b == s.a * s.b * s.c;
  }

  /** Where the entry at place `r` of the transposed tensor comes from. */
  function Source(r: nat, s: Shape): (x: nat)
    requires r < Size(s)
    ensures x < Size(s) == Size(Swap(s))
  {
    SwapSize(s);
    UnflatFlat(r, Swap(s));
    FlatUnflat(SwapIndex(Unflat(r, Swap(s))), s);
    Flat(SwapIndex(Unflat(r, Swap(s))), s)
  }

  /** The places of the transposed tensor and those of the original correspond one to one, and
      transposing with the exchanged shape is the inverse. */
  lemma SourceInverts(r: nat, s: Shape)
    requires r < Size(s)
    ensures r < Size(Swap(s)) && Source(Source(r, s), Swap(s)) == r
  {
    SwapSize(s);
    UnflatFlat(r, Swap(s));
    var i := Unflat(r, Swap(s));
    FlatUnflat(SwapIndex(i), s);
    FlatUnflat(i, Swap(s));
  }

  function Transposed<T>(w: seq<T>, s: Shape): seq<T>
    requires |w| == Size(s)
  {
    seq(|w|, r requires 0 <= r < |w| => w[Source(r, s)])
  }

  lemma TransposedAt<T>(w: seq<T>, s: Shape, i: Index)
    requires |w| == Size(s) && In(i, s)
    ensures Flat(i, s) < |w| && Flat(SwapIndex(i), Swap(s)) < |w|
    ensures Transposed(w, s)[Flat(SwapIndex(i), Swap(s))] == w[Flat(i, s)]
  {
    SwapSize(s);
    FlatUnflat(i, s);
    FlatUnflat(SwapIndex(i), Swap(s));
  }

  lemma TransposedTwice<T>(w: seq<T>, s: Shape)
    requires |w| == Size(s)
    ensures Size(Swap(s)) == |w| && Transposed(Transposed(w, s), Swap(s)) == w
  {
    SwapSize(s);
    var t := Transposed(w, s);
    forall r | 0 <= r < |w| ensures Transposed(t, Swap(s))[r] == w[r] {
      SourceInverts(r, Swap(s));
    }
  }

  // -------------------------------------------------------------------- Llama

  function Pairs(heads: nat, headDim: nat, width: nat): Shape { Shape(heads, headDim / 2, 2, width) }

  /** `permute`: rows of a head alternate between the two halves of the rotary pairs; an odd
      head size makes the view fail, and so does a division by no heads at all. */
  function Permute<T>(w: seq<T>, heads: nat, headDim: nat, width: nat): Option<seq<T>> {
    var s := Pairs(heads, headDim, width);
    if heads > 0 && |w| == headDim * heads * width && |w| == Size(s) then Some(Transposed(w, s)) else None
  }

  /** In each head, the even rows come first and the odd rows after them, each in order. */
  lemma PermuteAt<T>(w: seq<T>, heads: nat, headDim: nat, width: nat, h: nat, pair: nat, odd: nat, col: nat)
    requires Permute(w, heads, headDim, width).Some?
    requires h < heads && pair < headDim / 2 && odd < 2 && col < width
    ensures var s := Pairs(heads, headDim, width);
      var to, from := Flat(Index(h, odd, pair, col), Swap(s)), Flat(Index(h, pair, odd, col), s);
      to < |w| && from < |w| && Permute(w, heads, headDim, width).value[to] == w[from]
  {
    hide Flat, Size;
    TransposedAt(w, Pairs(heads, headDim, width), Index(h, pair, odd, col));
  }

  /** In plain numbers: row `2 * pair + odd` of a head becomes its row `odd * (headDim / 2) + pair`. */
  lemma PermutePlaces(heads: nat, headDim: nat, width: nat, h: nat, pair: nat, odd: nat, col: nat)
    ensures var s, half := Pairs(heads, headDim, width), headDim / 2;
      && Flat(Index(h, pair, odd, col), s) == (h * half * 2 + (2 * pair + odd)) * width + col
      && Flat(Index(h, odd, pair, col), Swap(s)) == (h * 2 * half + (odd * half + pair)) * width + col
  {}

  /** The permutation can be undone, so no entry is lost or doubled. */
  lemma PermuteInverts<T>(w: seq<T>, heads: nat, headDim: nat, width: nat)
    requires Permute(w, heads, headDim, width).Some?
    ensures var s, t := Swap(Pairs(heads, headDim, width)), Permute(w, heads, headDim, width).value;
      Size(s) == |t| == |w| && Transposed(t, s) == w
  {
    hide Size;
    TransposedTwice(w, Pairs(heads, headDim, width));
  }

  /** It applies to every even head size, and to an odd one only if there is nothing to move. */
  lemma PermuteApplies<T>(w: seq<T>, heads: nat, headDim: nat, width: nat)
    requires |w| == headDim * heads * width
    ensures Permute(w, heads, headDim, width).Some? <==> heads > 0 && (headDim % 2 == 0 || width == 0)
  {
    var half := headDim / 2;
    assert headDim == 2 * half + headDim % 2;
    assert heads * half * 2 == heads * (half * 2);
    assert headDim * heads == heads * (half * 2) + heads * (headDim % 2);
    assert |w| == (heads * half * 2) * width + (heads * (headDim % 2)) * width;
    if headDim % 2 == 1 {
      assert (heads * (headDim % 2)) * width == heads * width;
      if heads > 0 && width > 0 { assert heads * width > 0; }
    }
  }

  // -------------------------------------------------------------- views by head

  /** A weight whose rearranged dimension has `rows` rows: `lead` is the product of the dimensions
      in front of it, `width` that of those behind. */
  datatype Dims = Dims(lead: nat, rows: nat, width: nat)

  function Entries(d: Dims): nat { d.lead * d.rows * d.width }

  /** The view of the rows as `p` times `q` heads, the size of a head being inferred: all entries
      must divide evenly among the given dimensions. */
  predicate Splits(d: Dims, p: nat, q: nat) {
    d.lead * p * q * d.width > 0 && Entries(d) % (d.lead * p * q * d.width) == 0
  }

  function HeadShape(d: Dims, p: nat, q: nat): Shape
    requires Splits(d, p, q)
  {
    Shape(d.lead, p, q, Entries(d) / (d.lead * p * q * d.width) * d.width)
  }

  lemma DivScaled(x: nat, v: nat, k: nat)
    requires v > 0 && k > 0
    ensures v * k > 0 && (x * k) / (v * k) == x / v && ((x * k) % (v * k) == 0 <==> x % v == 0)
  {
    var d, r := x / v, x % v;
    assert x == d * v + r;
    Spread(d, v, r, k);
    TimesLess(r, v, k);
    DivMod(d, v * k, r * k);
  }

  lemma Spread(d: nat, v: nat, r: nat, k: nat)
    ensures (d * v + r) * k == d * (v * k) + r * k && r * k >= 0 && v * k >= 0
  {}

  lemma Reorder(a: nat, b: nat, c: nat, d: nat)
    ensures a * b * c * d == (b * c) * (a * d) && a * b * c == b * (a * c)
  {}

  /** The view succeeds exactly when the heads divide the rows; it then covers the weight. */
  lemma SplitsRows(d: Dims, p: nat, q: nat)
    ensures Splits(d, p, q) <==> d.lead > 0 && p > 0 && q > 0 && d.width > 0 && d.rows % (p * q) == 0
    ensures Splits(d, p, q) ==> p * q > 0 && HeadShape(d, p, q) == Shape(d.lead, p, q, d.rows / (p * q) * d.width)
    ensures Splits(d, p, q) ==> Size(HeadShape(d, p, q)) == Entries(d)
  {
    var v, k := p * q, d.lead * d.width;
    Reorder(d.lead, p, q, d.width);
    Reorder(d.lead, d.rows, d.width, 1);
    NonZero(d.lead, p, q, d.width);
    if d.lead > 0 && p > 0 && q > 0 && d.width > 0 {
      DivScaled(d.rows, v, k);
      if d.rows % v == 0 {
        Cover(d, p, q);
      }
    }
  }

  lemma NonZero(a: nat, b: nat, c: nat, d: nat)
    ensures a * b * c * d > 0 <==> a > 0 && b > 0 && c > 0 && d > 0
    ensures a > 0 && d > 0 ==> a * d > 0
    ensures b > 0 && c > 0 ==> b * c > 0
  {}

  lemma Cover(d: Dims, p: nat, q: nat)
    requires p * q > 0 && d.rows % (p * q) == 0
    ensures Size(Shape(d.lead, p, q, d.rows / (p * q) * d.width)) == Entries(d)
  {
    var v, k := p * q, d.rows / (p * q);
    assert d.rows == v * k;
    Chain4(d.lead, p, q, k, d.width);
  }

  lemma Chain4(a: nat, p: nat, q: nat, k: nat, w: nat)
    ensures a * p * q * (k * w) == a * ((p * q) * k) * w
  {}

  // -------------------------------------------------------------------- Bloom

  /** Rows ordered by head become rows ordered by query, key and value. */
  function BloomQkv<T>(w: seq<T>, d: Dims, heads: nat): Option<seq<T>>
    requires |w| == Entries(d)
  {
    SplitsRows(d, heads, 3);
    if Splits(d, heads, 3) then Some(Transposed(w, HeadShape(d, heads, 3))) else None
  }

  /** The rearrangement succeeds exactly when three times the heads divide the rows. Then, behind
      each index of the dimensions in front, query, key and value (`part` 0, 1 and 2) each form
      one block with the heads in order. */
  lemma BloomAt<T>(w: seq<T>, d: Dims, heads: nat, i: Index)
    requires |w| == Entries(d)
    ensures BloomQkv(w, d, heads).Some? <==> d.lead > 0 && heads > 0 && d.width > 0 && d.rows % (heads * 3) == 0
    ensures BloomQkv(w, d, heads).Some? && In(i, HeadShape(d, heads, 3)) ==>
              var (s, head, part) := (HeadShape(d, heads, 3), i.b, i.c);
              var to, src := Flat(Index(i.a, part, head, i.d), Swap(s)), Flat(i, s);
              to < |w| && src < |w| && BloomQkv(w, d, heads).value[to] == w[src]
  {
    SplitsRows(d, heads, 3);
    hide Size, HeadShape, Splits, Entries;
    if Splits(d, heads, 3) && In(i, HeadShape(d, heads, 3)) {
      TransposedAt(w, HeadShape(d, heads, 3), i);
    }
  }

  lemma BloomInverts<T>(w: seq<T>, d: Dims, heads: nat)
    requires |w| == Entries(d) && BloomQkv(w, d, heads).Some?
    ensures var s, t := Swap(HeadShape(d, heads, 3)), BloomQkv(w, d, heads).value;
      Size(s) == |t| == |w| && Transposed(t, s) == w
  {
    SplitsRows(d, heads, 3);
    hide Size, HeadShape, Splits, Entries;
    TransposedTwice(w, HeadShape(d, heads, 3));
  }

  // ------------------------------------------------------------------- Falcon

  datatype FalconConfig = FalconConfig(heads: nat, kvHeads: nat, newArchitecture: bool, multiQuery: bool)

  function KvHeads(c: FalconConfig): nat {
    if c.newArchitecture then c.kvHeads else if c.multiQuery then 1 else c.heads
  }

  /** Groups of `q` query heads with one key and one value head; `size` entries a head; all this
      behind each of `lead` indices of the dimensions in front. */
  datatype Fused = Fused(lead: nat, groups: nat, q: nat, size: nat)

  function FusedShape(f: Fused): Shape { Shape(f.lead, f.groups, f.q + 2, f.size) }

  /** The shape of `heads` heads out of every group. */
  function PartShape(f: Fused, heads: nat): Shape { Shape(f.lead, f.groups, heads, f.size) }

  /** How many entries those are behind one index in front. */
  function Block(f: Fused, heads: nat): nat { Size(PartShape(f.(lead := 1), heads)) }

  /** An index behind the dimensions in front. */
  function Local(f: Fused, heads: nat, g: nat, j: nat, x: nat): nat {
    Flat(Index(0, g, j, x), PartShape(f.(lead := 1), heads))
  }

  function Times(a: nat, b: nat): nat { a * b }

  function Place(a: nat, block: nat, x: nat): nat { Times(a, block) + x }

  lemma Leading(f: Fused, heads: nat, a: nat, g: nat, j: nat, x: nat)
    ensures Size(PartShape(f, heads)) == Times(f.lead, Block(f, heads))
    ensures Flat(Index(a, g, j, x), PartShape(f, heads)) == Place(a, Block(f, heads), Local(f, heads, g, j, x))
  {
    LeadSize(f.lead, f.groups, heads, f.size);
    LeadFlat(a, f.groups, heads, f.size, g, j, x);
  }

  lemma LeadSize(lead: nat, b: nat, c: nat, d: nat)
    ensures lead * b * c * d == lead * (1 * b * c * d)
  {}

  lemma LeadFlat(a: nat, b: nat, c: nat, d: nat, g: nat, j: nat, x: nat)
    ensures ((a * b + g) * c + j) * d + x == a * (1 * b * c * d) + (((0 * b + g) * c + j) * d + x)
  {
    assert (a * b + g) * c == a * b * c + g * c;
    assert (a * b * c + g * c + j) * d == a * b * c * d + (g * c + j) * d;
  }

  /** The heads `from` up to `from + len` of every group, flattened. */
  function Narrow<T>(w: seq<T>, f: Fused, from: nat, len: nat): seq<T>
    requires |w| == Size(FusedShape(f)) && from + len <= f.q + 2
  {
    seq(Size(PartShape(f, len)), r requires 0 <= r < Size(PartShape(f, len)) =>
      NarrowIn(r, f, from, len);
      var i := Unflat(r, PartShape(f, len));
      w[Flat(i.(c := from + i.c), FusedShape(f))])
  }

  lemma NarrowIn(r: nat, f: Fused, from: nat, len: nat)
    requires r < Size(PartShape(f, len)) && from + len <= f.q + 2
    ensures f.groups > 0 && len > 0 && f.size > 0
    ensures var i := Unflat(r, PartShape(f, len)); Flat(i.(c := from + i.c), FusedShape(f)) < Size(FusedShape(f))
  {
    hide Flat, Size, Unflat;
    UnflatFlat(r, PartShape(f, len));
    var i := Unflat(r, PartShape(f, len));
    FlatUnflat(i.(c := from + i.c), FusedShape(f));
  }

  lemma NarrowAt<T>(w: seq<T>, f: Fused, from: nat, len: nat, i: Index)
    requires |w| == Size(FusedShape(f)) && from + len <= f.q + 2 && In(i, PartShape(f, len))
    ensures var to, src := Flat(i, PartShape(f, len)), Flat(i.(c := from + i.c), FusedShape(f));
      to < Size(PartShape(f, len)) && src < |w| && Narrow(w, f, from, len)[to] == w[src]
  {
    hide Flat, Size, Unflat;
    FlatUnflat(i, PartShape(f, len));
    FlatUnflat(i.(c := from + i.c), FusedShape(f));
  }

  /** Concatenation along the dimension behind the leading ones: behind each of `lead` indices
      come `m` entries of the one tensor and then `n` of the other. */
  function Cat<T>(lead: nat, u: seq<T>, m: nat, v: seq<T>, n: nat): (r: seq<T>)
    requires |u| == Times(lead, m) && |v| == Times(lead, n)
    ensures |r| == Times(lead, m + n)
  {
    seq(lead * (m + n), r requires 0 <= r < lead * (m + n) =>
      CatIn(lead, m, n, r);
      var (left, at) := CatFrom(m, n, r);
      if left then u[at] else v[at])
  }

  /** The tensor and the place in it that a place of the concatenation comes from. */
  function CatFrom(m: nat, n: nat, r: nat): (bool, nat)
    requires m + n > 0
  {
    var a, x := r / (m + n), Mod(r, m + n);
    if x < m then (true, a * m + x) else (false, a * n + (x - m))
  }

  lemma CatIn(lead: nat, m: nat, n: nat, r: nat)
    requires r < lead * (m + n)
    ensures m + n > 0
    ensures var (left, at) := CatFrom(m, n, r); at < if left then lead * m else lead * n
  {
    TimesZero(lead, m + n);
    DivBelow(r, lead, m + n);
    var a, x := r / (m + n), r % (m + n);
    if x < m {
      Below(a, lead, x, m);
    } else {
      Below(a, lead, x - m, n);
    }
  }

  lemma CatAt<T>(lead: nat, u: seq<T>, m: nat, v: seq<T>, n: nat, a: nat, x: nat)
    requires |u| == Times(lead, m) && |v| == Times(lead, n) && a < lead && x < m + n
    ensures Place(a, m + n, x) < |Cat(lead, u, m, v, n)|
    ensures x < m ==> Place(a, m, x) < |u| && Cat(lead, u, m, v, n)[Place(a, m + n, x)] == u[Place(a, m, x)]
    ensures m <= x ==> Place(a, n, x - m) < |v| && Cat(lead, u, m, v, n)[Place(a, m + n, x)] == v[Place(a, n, x - m)]
  {
    Below(a, lead, x, m + n);
    DivMod(a, m + n, x);
    CatIn(lead, m, n, a * (m + n) + x);
  }

  lemma PartSize<T>(w: seq<T>, f: Fused, from: nat, len: nat)
    requires |w| == Size(FusedShape(f)) && from + len <= f.q + 2
    ensures |Narrow(w, f, from, len)| == Times(f.lead, Block(f, len))
  {
    Leading(f, len, 0, 0, 0, 0);
  }

  /** All query heads, then all key heads, then all value heads. */
  function FalconQkv<T>(w: seq<T>, f: Fused): seq<T>
    requires |w| == Size(FusedShape(f))
  {
    PartSize(w, f, 0, f.q);
    PartSize(w, f, f.q, 1);
    PartSize(w, f, f.q + 1, 1);
    var queries, one := Block(f, f.q), Block(f, 1);
    var qk := Cat(f.lead, Narrow(w, f, 0, f.q), queries, Narrow(w, f, f.q, 1), one);
    Cat(f.lead, qk, queries + one, Narrow(w, f, f.q + 1, 1), one)
  }

  lemma FusedParts(f: Fused)
    ensures Block(f, f.q + 2) == Block(f, f.q) + Block(f, 1) + Block(f, 1)
    ensures Size(FusedShape(f)) == Times(f.lead, Block(f, f.q + 2))
  {
    Leading(f, f.q + 2, 0, 0, 0, 0);
    var x, y, z := 1 * f.groups * (f.q + 2), 1 * f.groups * f.q, 1 * f.groups * 1;
    assert x == y + z + z;
    assert (y + z + z) * f.size == y * f.size + z * f.size + z * f.size;
  }

  /** Where an entry of head `j` of a group goes, behind the dimensions in front. */
  function LocalTarget(f: Fused, g: nat, j: nat, x: nat): nat {
    if j < f.q then Local(f, f.q, g, j, x)
    else if j == f.q then Block(f, f.q) + Local(f, 1, g, 0, x)
    else Block(f, f.q) + Block(f, 1) + Local(f, 1, g, 0, x)
  }

  function FalconTarget(f: Fused, i: Index): nat {
    Place(i.a, Block(f, f.q + 2), LocalTarget(f, i.b, i.c, i.d))
  }

  /** Behind each index of the dimensions in front, queries, keys and values each form one block,
      with the groups, and in them the heads, in order. */
  lemma FalconAt<T>(w: seq<T>, f: Fused, i: Index)
    requires |w| == Size(FusedShape(f)) && In(i, FusedShape(f))
    ensures |FalconQkv(w, f)| == |w| && FalconTarget(f, i) < |w| && Flat(i, FusedShape(f)) < |w|
    ensures FalconQkv(w, f)[FalconTarget(f, i)] == w[Flat(i, FusedShape(f))]
  {
    hide Size, Flat, Unflat, Block, Local, Narrow, Cat, Place, Times, LocalTarget;
    FusedParts(f);
    PartSize(w, f, 0, f.q);
    PartSize(w, f, f.q, 1);
    PartSize(w, f, f.q + 1, 1);
    PartsAt(w, f, i);
    CatTwiceAt(f.lead, Narrow(w, f, 0, f.q), Block(f, f.q), Narrow(w, f, f.q, 1), Block(f, 1),
               Narrow(w, f, f.q + 1, 1), i.a, LocalTarget(f, i.b, i.c, i.d));
  }

  /** The target's place among the three parts holds the entry. */
  lemma PartsAt<T>(w: seq<T>, f: Fused, i: Index)
    requires |w| == Size(FusedShape(f)) && In(i, FusedShape(f))
    ensures Flat(i, FusedShape(f)) < |w|
    ensures var (m, n, t) := (Block(f, f.q), Block(f, 1), LocalTarget(f, i.b, i.c, i.d));
      var entry := w[Flat(i, FusedShape(f))];
      && t < m + n + n
      && (t < m ==> Holds(Narrow(w, f, 0, f.q), Place(i.a, m, t), entry))
      && (m <= t < m + n ==> Holds(Narrow(w, f, f.q, 1), Place(i.a, n, t - m), entry))
      && (m + n <= t ==> Holds(Narrow(w, f, f.q + 1, 1), Place(i.a, n, t - m - n), entry))
  {
    FlatUnflat(i, FusedShape(f));
    hide Size, Flat, Unflat, Block, Local, Narrow, Place, Times;
    if i.c < f.q {
      PartAt(w, f, 0, f.q, i);
      assert i.(c := 0 + i.c) == i;
    } else if i.c == f.q {
      PartAt(w, f, f.q, 1, i.(c := 0));
    } else {
      PartAt(w, f, f.q + 1, 1, i.(c := 0));
    }
  }

  ghost predicate Holds<T>(s: seq<T>, at: nat, x: T) { at < |s| && s[at] == x }

  lemma CatTwiceAt<T>(lead: nat, u: seq<T>, m: nat, v: seq<T>, n: nat, w: seq<T>, a: nat, x: nat)
    requires |u| == Times(lead, m) && |v| == Times(lead, n) && |w| == Times(lead, n) && a < lead && x < m + n + n
    ensures var r, to := Cat(lead, Cat(lead, u, m, v, n), m + n, w, n), Place(a, m + n + n, x);
      && to < |r|
      && (x < m ==> Place(a, m, x) < |u| && r[to] == u[Place(a, m, x)])
      && (m <= x < m + n ==> Place(a, n, x - m) < |v| && r[to] == v[Place(a, n, x - m)])
      && (m + n <= x ==> Place(a, n, x - m - n) < |w| && r[to] == w[Place(a, n, x - m - n)])
  {
    hide Place, Cat, Times;
    var uv := Cat(lead, u, m, v, n);
    CatAt(lead, uv, m + n, w, n, a, x);
    if x < m + n {
      CatAt(lead, u, m, v, n, a, x);
    }
  }

  lemma PartAt<T>(w: seq<T>, f: Fused, from: nat, len: nat, i: Index)
    requires |w| == Size(FusedShape(f)) && from + len <= f.q + 2 && In(i, PartShape(f, len))
    ensures var to := Place(i.a, Block(f, len), Local(f, len, i.b, i.c, i.d));
      var src := Flat(i.(c := from + i.c), FusedShape(f));
      && Local(f, len, i.b, i.c, i.d) < Block(f, len)
      && to < |Narrow(w, f, from, len)| && src < |w| && Narrow(w, f, from, len)[to] == w[src]
  {
    hide Size, Flat, Unflat;
    NarrowAt(w, f, from, len, i);
    Leading(f, len, i.a, i.b, i.c, i.d);
    FlatUnflat(Index(0, i.b, i.c, i.d), PartShape(f.(lead := 1), len));
  }

  /** The entry that a place behind the dimensions in front comes from. */
  function LocalOrigin(f: Fused, r: nat): Index
    requires r < Block(f, f.q + 2)
  {
    FusedParts(f);
    OriginDefined(f, r);
    var queries, one := Block(f, f.q), Block(f, 1);
    if r < queries then Unflat(r, PartShape(f.(lead := 1), f.q))
    else if r < queries + one then Unflat(r - queries, PartShape(f.(lead := 1), 1)).(c := f.q)
    else Unflat(r - queries - one, PartShape(f.(lead := 1), 1)).(c := f.q + 1)
  }

  lemma OriginDefined(f: Fused, r: nat)
    requires r < Block(f, f.q + 2)
    ensures f.groups > 0 && f.size > 0 && (r < Block(f, f.q) ==> f.q > 0)
  {
    Positive(PartShape(f.(lead := 1), f.q + 2));
    if r < Block(f, f.q) {
      Positive(PartShape(f.(lead := 1), f.q));
    }
  }

  function FalconOrigin(f: Fused, r: nat): Index
    requires r < Size(FusedShape(f))
  {
    OneBlock(f, r);
    var b := Block(f, f.q + 2);
    LocalOrigin(f, Mod(r, b)).(a := r / b)
  }

  lemma OneBlock(f: Fused, r: nat)
    requires r < Size(FusedShape(f))
    ensures Block(f, f.q + 2) > 0
  {
    FusedParts(f);
    hide Block, Size;
    if Block(f, f.q + 2) == 0 {
      TimesZero(f.lead, Block(f, f.q + 2));
    }
  }

  lemma TimesZero(a: nat, b: nat)
    ensures b == 0 ==> a * b == 0
  {}

  /** Every entry goes to exactly one place, and every place gets exactly one entry. */
  lemma FalconOneToOne(f: Fused)
    ensures forall i: Index | In(i, FusedShape(f)) ::
              FalconTarget(f, i) < Size(FusedShape(f)) && FalconOrigin(f, FalconTarget(f, i)) == i
    ensures forall r: nat | r < Size(FusedShape(f)) ::
              In(FalconOrigin(f, r), FusedShape(f)) && FalconTarget(f, FalconOrigin(f, r)) == r
  {
    hide FalconOrigin, FalconTarget, Size;
    forall i: Index | In(i, FusedShape(f))
      ensures FalconTarget(f, i) < Size(FusedShape(f)) && FalconOrigin(f, FalconTarget(f, i)) == i
    {
      FalconBack(f, i);
    }
    forall r: nat | r < Size(FusedShape(f))
      ensures In(FalconOrigin(f, r), FusedShape(f)) && FalconTarget(f, FalconOrigin(f, r)) == r
    {
      FalconForth(f, r);
    }
  }

  lemma FalconBack(f: Fused, i: Index)
    requires In(i, FusedShape(f))
    ensures FalconTarget(f, i) < Size(FusedShape(f)) && FalconOrigin(f, FalconTarget(f, i)) == i
  {
    FusedParts(f);
    LocalBack(f, i.b, i.c, i.d);
    hide Block, LocalTarget, LocalOrigin, Size;
    Below(i.a, f.lead, LocalTarget(f, i.b, i.c, i.d), Block(f, f.q + 2));
    DivMod(i.a, Block(f, f.q + 2), LocalTarget(f, i.b, i.c, i.d));
  }

  lemma FalconForth(f: Fused, r: nat)
    requires r < Size(FusedShape(f))
    ensures In(FalconOrigin(f, r), FusedShape(f)) && FalconTarget(f, FalconOrigin(f, r)) == r
  {
    FusedParts(f);
    OneBlock(f, r);
    hide Block, LocalTarget, LocalOrigin, Size;
    DivBelow(r, f.lead, Block(f, f.q + 2));
    LocalForth(f, r % Block(f, f.q + 2));
  }

  lemma LocalBack(f: Fused, g: nat, j: nat, x: nat)
    requires g < f.groups && j < f.q + 2 && x < f.size
    ensures LocalTarget(f, g, j, x) < Block(f, f.q + 2) && LocalOrigin(f, LocalTarget(f, g, j, x)) == Index(0, g, j, x)
  {
    FusedParts(f);
    hide Flat, Size, Unflat;
    if j < f.q {
      FlatUnflat(Index(0, g, j, x), PartShape(f.(lead := 1), f.q));
    } else {
      FlatUnflat(Index(0, g, 0, x), PartShape(f.(lead := 1), 1));
    }
  }

  lemma LocalForth(f: Fused, r: nat)
    requires r < Block(f, f.q + 2)
    ensures var i := LocalOrigin(f, r);
      i.a == 0 && i.b < f.groups && i.c < f.q + 2 && i.d < f.size && LocalTarget(f, i.b, i.c, i.d) == r
  {
    FusedParts(f);
    OriginDefined(f, r);
    hide Flat, Size, Unflat;
    var queries, one := Block(f, f.q), Block(f, 1);
    if r < queries {
      UnflatFlat(r, PartShape(f.(lead := 1), f.q));
    } else if r < queries + one {
      UnflatFlat(r - queries, PartShape(f.(lead := 1), 1));
    } else {
      UnflatFlat(r - queries - one, PartShape(f.(lead := 1), 1));
    }
  }

  /** What the configuration makes of a weight; without key heads the division fails. */
  function FalconFused(d: Dims, c: FalconConfig): Option<Fused> {
    var groups := KvHeads(c);
    if groups > 0 && Splits(d, groups, c.heads / groups + 2)
    then Some(Fused(d.lead, groups, c.heads / groups, HeadShape(d, groups, c.heads / groups + 2).d))
    else None
  }

  /** In plain numbers: behind each leading index come the query heads of all groups, then their key
      heads, then their value heads, group after group. */
  lemma FalconPlaces(f: Fused, i: Index)
    requires In(i, FusedShape(f))
    ensures Flat(i, FusedShape(f)) == ((i.a * f.groups + i.b) * (f.q + 2) + i.c) * f.size + i.d
    ensures var (n, s) := (f.groups, f.size);
      FalconTarget(f, i)
      == Times(i.a, n * (f.q + 2) * s)
         + (if i.c < f.q then (i.b * f.q + i.c) * s
            else if i.c == f.q then n * f.q * s + i.b * s
            else n * f.q * s + n * s + i.b * s)
         + i.d
  {
    hide Times;
  }

  /** The rearrangement as loaded. */
  function FalconLoad<T>(w: seq<T>, d: Dims, c: FalconConfig): Option<seq<T>>
    requires |w| == Entries(d)
  {
    SplitsRows(d, KvHeads(c), if KvHeads(c) > 0 then c.heads / KvHeads(c) + 2 else 0);
    match FalconFused(d, c)
    case None => None
    case Some(f) => Some(FalconQkv(w, f))
  }

  /** Loading succeeds exactly when there are key heads, and the groups of query, key and value
      heads divide the rows; every entry then goes to its one place by head. */
  lemma FalconLoads<T>(w: seq<T>, d: Dims, c: FalconConfig)
    requires |w| == Entries(d)
    ensures FalconLoad(w, d, c).Some? <==>
              KvHeads(c) > 0 && d.lead > 0 && d.width > 0 && d.rows % (KvHeads(c) * (c.heads / KvHeads(c) + 2)) == 0
    ensures FalconLoad(w, d, c).Some? ==> PlacedByHead(w, FalconFused(d, c).value, FalconLoad(w, d, c).value)
  {
    if KvHeads(c) > 0 {
      SplitsRows(d, KvHeads(c), c.heads / KvHeads(c) + 2);
      hide Size, Entries, Splits, HeadShape, FalconQkv;
      if FalconFused(d, c).Some? {
        AllPlaced(w, FalconFused(d, c).value);
      }
    }
  }

  ghost predicate PlacedByHead<T>(w: seq<T>, f: Fused, r: seq<T>) {
    && |r| == |w| == Size(FusedShape(f))
    && forall i: Index | In(i, FusedShape(f)) ::
         Flat(i, FusedShape(f)) < |w| && Holds(r, FalconTarget(f, i), w[Flat(i, FusedShape(f))])
  }

  lemma AllPlaced<T>(w: seq<T>, f: Fused)
    requires |w| == Size(FusedShape(f))
    ensures PlacedByHead(w, f, FalconQkv(w, f))
  {
    LoadedLength(w, f);
    hide Size, Flat, FalconQkv, FalconTarget;
    forall i: Index | In(i, FusedShape(f))
      ensures Flat(i, FusedShape(f)) < |w| && Holds(FalconQkv(w, f), FalconTarget(f, i), w[Flat(i, FusedShape(f))])
    {
      FalconAt(w, f, i);
    }
  }

  /** The new architecture has the configured key heads, each with its share of the query heads.
      Without it, multi-query makes one group of all query heads, and else each query head has its
      own key and value. */
  lemma FalconHeads(d: Dims, c: FalconConfig)
    requires FalconFused(d, c).Some?
    ensures var f := FalconFused(d, c).value;
      if c.newArchitecture then f.groups == c.kvHeads > 0 && f.q == c.heads / c.kvHeads
      else if c.multiQuery then f.groups == 1 && f.q == c.heads
      else f.groups == c.heads && f.q == 1
  {
    if !c.newArchitecture && !c.multiQuery {
      DivMod(1, c.heads, 0);
    }
  }

  lemma LoadedLength<T>(w: seq<T>, f: Fused)
    requires |w| == Size(FusedShape(f))
    ensures |FalconQkv(w, f)| == |w|
  {
    FusedParts(f);
    hide Size, Block;
  }

  // ----------------------------------------------------------------- Qwen2-VL

  type Cell = (nat, nat)

  datatype Grid = Grid(t: nat, h: nat, w: nat)

  /** The rows and columns of the cells, in row order. */
  function RowIds(h: nat, w: nat): seq<nat> { seq(h * w, i requires 0 <= i < h * w => i / w) }

  function ColIds(h: nat, w: nat): seq<nat> { seq(h * w, i requires 0 <= i < h * w => i % w) }

  function Blocks(g: Grid, m: nat): Shape
    requires m > 0
  {
    Shape(g.h / m, m, g.w / m, m)
  }

  /** The reshape into blocks succeeds: the number of cells is the same. */
  predicate Fits(g: Grid, m: nat) { m > 0 && Size(Blocks(g, m)) == g.h * g.w }

  /** It does for a grid without cells, and else exactly if the merge size divides both sides. */
  lemma FitsWhen(g: Grid, m: nat)
    ensures Fits(g, m) <==> m > 0 && (g.h == 0 || g.w == 0 || (g.h % m == 0 && g.w % m == 0))
  {
    if m > 0 {
      var a, c := g.h / m, g.w / m;
      Regroup(a, m, c);
      assert g.h == a * m + g.h % m && g.w == c * m + g.w % m;
      hide Size;
      if g.h > 0 && g.w > 0 {
        SameProduct(a * m, g.h, c * m, g.w);
      } else {
        NoCells(a, c, m, g.h, g.w);
      }
    }
  }

  lemma SameProduct(x: nat, h: nat, y: nat, w: nat)
    requires x <= h && y <= w && h > 0 && w > 0
    ensures x * y == h * w <==> x == h && y == w
  {
    TimesLess(x, h, y);
    TimesLess(y, w, h);
    Commutes(y, h);
    Commutes(w, h);
  }

  lemma Commutes(a: nat, b: nat)
    ensures a * b == b * a && a * b >= 0
  {}

  lemma NoCells(a: nat, c: nat, m: nat, h: nat, w: nat)
    requires a * m <= h && c * m <= w && (h == 0 || w == 0)
    ensures (a * m) * (c * m) == h * w
  {}

  lemma Regroup(a: nat, m: nat, c: nat)
    ensures a * m * c * m == (a * m) * (c * m)
  {}

  /** One frame's cells in visiting order. */
  function Frame(g: Grid, m: nat): (s: seq<Cell>)
    requires Fits(g, m)
    ensures |s| == g.h * g.w
  {
    var rows, cols := Transposed(RowIds(g.h, g.w), Blocks(g, m)), Transposed(ColIds(g.h, g.w), Blocks(g, m));
    seq(g.h * g.w, i requires 0 <= i < g.h * g.w => (rows[i], cols[i]))
  }

  /** Rows and columns of blocks, then the rows and columns in a block. */
  function BlockIndex(y: nat, x: nat, m: nat): Index
    requires m > 0
  {
    Index(y / m, x / m, y % m, x % m)
  }

  /** The place of a cell in the visiting order. */
  function Visit(g: Grid, m: nat, y: nat, x: nat): nat
    requires m > 0
  {
    Flat(BlockIndex(y, x, m), Swap(Blocks(g, m)))
  }

  lemma CellIndex(g: Grid, m: nat, y: nat, x: nat)
    requires Fits(g, m) && y < g.h && x < g.w
    ensures var i := SwapIndex(BlockIndex(y, x, m));
      In(i, Blocks(g, m)) && Flat(i, Blocks(g, m)) == y * g.w + x && y * g.w + x < g.h * g.w
  {
    BlocksFit(g, m);
    hide Blocks, Fits, Flat, BlockIndex;
    CellDigits(Blocks(g, m), m, y, x, g.h, g.w);
  }

  lemma BlocksFit(g: Grid, m: nat)
    requires Fits(g, m) && g.h > 0 && g.w > 0
    ensures var s := Blocks(g, m); s.a * m == g.h && s.c * m == g.w && s.b == s.d == m > 0
  {
    FitsWhen(g, m);
    hide Fits;
  }

  lemma CellDigits(s: Shape, m: nat, y: nat, x: nat, h: nat, w: nat)
    requires s.b == s.d == m > 0 && s.a * m == h && s.c * m == w && y < h && x < w
    ensures var i := SwapIndex(BlockIndex(y, x, m));
      In(i, s) && Flat(i, s) == y * w + x && y * w + x < h * w
  {
    DivBelow(y, s.a, m);
    DivBelow(x, s.c, m);
    Below(y, h, x, w);
    RowPlace(y, s.c, m, x / m, x % m);
  }

  lemma RowPlace(y: nat, c: nat, m: nat, q: nat, r: nat)
    ensures (y * c + q) * m + r == y * (c * m) + (q * m + r)
  {}

  /** Every cell of the grid is visited exactly once, at its place in merge-block order: by the row
      and column of its block, and then by its row and column in the block. */
  lemma FrameVisits(g: Grid, m: nat, y: nat, x: nat)
    requires Fits(g, m) && y < g.h && x < g.w
    ensures Visit(g, m, y, x) < g.h * g.w && Frame(g, m)[Visit(g, m, y, x)] == (y, x)
    ensures forall k | 0 <= k < g.h * g.w && Frame(g, m)[k] == (y, x) :: k == Visit(g, m, y, x)
    ensures Visit(g, m, y, x) == ((y / m * (g.w / m) + x / m) * m + y % m) * m + x % m
  {
    FrameAt(g, m, y, x);
    assert Visit(g, m, y, x) == ((y / m * (g.w / m) + x / m) * m + y % m) * m + x % m;
    hide Visit, Frame, Fits;
    forall k | 0 <= k < g.h * g.w && Frame(g, m)[k] == (y, x) ensures k == Visit(g, m, y, x) {
      FrameCell(g, m, k);
    }
  }

  lemma FrameAt(g: Grid, m: nat, y: nat, x: nat)
    requires Fits(g, m) && y < g.h && x < g.w
    ensures Visit(g, m, y, x) < g.h * g.w && Frame(g, m)[Visit(g, m, y, x)] == (y, x)
  {
    CellIndex(g, m, y, x);
    DivMod(y, g.w, x);
    hide Flat, Size;
    var i := SwapIndex(BlockIndex(y, x, m));
    TransposedAt(RowIds(g.h, g.w), Blocks(g, m), i);
    TransposedAt(ColIds(g.h, g.w), Blocks(g, m), i);
  }

  /** The cell visited at place `k` lies in the grid, and its place is `k`. */
  lemma FrameCell(g: Grid, m: nat, k: nat)
    requires Fits(g, m) && k < g.h * g.w
    ensures var (y, x) := Frame(g, m)[k]; y < g.h && x < g.w && Visit(g, m, y, x) == k
  {
    SwapSize(Blocks(g, m));
    hide Flat, Size, Unflat, Frame;
    UnflatFlat(k, Swap(Blocks(g, m)));
    var i := Unflat(k, Swap(Blocks(g, m)));
    var y, x := CellOf(i, g, m);
    FrameAt(g, m, y, x);
  }

  lemma CellOf(i: Index, g: Grid, m: nat) returns (y: nat, x: nat)
    requires Fits(g, m) && In(i, Swap(Blocks(g, m)))
    ensures y < g.h && x < g.w && BlockIndex(y, x, m) == i
  {
    y, x := i.a * m + i.c, i.b * m + i.d;
    DivMod(i.a, m, i.c);
    DivMod(i.b, m, i.d);
    BlocksFit(g, m);
    hide Fits;
    Below(i.a, g.h / m, i.c, m);
    Below(i.b, g.w / m, i.d, m);
  }

  function Repeat<T>(s: seq<T>, n: nat): seq<T> { if n == 0 then [] else Repeat(s, n - 1) + s }

  lemma {:induction false} RepeatAt<T>(s: seq<T>, n: nat, k: nat, i: nat)
    requires k < n && i < |s|
    ensures |Repeat(s, k)| + i < |Repeat(s, n)| && Repeat(s, n)[|Repeat(s, k)| + i] == s[i]
  {
    if k < n - 1 {
      RepeatAt(s, n - 1, k, i);
    }
  }

  function AllPositions(gs: seq<Grid>, m: nat): seq<Cell>
    requires forall g | g in gs :: Fits(g, m)
  {
    if gs == [] then []
    else
      var last := gs[|gs| - 1];
      assert forall g | g in gs[..|gs| - 1] :: g in gs;
      AllPositions(gs[..|gs| - 1], m) + Repeat(Frame(last, m), last.t)
  }

  /** The cells of a grid follow those of the grids before it: `t` times the same frame, in
      which place `i` holds the same cell each time. */
  lemma {:induction false} PositionsAt(gs: seq<Grid>, m: nat, n: nat, frame: nat, i: nat)
    requires n < |gs| && (forall g | g in gs :: Fits(g, m)) && frame < gs[n].t
    requires i < |Frame(gs[n], m)|
    ensures forall g | g in gs[..n] :: Fits(g, m)
    ensures var k := |AllPositions(gs[..n], m)| + |Repeat(Frame(gs[n], m), frame)| + i;
      k < |AllPositions(gs, m)| && AllPositions(gs, m)[k] == Frame(gs[n], m)[i]
    decreases |gs|
  {
    hide Fits, Frame, Repeat;
    var front := gs[..|gs| - 1];
    assert forall g | g in front :: g in gs;
    if n < |front| {
      PositionsAt(front, m, n, frame, i);
      assert front[..n] == gs[..n];
    } else {
      RepeatAt(Frame(gs[n], m), gs[n].t, frame, i);
      assert front == gs[..n];
    }
  }

  /** A grid that does not fit makes the reshape fail, and no grid at all the concatenation. */
  method RotPosEmb(gs: seq<Grid>, m: nat) returns (res: Option<seq<Cell>>)
    ensures res.Some? <==> gs != [] && forall g | g in gs :: Fits(g, m)
    ensures res.Some? ==> res.value == AllPositions(gs, m)
  {
    var pos: seq<Cell> := [];
    for n := 0 to |gs|
      invariant forall g | g in gs[..n] :: Fits(g, m)
      invariant pos == AllPositions(gs[..n], m)
    {
      var g := gs[n];
      if !Fits(g, m) {
        return None;
      }
      assert gs[..n + 1][..n] == gs[..n];
      var hpos := Transposed(RowIds(g.h, g.w), Blocks(g, m));
      var wpos := Transposed(ColIds(g.h, g.w), Blocks(g, m));
      var frame := seq(g.h * g.w, i requires 0 <= i < g.h * g.w => (hpos[i], wpos[i]));
      assert frame == Frame(g, m);
      pos := pos + Repeat(frame, g.t);
    }
    assert gs[..|gs|] == gs;
    if gs == [] {
      return None;
    }
    res := Some(pos);
  }
}
