/** The skip-gram batch that `SplitterTrainer.create_batch_from_path` builds
    from one random walk: the positive (source, context) pairs of a fixed
    window, the owners of their sources, the sources replicated for negative
    sampling, the contexts followed by sampled negatives, and the targets. */
module SkipGram {
  import opened Wrappers
  import opened Seqs
  import opened NegativePool

  /** A node of the original graph. */
  type OriginalId = int

  /** The trainer's settings that batch construction reads. */
  datatype Config = Config(walkLength: nat, windowSize: nat, negativeSamples: nat)

  /** The walk is long enough for every index the window reads. Nothing is
      read when `walkLength <= windowSize`, where both position ranges are
      empty, nor when `windowSize == 0`, where every offset range is. */
  predicate WindowFits(walk: seq<PersonaId>, L: nat, w: nat)
  {
    L <= w || w == 0 || L <= |walk|
  }

  /** `[walk[i] for i in range(lo, hi) for j in range(1, w + 1)]`: the node
      at each position once per offset. */
  function SourcesFrom(walk: seq<PersonaId>, lo: nat, hi: nat, w: nat): seq<PersonaId>
    requires lo <= hi <= |walk|
    decreases hi - lo
  {
    if lo == hi then [] else Replicate(walk[lo], w) + SourcesFrom(walk, lo + 1, hi, w)
  }

  /** `[walk[i + j] for i in range(lo, hi) for j in range(1, w + 1)]`: the
      `w` nodes after each position. */
  function AfterFrom(walk: seq<PersonaId>, lo: nat, hi: nat, w: nat): seq<PersonaId>
    requires lo <= hi && hi + w <= |walk|
    decreases hi - lo
  {
    if lo == hi then [] else walk[lo + 1 .. lo + w + 1] + AfterFrom(walk, lo + 1, hi, w)
  }

  /** `[walk[i - j] for j in range(1, w + 1)]`: the `w` nodes before
      position `i`, nearest first. */
  function Preceding(walk: seq<PersonaId>, i: nat, w: nat): seq<PersonaId>
    requires w <= i <= |walk|
  {
    seq(w, j requires 0 <= j < w => walk[i - (j + 1)])
  }

  /** `[walk[i - j] for i in range(lo, hi) for j in range(1, w + 1)]`: the
      `w` nodes before each position. */
  function BeforeFrom(walk: seq<PersonaId>, lo: nat, hi: nat, w: nat): seq<PersonaId>
    requires w <= lo <= hi <= |walk|
    decreases hi - lo
  {
    if lo == hi then [] else Preceding(walk, lo, w) + BeforeFrom(walk, lo + 1, hi, w)
  }

  /** Each of the `hi - lo` positions contributes `w` entries. */
  lemma {:induction false} BlockLength(walk: seq<PersonaId>, lo: nat, hi: nat, w: nat)
    requires lo <= hi <= |walk|
    ensures |SourcesFrom(walk, lo, hi, w)| == Rows(hi - lo, w)
    ensures hi + w <= |walk| ==> |AfterFrom(walk, lo, hi, w)| == Rows(hi - lo, w)
    ensures w <= lo ==> |BeforeFrom(walk, lo, hi, w)| == Rows(hi - lo, w)
    decreases hi - lo
  {
    if lo < hi {
      BlockLength(walk, lo + 1, hi, w);
    }
  }

  /** An index into the first part of a concatenation. */
  lemma {:induction false} ConcatLeft(a: seq<PersonaId>, b: seq<PersonaId>, t: nat)
    requires t < |a|
    ensures t < |a + b| && (a + b)[t] == a[t]
  {
  }

  /** An index into the second part of a concatenation. */
  lemma {:induction false} ConcatRight(a: seq<PersonaId>, b: seq<PersonaId>, u: nat)
    requires u < |b|
    ensures |a| + u < |a + b| && (a + b)[|a| + u] == b[u]
  {
  }

  /** Entry `Rows(r, w) + j` (that is, `r * w + j`) of `SourcesFrom` belongs
      to position `p`, the `r`-th position from `lo`. */
  lemma {:induction false} SourcesAt(walk: seq<PersonaId>, lo: nat, hi: nat, w: nat, r: nat, j: nat, p: nat)
    requires p == lo + r && p < hi <= |walk| && j < w
    ensures Rows(r, w) + j < |SourcesFrom(walk, lo, hi, w)|
    ensures SourcesFrom(walk, lo, hi, w)[Rows(r, w) + j] == walk[p]
    decreases r
  {
    var first, rest := Replicate(walk[lo], w), SourcesFrom(walk, lo + 1, hi, w);
    assert SourcesFrom(walk, lo, hi, w) == first + rest;
    if r == 0 {
      ConcatLeft(first, rest, j);
    } else {
      SourcesAt(walk, lo + 1, hi, w, r - 1, j, p);
      ConcatRight(first, rest, Rows(r - 1, w) + j);
    }
  }

  /** Entry `Rows(r, w) + j` of `AfterFrom` is offset `j + 1` after
      position `p`, the `r`-th position from `lo`. */
  lemma {:induction false} AfterAt(walk: seq<PersonaId>, lo: nat, hi: nat, w: nat, r: nat, j: nat, p: nat)
    requires p == lo + r && p < hi && hi + w <= |walk| && j < w
    ensures Rows(r, w) + j < |AfterFrom(walk, lo, hi, w)|
    ensures AfterFrom(walk, lo, hi, w)[Rows(r, w) + j] == walk[p + (j + 1)]
    decreases r
  {
    var first, rest := walk[lo + 1 .. lo + w + 1], AfterFrom(walk, lo + 1, hi, w);
    assert AfterFrom(walk, lo, hi, w) == first + rest;
    if r == 0 {
      ConcatLeft(first, rest, j);
    } else {
      AfterAt(walk, lo + 1, hi, w, r - 1, j, p);
      ConcatRight(first, rest, Rows(r - 1, w) + j);
    }
  }

  /** Entry `Rows(r, w) + j` of `BeforeFrom` is offset `j + 1` before
      position `p`, the `r`-th position from `lo`. */
  lemma {:induction false} BeforeAt(walk: seq<PersonaId>, lo: nat, hi: nat, w: nat, r: nat, j: nat, p: nat)
    requires w <= lo && p == lo + r && p < hi <= |walk| && j < w
    ensures Rows(r, w) + j < |BeforeFrom(walk, lo, hi, w)|
    ensures BeforeFrom(walk, lo, hi, w)[Rows(r, w) + j] == walk[p - (j + 1)]
    decreases r
  {
    var first, rest := Preceding(walk, lo, w), BeforeFrom(walk, lo + 1, hi, w);
    assert BeforeFrom(walk, lo, hi, w) == first + rest;
    if r == 0 {
      ConcatLeft(first, rest, j);
    } else {
      BeforeAt(walk, lo + 1, hi, w, r - 1, j, p);
      ConcatRight(first, rest, Rows(r - 1, w) + j);
    }
  }

  /** `source_nodes`: the forward block over positions `range(L - w)`, then
      the backward block over positions `range(w, L)` (src/splitter.py:219, 221);
      empty when either the position or the offset ranges are. */
  function SourceNodes(walk: seq<PersonaId>, L: nat, w: nat): seq<PersonaId>
    requires WindowFits(walk, L, w)
  {
    if L <= w || w == 0 then [] else SourcesFrom(walk, 0, L - w, w) + SourcesFrom(walk, w, L, w)
  }

  /** `context_nodes`: the nodes after each forward position, then the nodes
      before each backward position (src/splitter.py:220, 222). */
  function ContextNodes(walk: seq<PersonaId>, L: nat, w: nat): seq<PersonaId>
    requires WindowFits(walk, L, w)
  {
    if L <= w || w == 0 then [] else AfterFrom(walk, 0, L - w, w) + BeforeFrom(walk, w, L, w)
  }

  /** The number of pairs in each of the two blocks: `w` per position of
      the range. */
  function BlockCount(L: nat, w: nat): nat
  {
    if L <= w then 0 else Rows(L - w, w)
  }

  /** The number of positive pairs one walk yields, both blocks together. */
  function PositiveCount(L: nat, w: nat): nat
  {
    2 * BlockCount(L, w)
  }

  /** Each of the two blocks holds `BlockCount(L, w)` pairs, so a walk
      yields `PositiveCount(L, w)` of them. */
  lemma {:induction false} PositivePairCount(walk: seq<PersonaId>, L: nat, w: nat)
    requires WindowFits(walk, L, w)
    ensures |SourceNodes(walk, L, w)| == |ContextNodes(walk, L, w)| == PositiveCount(L, w)
    ensures L > w && w > 0 ==>
      |SourcesFrom(walk, 0, L - w, w)| == |SourcesFrom(walk, w, L, w)| == BlockCount(L, w) &&
      |AfterFrom(walk, 0, L - w, w)| == |BeforeFrom(walk, w, L, w)| == BlockCount(L, w)
  {
    if L > w && w > 0 {
      var fs, bs := SourcesFrom(walk, 0, L - w, w), SourcesFrom(walk, w, L, w);
      var fc, bc := AfterFrom(walk, 0, L - w, w), BeforeFrom(walk, w, L, w);
      assert |fs| == |fc| == BlockCount(L, w) by {
        BlockLength(walk, 0, L - w, w);
      }
      assert |bs| == |bc| == BlockCount(L, w) by {
        BlockLength(walk, w, L, w);
      }
      assert SourceNodes(walk, L, w) == fs + bs;
      assert ContextNodes(walk, L, w) == fc + bc;
    } else if L > w {
      RowsIsProduct(L - w, w);
    }
  }

  /** The closed form: `2 * w * (L - w)` positive pairs, or none when
      `L <= w`. */
  lemma {:induction false} PositiveCountClosed(L: nat, w: nat)
    ensures PositiveCount(L, w) == if L <= w then 0 else 2 * w * (L - w)
  {
    if L > w {
      RowsIsProduct(L - w, w);
      assert 2 * w * (L - w) == 2 * ((L - w) * w);
    }
  }

  /** The forward block holds `BlockCount(L, w)` entries. */
  lemma {:induction false} ForwardBlockLength(walk: seq<PersonaId>, L: nat, w: nat)
    requires WindowFits(walk, L, w) && L > w && w > 0
    ensures |SourcesFrom(walk, 0, L - w, w)| == BlockCount(L, w)
    ensures |AfterFrom(walk, 0, L - w, w)| == BlockCount(L, w)
  {
    BlockLength(walk, 0, L - w, w);
  }

  /** Position `i` of the forward range `0 <= i < L - w` with offset
      `c + 1` (`c < w`) yields the pair `(walk[i], walk[i + c + 1])`, at
      index `t == Rows(i, w) + c` (that is, `i * w + c`) of the forward block. */
  lemma {:induction false} ForwardPair(walk: seq<PersonaId>, L: nat, w: nat, i: nat, c: nat, t: nat)
    requires WindowFits(walk, L, w)
    requires i + w < L && c < w && t == Rows(i, w) + c
    ensures i + c + 1 < L
    ensures t < BlockCount(L, w)
    ensures t < |SourceNodes(walk, L, w)| && SourceNodes(walk, L, w)[t] == walk[i]
    ensures t < |ContextNodes(walk, L, w)| && ContextNodes(walk, L, w)[t] == walk[i + c + 1]
  {
    RowsBound(i, L - w, w, c);
    assert t < BlockCount(L, w);
    var fs, bs := SourcesFrom(walk, 0, L - w, w), SourcesFrom(walk, w, L, w);
    var fc, bc := AfterFrom(walk, 0, L - w, w), BeforeFrom(walk, w, L, w);
    assert |fs| == |fc| == BlockCount(L, w) by {
      ForwardBlockLength(walk, L, w);
    }
    assert fs[t] == walk[i] && t < |fs| by {
      SourcesAt(walk, 0, L - w, w, i, c, i);
    }
    assert fc[t] == walk[i + c + 1] && t < |fc| by {
      AfterAt(walk, 0, L - w, w, i, c, i);
    }
    assert SourceNodes(walk, L, w) == fs + bs;
    assert ContextNodes(walk, L, w) == fc + bc;
    ConcatLeft(fs, bs, t);
    ConcatLeft(fc, bc, t);
  }

  /** Position `w + r` of the backward range `w <= i < L` with offset
      `c + 1` yields the pair `(walk[w + r], walk[w + r - (c + 1)])`, at
      index `t == BlockCount(L, w) + (Rows(r, w) + c)`: index `Rows(r, w) + c`
      of the backward block, which follows the whole forward block. */
  lemma {:induction false} BackwardPair(walk: seq<PersonaId>, L: nat, w: nat, r: nat, c: nat, t: nat)
    requires WindowFits(walk, L, w)
    requires w + r < L && c < w && t == BlockCount(L, w) + (Rows(r, w) + c)
    ensures c + 1 <= w + r
    ensures Rows(r, w) + c < BlockCount(L, w)
    ensures t < |SourceNodes(walk, L, w)| && SourceNodes(walk, L, w)[t] == walk[w + r]
    ensures t < |ContextNodes(walk, L, w)| && ContextNodes(walk, L, w)[t] == walk[w + r - (c + 1)]
  {
    var u := Rows(r, w) + c;
    RowsBound(r, L - w, w, c);
    assert u < BlockCount(L, w);
    var fs, bs := SourcesFrom(walk, 0, L - w, w), SourcesFrom(walk, w, L, w);
    var fc, bc := AfterFrom(walk, 0, L - w, w), BeforeFrom(walk, w, L, w);
    assert |fs| == |fc| == BlockCount(L, w) by {
      ForwardBlockLength(walk, L, w);
    }
    assert bs[u] == walk[w + r] && u < |bs| by {
      SourcesAt(walk, w, L, w, r, c, w + r);
    }
    assert bc[u] == walk[w + r - (c + 1)] && u < |bc| by {
      BeforeAt(walk, w, L, w, r, c, w + r);
    }
    assert SourceNodes(walk, L, w) == fs + bs;
    assert ContextNodes(walk, L, w) == fc + bc;
    ConcatRight(fs, bs, u);
    ConcatRight(fc, bc, u);
  }

  /** Entry `t` of the positive pairs is a pair of nodes of the walk. */
  lemma {:induction false} PairInWalk(walk: seq<PersonaId>, L: nat, w: nat, t: nat)
    requires WindowFits(walk, L, w)
    requires t < PositiveCount(L, w)
    ensures t < |SourceNodes(walk, L, w)| && SourceNodes(walk, L, w)[t] in walk
    ensures t < |ContextNodes(walk, L, w)| && ContextNodes(walk, L, w)[t] in walk
  {
    assert L > w && t < 2 * BlockCount(L, w) by {
      PositivePairCount(walk, L, w);
    }
    if t < BlockCount(L, w) {
      var (i, c) := Split(t, L - w, w);
      ForwardPair(walk, L, w, i, c, t);
      assert walk[i] in walk && walk[i + c + 1] in walk;
    } else {
      var (r, c) := Split(t - BlockCount(L, w), L - w, w);
      BackwardPair(walk, L, w, r, c, t);
      assert walk[w + r] in walk && walk[w + r - (c + 1)] in walk;
    }
  }

  /** Every pair of a walk is made of nodes of that walk. */
  lemma {:induction false} PairsFromWalk(walk: seq<PersonaId>, L: nat, w: nat)
    requires WindowFits(walk, L, w)
    ensures |SourceNodes(walk, L, w)| == |ContextNodes(walk, L, w)| == PositiveCount(L, w)
    ensures forall t :: 0 <= t < |SourceNodes(walk, L, w)| ==> SourceNodes(walk, L, w)[t] in walk
    ensures forall t :: 0 <= t < |ContextNodes(walk, L, w)| ==> ContextNodes(walk, L, w)[t] in walk
  {
    PositivePairCount(walk, L, w);
    forall t | 0 <= t < PositiveCount(L, w)
      ensures SourceNodes(walk, L, w)[t] in walk && ContextNodes(walk, L, w)[t] in walk
    {
      PairInWalk(walk, L, w, t);
    }
  }

  /** For the walk `[7, 8, 9]` with `L == 3` and `w == 1`: the forward pairs
      `(7, 8), (8, 9)` come first, then the backward pairs `(8, 7), (9, 8)`. */
  lemma {:induction false} PairsExample()
    ensures SourceNodes([7, 8, 9], 3, 1) == [7, 8, 8, 9]
    ensures ContextNodes([7, 8, 9], 3, 1) == [8, 9, 7, 8]
  {
  }

  /** The five accumulator lists of the trainer. */
  datatype Batch = Batch(pureSources: seq<PersonaId>, personas: seq<nat>, sources: seq<PersonaId>,
                         contexts: seq<PersonaId>, targets: seq<real>)
  {
    /** `+=` on all five lists. */
    function Append(b: Batch): Batch
    {
      Batch(pureSources + b.pureSources, personas + b.personas, sources + b.sources,
            contexts + b.contexts, targets + b.targets)
    }

    /** One owner per positive source; `k + 1` entries per positive source in
        the three replicated lists. */
    predicate Shaped(k: nat)
    {
      |personas| == |pureSources| &&
      |sources| == |contexts| == |targets| == (k + 1) * |pureSources|
    }
  }

  const EmptyBatch := Batch([], [], [], [], [])

  /** What `create_batch_from_path` raises: an `IndexError` for a walk
      shorter than the window reads, a `KeyError` for a source without an
      owner, numpy's `ValueError` for sampling from an empty pool. */
  datatype BatchError = WalkTooShort | MissingKey | EmptyPool

  /** `str2idx[personality_map[p]]`, or `None` where a lookup raises. */
  function OwnerIndex(p: PersonaId, personalityMap: map<PersonaId, OriginalId>,
                      str2idx: map<OriginalId, nat>): Option<nat>
  {
    if p in personalityMap && personalityMap[p] in str2idx then Some(str2idx[personalityMap[p]])
    else None
  }

  /** The `personas` comprehension of src/splitter.py:226; `None` if any
      lookup raises. */
  function OwnerIndices(srcs: seq<PersonaId>, personalityMap: map<PersonaId, OriginalId>,
                        str2idx: map<OriginalId, nat>): (r: Option<seq<nat>>)
    ensures r.Some? <==> forall t :: 0 <= t < |srcs| ==> OwnerIndex(srcs[t], personalityMap, str2idx).Some?
    ensures r.Some? ==> |r.value| == |srcs|
    ensures r.Some? ==> forall t :: 0 <= t < |srcs| ==> Some(r.value[t]) == OwnerIndex(srcs[t], personalityMap, str2idx)
  {
    if srcs == [] then Some([])
    else
      match OwnerIndex(srcs[0], personalityMap, str2idx)
      case None => None
      case Some(o) =>
        match OwnerIndices(srcs[1..], personalityMap, str2idx)
        case None => None
        case Some(os) => Some([o] + os)
  }

  /** The values that `np.random.choice(pool, |draws|)` returns when it
      draws the pool positions `draws`. */
  function Sampled(pool: seq<PersonaId>, draws: seq<nat>): (r: seq<PersonaId>)
    requires forall t :: 0 <= t < |draws| ==> draws[t] < |pool|
    ensures |r| == |draws|
    ensures forall t :: 0 <= t < |r| ==> r[t] in pool
  {
    seq(|draws|, t requires 0 <= t < |draws| => pool[draws[t]])
  }

  /** The pool positions drawn for one walk: one per negative sample, each a
      position of the pool unless the pool is empty. */
  predicate DrawsFit(cfg: Config, pool: seq<PersonaId>, draws: seq<nat>)
  {
    |draws| == cfg.negativeSamples * PositiveCount(cfg.walkLength, cfg.windowSize) &&
    (|pool| > 0 ==> forall t :: 0 <= t < |draws| ==> draws[t] < |pool|)
  }

  /** What one call of `create_batch_from_path` appends, or the error it
      raises (src/splitter.py:218-229). */
  function WalkBatch(cfg: Config, personalityMap: map<PersonaId, OriginalId>, str2idx: map<OriginalId, nat>,
                     pool: seq<PersonaId>, walk: seq<PersonaId>, draws: seq<nat>): Result<Batch, BatchError>
    requires DrawsFit(cfg, pool, draws)
  {
    var L, w, k := cfg.walkLength, cfg.windowSize, cfg.negativeSamples;
    if !WindowFits(walk, L, w) then Failure(WalkTooShort)
    else
      var src, ctx := SourceNodes(walk, L, w), ContextNodes(walk, L, w);
      match OwnerIndices(src, personalityMap, str2idx)
      case None => Failure(MissingKey)
      case Some(owners) =>
        if |pool| == 0 && |draws| > 0 then Failure(EmptyPool)
        else
          Success(Batch(src, owners, Repeat(src, k + 1), ctx + Sampled(pool, draws),
                        Replicate(1.0, |src|) + Replicate(0.0, k * |src|)))
  }

  /** Which exception one call raises: an `IndexError` exactly when the walk
      is shorter than the window reads, else a `KeyError` exactly when a
      source has no owner index, else a `ValueError` exactly when negatives
      are to be drawn from an empty pool; otherwise the call succeeds. */
  lemma {:induction false} WalkBatchOutcome(cfg: Config, personalityMap: map<PersonaId, OriginalId>, str2idx: map<OriginalId, nat>,
                         pool: seq<PersonaId>, walk: seq<PersonaId>, draws: seq<nat>)
    requires DrawsFit(cfg, pool, draws)
    ensures var r, L, w := WalkBatch(cfg, personalityMap, str2idx, pool, walk, draws), cfg.walkLength, cfg.windowSize;
      (r == Failure(WalkTooShort) <==> !WindowFits(walk, L, w)) &&
      (r == Failure(MissingKey) <==>
         WindowFits(walk, L, w) && OwnerIndices(SourceNodes(walk, L, w), personalityMap, str2idx).None?) &&
      (r == Failure(EmptyPool) <==>
         WindowFits(walk, L, w) && OwnerIndices(SourceNodes(walk, L, w), personalityMap, str2idx).Some? &&
         |pool| == 0 && |draws| > 0) &&
      (r.Success? <==>
         WindowFits(walk, L, w) && OwnerIndices(SourceNodes(walk, L, w), personalityMap, str2idx).Some? &&
         (|pool| > 0 || |draws| == 0))
  {
    if WindowFits(walk, cfg.walkLength, cfg.windowSize) {
      PositivePairCount(walk, cfg.walkLength, cfg.windowSize);
    }
  }

  /** With window size 0 no offset is visited, so no index of the walk is
      read: even a walk shorter than `walkLength` yields an empty batch,
      and no negatives are drawn, even from an empty pool. */
  lemma {:induction false} ZeroWindowEmpty(L: nat, k: nat, personalityMap: map<PersonaId, OriginalId>,
                                           str2idx: map<OriginalId, nat>, pool: seq<PersonaId>, walk: seq<PersonaId>)
    ensures DrawsFit(Config(L, 0, k), pool, [])
    ensures WalkBatch(Config(L, 0, k), personalityMap, str2idx, pool, walk, []) == Success(EmptyBatch)
  {
    PositiveCountClosed(L, 0);
    assert Repeat<PersonaId>([], k + 1) == [] by {
      RowsIsProduct(k + 1, 0);
    }
  }

  /** The positive half of one walk's batch (src/splitter.py:225-226): the
      `P` positive sources, the owners of those sources, and the `P` true
      contexts at the front of the contexts. */
  lemma {:induction false} WalkBatchPositives(cfg: Config, personalityMap: map<PersonaId, OriginalId>, str2idx: map<OriginalId, nat>,
                           pool: seq<PersonaId>, walk: seq<PersonaId>, draws: seq<nat>)
    requires DrawsFit(cfg, pool, draws)
    requires WalkBatch(cfg, personalityMap, str2idx, pool, walk, draws).Success?
    ensures var b, L, w := WalkBatch(cfg, personalityMap, str2idx, pool, walk, draws).value,
                           cfg.walkLength, cfg.windowSize;
      var P := PositiveCount(L, w);
      WindowFits(walk, L, w) &&
      b.pureSources == SourceNodes(walk, L, w) && |b.pureSources| == P &&
      |b.personas| == P &&
      (forall t :: 0 <= t < P ==> Some(b.personas[t]) == OwnerIndex(b.pureSources[t], personalityMap, str2idx)) &&
      P <= |b.contexts| && b.contexts[..P] == ContextNodes(walk, L, w)
  {
    PositivePairCount(walk, cfg.walkLength, cfg.windowSize);
    WalkBatchParts(cfg, personalityMap, str2idx, pool, walk, draws);
    var ctx := ContextNodes(walk, cfg.walkLength, cfg.windowSize);
    assert (ctx + Sampled(pool, draws))[..|ctx|] == ctx;
  }

  /** The lengths of a walk's batch: with `P` positive pairs and `k`
      negatives each, `P` pure sources, `k * P` draws, and `(k + 1) * P`
      entries in each replicated list (src/splitter.py:227-229). */
  lemma {:induction false} WalkBatchLengths(cfg: Config, personalityMap: map<PersonaId, OriginalId>, str2idx: map<OriginalId, nat>,
                                            pool: seq<PersonaId>, walk: seq<PersonaId>, draws: seq<nat>)
    requires DrawsFit(cfg, pool, draws)
    requires WalkBatch(cfg, personalityMap, str2idx, pool, walk, draws).Success?
    ensures var b, k := WalkBatch(cfg, personalityMap, str2idx, pool, walk, draws).value, cfg.negativeSamples;
      var P := |b.pureSources|;
      P == PositiveCount(cfg.walkLength, cfg.windowSize) && |draws| == k * P &&
      |b.sources| == |b.contexts| == |b.targets| == (k + 1) * P &&
      |b.contexts| == P + |draws|
  {
    var k, b := cfg.negativeSamples, WalkBatch(cfg, personalityMap, str2idx, pool, walk, draws).value;
    var src, ctx := SourceNodes(walk, cfg.walkLength, cfg.windowSize), ContextNodes(walk, cfg.walkLength, cfg.windowSize);
    var P := |src|;
    assert P == |ctx| == PositiveCount(cfg.walkLength, cfg.windowSize) by {
      PositivePairCount(walk, cfg.walkLength, cfg.windowSize);
    }
    assert b.pureSources == src && b.sources == Repeat(src, k + 1) &&
           b.contexts == ctx + Sampled(pool, draws) &&
           b.targets == Replicate(1.0, P) + Replicate(0.0, k * P) by {
      WalkBatchParts(cfg, personalityMap, str2idx, pool, walk, draws);
    }
    assert |b.sources| == (k + 1) * P by {
      RowsIsProduct(k + 1, P);
    }
    assert |b.contexts| == P + |draws| == P + k * P;
    assert |b.targets| == P + k * P;
    MulSucc(k, P);
  }

  /** `source_nodes * (k + 1)`: entry `t` of `sources` is pure source
      `t % P` (src/splitter.py:227). */
  lemma {:induction false} WalkBatchSources(cfg: Config, personalityMap: map<PersonaId, OriginalId>, str2idx: map<OriginalId, nat>,
                                            pool: seq<PersonaId>, walk: seq<PersonaId>, draws: seq<nat>)
    requires DrawsFit(cfg, pool, draws)
    requires WalkBatch(cfg, personalityMap, str2idx, pool, walk, draws).Success?
    ensures var b := WalkBatch(cfg, personalityMap, str2idx, pool, walk, draws).value;
      forall t :: 0 <= t < |b.sources| ==> 0 < |b.pureSources| && b.sources[t] == b.pureSources[t % |b.pureSources|]
  {
    WalkBatchParts(cfg, personalityMap, str2idx, pool, walk, draws);
    RepeatMod(SourceNodes(walk, cfg.walkLength, cfg.windowSize), cfg.negativeSamples + 1);
  }

  /** After the `P` true contexts, entry `t` of `contexts` is the pool
      entry at draw `t - P` (src/splitter.py:228). */
  lemma {:induction false} WalkBatchDrawn(cfg: Config, personalityMap: map<PersonaId, OriginalId>, str2idx: map<OriginalId, nat>,
                                          pool: seq<PersonaId>, walk: seq<PersonaId>, draws: seq<nat>)
    requires DrawsFit(cfg, pool, draws)
    requires WalkBatch(cfg, personalityMap, str2idx, pool, walk, draws).Success?
    ensures var b := WalkBatch(cfg, personalityMap, str2idx, pool, walk, draws).value;
      |b.contexts| == |b.pureSources| + |draws|
    ensures var b := WalkBatch(cfg, personalityMap, str2idx, pool, walk, draws).value;
      forall t :: |b.pureSources| <= t < |b.contexts| ==>
        draws[t - |b.pureSources|] < |pool| && b.contexts[t] == pool[draws[t - |b.pureSources|]]
  {
    PositivePairCount(walk, cfg.walkLength, cfg.windowSize);
    WalkBatchParts(cfg, personalityMap, str2idx, pool, walk, draws);
  }

  /** `[1] * P + [0] * (k * P)` (src/splitter.py:229). */
  lemma {:induction false} WalkBatchTargets(cfg: Config, personalityMap: map<PersonaId, OriginalId>, str2idx: map<OriginalId, nat>,
                                            pool: seq<PersonaId>, walk: seq<PersonaId>, draws: seq<nat>)
    requires DrawsFit(cfg, pool, draws)
    requires WalkBatch(cfg, personalityMap, str2idx, pool, walk, draws).Success?
    ensures var b := WalkBatch(cfg, personalityMap, str2idx, pool, walk, draws).value;
      forall t :: 0 <= t < |b.targets| ==> b.targets[t] == if t < |b.pureSources| then 1.0 else 0.0
  {
    WalkBatchParts(cfg, personalityMap, str2idx, pool, walk, draws);
  }

  /** The five lists of a successful batch, spelled out. */
  lemma {:induction false} WalkBatchParts(cfg: Config, personalityMap: map<PersonaId, OriginalId>, str2idx: map<OriginalId, nat>,
                       pool: seq<PersonaId>, walk: seq<PersonaId>, draws: seq<nat>)
    requires DrawsFit(cfg, pool, draws)
    requires WalkBatch(cfg, personalityMap, str2idx, pool, walk, draws).Success?
    ensures WindowFits(walk, cfg.walkLength, cfg.windowSize)
    ensures var src := SourceNodes(walk, cfg.walkLength, cfg.windowSize);
      var k := cfg.negativeSamples;
      OwnerIndices(src, personalityMap, str2idx).Some? &&
      (|draws| > 0 ==> |pool| > 0) &&
      WalkBatch(cfg, personalityMap, str2idx, pool, walk, draws).value ==
        Batch(src, OwnerIndices(src, personalityMap, str2idx).value, Repeat(src, k + 1),
              ContextNodes(walk, cfg.walkLength, cfg.windowSize) + Sampled(pool, draws),
              Replicate(1.0, |src|) + Replicate(0.0, k * |src|))
  {
  }

  /** A walk's batch has the shape the five lists keep. */
  lemma {:induction false} WalkBatchShaped(cfg: Config, personalityMap: map<PersonaId, OriginalId>, str2idx: map<OriginalId, nat>,
                        pool: seq<PersonaId>, walk: seq<PersonaId>, draws: seq<nat>)
    requires DrawsFit(cfg, pool, draws)
    requires WalkBatch(cfg, personalityMap, str2idx, pool, walk, draws).Success?
    ensures WalkBatch(cfg, personalityMap, str2idx, pool, walk, draws).value.Shaped(cfg.negativeSamples)
  {
    WalkBatchPositives(cfg, personalityMap, str2idx, pool, walk, draws);
    WalkBatchLengths(cfg, personalityMap, str2idx, pool, walk, draws);
  }

  /** Appending keeps the shape. */
  lemma {:induction false} AppendShaped(a: Batch, b: Batch, k: nat)
    requires a.Shaped(k) && b.Shaped(k)
    ensures a.Append(b).Shaped(k)
  {
    assert (k + 1) * (|a.pureSources| + |b.pureSources|) == (k + 1) * |a.pureSources| + (k + 1) * |b.pureSources|;
  }
}
