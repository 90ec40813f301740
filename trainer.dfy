/** `SplitterTrainer`: the negative-sample pool, the five accumulator lists
    that `create_batch_from_path` extends in place, and the cycle of `fit`
    and `optimize` that hands each optimizer step one minibatch's worth of
    pairs and then empties the lists. */
module Trainer {
  import opened Wrappers
  import opened Seqs
  import opened NegativePool
  import opened SkipGram

  /** Every list of `a` is a prefix of the same list of `b`. */
  predicate Extends(a: Batch, b: Batch)
  {
    a.pureSources <= b.pureSources && a.personas <= b.personas && a.sources <= b.sources &&
    a.contexts <= b.contexts && a.targets <= b.targets
  }

  /** The accumulators after one call of `create_batch_from_path` that
      starts from `acc`, and the exception the call raises, if any
      (src/splitter.py:218-229). A call that raises has already extended
      the lists whose `+=` comes before the raising line: `pure_sources`
      before the lookups of line 226, and `personas` and `sources` as well
      before the sampling of line 228. */
  function CallEffect(cfg: Config, personalityMap: map<PersonaId, OriginalId>, str2idx: map<OriginalId, nat>,
                      pool: seq<PersonaId>, acc: Batch, walk: seq<PersonaId>, draws: seq<nat>)
    : (Batch, Option<BatchError>)
    requires DrawsFit(cfg, pool, draws)
  {
    var L, w, k := cfg.walkLength, cfg.windowSize, cfg.negativeSamples;
    if !WindowFits(walk, L, w) then (acc, Some(WalkTooShort))
    else
      var src, ctx := SourceNodes(walk, L, w), ContextNodes(walk, L, w);
      var withSources := acc.(pureSources := acc.pureSources + src);
      match OwnerIndices(src, personalityMap, str2idx)
      case None => (withSources, Some(MissingKey))
      case Some(owners) =>
        var withOwners := withSources.(personas := acc.personas + owners, sources := acc.sources + Repeat(src, k + 1));
        if |pool| == 0 && |draws| > 0 then (withOwners, Some(EmptyPool))
        else
          (withOwners.(contexts := acc.contexts + (ctx + Sampled(pool, draws)),
                       targets := acc.targets + (Replicate(1.0, |src|) + Replicate(0.0, k * |src|))), None)
  }

  /** A call returns exactly when the walk's batch exists, and then appends
      that batch to all five lists; otherwise it raises the batch's error. */
  lemma {:induction false} CallEffectAppends(cfg: Config, personalityMap: map<PersonaId, OriginalId>,
                                             str2idx: map<OriginalId, nat>, pool: seq<PersonaId>, acc: Batch,
                                             walk: seq<PersonaId>, draws: seq<nat>)
    requires DrawsFit(cfg, pool, draws)
    ensures var r, wb := CallEffect(cfg, personalityMap, str2idx, pool, acc, walk, draws),
                         WalkBatch(cfg, personalityMap, str2idx, pool, walk, draws);
      (r.1.None? <==> wb.Success?) &&
      (r.1.None? ==> r.0 == acc.Append(wb.value)) &&
      (r.1.Some? ==> wb == Failure(r.1.value))
  {
  }

  /** Whether it returns or raises, a call only appends: the lists before
      the call are prefixes of the lists after it. */
  lemma {:induction false} CallEffectExtends(cfg: Config, personalityMap: map<PersonaId, OriginalId>,
                                             str2idx: map<OriginalId, nat>, pool: seq<PersonaId>, acc: Batch,
                                             walk: seq<PersonaId>, draws: seq<nat>)
    requires DrawsFit(cfg, pool, draws)
    ensures Extends(acc, CallEffect(cfg, personalityMap, str2idx, pool, acc, walk, draws).0)
  {
  }

  /** A call that returns keeps the five lists aligned. */
  lemma {:induction false} CallEffectShaped(cfg: Config, personalityMap: map<PersonaId, OriginalId>,
                                            str2idx: map<OriginalId, nat>, pool: seq<PersonaId>, acc: Batch,
                                            walk: seq<PersonaId>, draws: seq<nat>)
    requires DrawsFit(cfg, pool, draws)
    requires acc.Shaped(cfg.negativeSamples)
    requires CallEffect(cfg, personalityMap, str2idx, pool, acc, walk, draws).1.None?
    ensures CallEffect(cfg, personalityMap, str2idx, pool, acc, walk, draws).0.Shaped(cfg.negativeSamples)
  {
    CallEffectAppends(cfg, personalityMap, str2idx, pool, acc, walk, draws);
    WalkBatchShaped(cfg, personalityMap, str2idx, pool, walk, draws);
    AppendShaped(acc, WalkBatch(cfg, personalityMap, str2idx, pool, walk, draws).value, cfg.negativeSamples);
  }

  /** A `KeyError` in the owner lookups leaves `pure_sources` longer than
      `personas`: the lists are no longer aligned after it. */
  lemma {:induction false} MissingKeyMisaligns(cfg: Config, personalityMap: map<PersonaId, OriginalId>,
                                               str2idx: map<OriginalId, nat>, pool: seq<PersonaId>, acc: Batch,
                                               walk: seq<PersonaId>, draws: seq<nat>)
    requires DrawsFit(cfg, pool, draws)
    requires acc.Shaped(cfg.negativeSamples)
    requires CallEffect(cfg, personalityMap, str2idx, pool, acc, walk, draws).1 == Some(MissingKey)
    ensures var after := CallEffect(cfg, personalityMap, str2idx, pool, acc, walk, draws).0;
      |after.personas| < |after.pureSources| && after.personas == acc.personas
  {
  }

  /** The pool positions drawn for each walk of a minibatch fit the pool. */
  predicate AllDrawsFit(cfg: Config, pool: seq<PersonaId>, walks: seq<seq<PersonaId>>, draws: seq<seq<nat>>)
  {
    |draws| == |walks| && forall j :: 0 <= j < |draws| ==> DrawsFit(cfg, pool, draws[j])
  }

  /** The draws of the walks from `m` on fit as well. */
  lemma {:induction false} AllDrawsFitSuffix(cfg: Config, pool: seq<PersonaId>, walks: seq<seq<PersonaId>>,
                                             draws: seq<seq<nat>>, m: nat)
    requires AllDrawsFit(cfg, pool, walks, draws) && m <= |walks|
    ensures AllDrawsFit(cfg, pool, walks[m..], draws[m..])
  {
    assert forall j :: 0 <= j < |walks| - m ==> draws[m..][j] == draws[m + j];
  }

  /** The accumulators after `create_batch_from_path` was called on the
      walks in order, starting from `acc`, and the first exception raised;
      after an exception no further walk is processed (src/splitter.py:271-272). */
  function RunWalks(cfg: Config, personalityMap: map<PersonaId, OriginalId>, str2idx: map<OriginalId, nat>,
                    pool: seq<PersonaId>, acc: Batch, walks: seq<seq<PersonaId>>, draws: seq<seq<nat>>)
    : (Batch, Option<BatchError>)
    requires AllDrawsFit(cfg, pool, walks, draws)
    decreases |walks|
  {
    if walks == [] then (acc, None)
    else
      var r := CallEffect(cfg, personalityMap, str2idx, pool, acc, walks[0], draws[0]);
      if r.1.Some? then r
      else
        AllDrawsFitSuffix(cfg, pool, walks, draws, 1);
        RunWalks(cfg, personalityMap, str2idx, pool, r.0, walks[1..], draws[1..])
  }

  /** The run from walk `j` on: walk `j` is processed and, unless it
      raised, the run goes on from walk `j + 1`. */
  lemma {:induction false} RunWalksFrom(cfg: Config, personalityMap: map<PersonaId, OriginalId>,
                                        str2idx: map<OriginalId, nat>, pool: seq<PersonaId>, acc: Batch,
                                        walks: seq<seq<PersonaId>>, draws: seq<seq<nat>>, j: nat)
    requires AllDrawsFit(cfg, pool, walks, draws) && j < |walks|
    ensures DrawsFit(cfg, pool, draws[j])
    ensures AllDrawsFit(cfg, pool, walks[j..], draws[j..]) && AllDrawsFit(cfg, pool, walks[j + 1..], draws[j + 1..])
    ensures var r := CallEffect(cfg, personalityMap, str2idx, pool, acc, walks[j], draws[j]);
      RunWalks(cfg, personalityMap, str2idx, pool, acc, walks[j..], draws[j..]) ==
        if r.1.Some? then r else RunWalks(cfg, personalityMap, str2idx, pool, r.0, walks[j + 1..], draws[j + 1..])
  {
    AllDrawsFitSuffix(cfg, pool, walks, draws, j);
    AllDrawsFitSuffix(cfg, pool, walks, draws, j + 1);
    assert walks[j..][0] == walks[j] && draws[j..][0] == draws[j];
    assert walks[j..][1..] == walks[j + 1..] && draws[j..][1..] == draws[j + 1..];
  }

  /** The batch of a minibatch: the per-walk batches concatenated in order,
      or the error of the first walk that fails. */
  function MinibatchBatch(cfg: Config, personalityMap: map<PersonaId, OriginalId>, str2idx: map<OriginalId, nat>,
                          pool: seq<PersonaId>, walks: seq<seq<PersonaId>>, draws: seq<seq<nat>>)
    : Result<Batch, BatchError>
    requires AllDrawsFit(cfg, pool, walks, draws)
    decreases |walks|
  {
    if walks == [] then Success(EmptyBatch)
    else
      match WalkBatch(cfg, personalityMap, str2idx, pool, walks[0], draws[0])
      case Failure(e) => Failure(e)
      case Success(first) =>
        AllDrawsFitSuffix(cfg, pool, walks, draws, 1);
        match MinibatchBatch(cfg, personalityMap, str2idx, pool, walks[1..], draws[1..])
        case Failure(e) => Failure(e)
        case Success(rest) => Success(first.Append(rest))
  }

  /** A minibatch has a batch exactly when every one of its walks has one. */
  lemma {:induction false} MinibatchSucceeds(cfg: Config, personalityMap: map<PersonaId, OriginalId>,
                                             str2idx: map<OriginalId, nat>, pool: seq<PersonaId>,
                                             walks: seq<seq<PersonaId>>, draws: seq<seq<nat>>)
    requires AllDrawsFit(cfg, pool, walks, draws)
    ensures MinibatchBatch(cfg, personalityMap, str2idx, pool, walks, draws).Success? <==>
      forall j :: 0 <= j < |walks| ==> WalkBatch(cfg, personalityMap, str2idx, pool, walks[j], draws[j]).Success?
    decreases |walks|
  {
    if walks != [] {
      AllDrawsFitSuffix(cfg, pool, walks, draws, 1);
      var tail, tailDraws := walks[1..], draws[1..];
      MinibatchSucceeds(cfg, personalityMap, str2idx, pool, tail, tailDraws);
      assert forall j :: 0 < j < |walks| ==> walks[j] == tail[j - 1] && draws[j] == tailDraws[j - 1];
    }
  }

  lemma {:induction false} AppendAssoc(a: Batch, b: Batch, c: Batch)
    ensures a.Append(b).Append(c) == a.Append(b.Append(c))
  {
    assert (a.pureSources + b.pureSources) + c.pureSources == a.pureSources + (b.pureSources + c.pureSources);
    assert (a.personas + b.personas) + c.personas == a.personas + (b.personas + c.personas);
    assert (a.sources + b.sources) + c.sources == a.sources + (b.sources + c.sources);
    assert (a.contexts + b.contexts) + c.contexts == a.contexts + (b.contexts + c.contexts);
    assert (a.targets + b.targets) + c.targets == a.targets + (b.targets + c.targets);
  }

  lemma {:induction false} AppendEmpty(a: Batch)
    ensures a.Append(EmptyBatch) == a && EmptyBatch.Append(a) == a
  {
    assert a.pureSources + [] == a.pureSources && [] + a.pureSources == a.pureSources;
  }

  /** Running the walks of a minibatch from `acc` raises exactly when the
      minibatch's batch is an error, and otherwise appends that batch to
      `acc`; from empty lists, the lists then hold exactly the in-order
      concatenation of the per-walk batches (src/splitter.py:256, 270-272). */
  lemma {:induction false} RunWalksConcatenates(cfg: Config, personalityMap: map<PersonaId, OriginalId>,
                                                str2idx: map<OriginalId, nat>, pool: seq<PersonaId>, acc: Batch,
                                                walks: seq<seq<PersonaId>>, draws: seq<seq<nat>>)
    requires AllDrawsFit(cfg, pool, walks, draws)
    ensures var run, mb := RunWalks(cfg, personalityMap, str2idx, pool, acc, walks, draws),
                           MinibatchBatch(cfg, personalityMap, str2idx, pool, walks, draws);
      (run.1.None? <==> mb.Success?) &&
      (run.1.None? ==> run.0 == acc.Append(mb.value)) &&
      (run.1.Some? ==> mb == Failure(run.1.value))
    decreases |walks|
  {
    if walks == [] {
      AppendEmpty(acc);
    } else {
      CallEffectAppends(cfg, personalityMap, str2idx, pool, acc, walks[0], draws[0]);
      var r := CallEffect(cfg, personalityMap, str2idx, pool, acc, walks[0], draws[0]);
      if r.1.None? {
        AllDrawsFitSuffix(cfg, pool, walks, draws, 1);
        RunWalksConcatenates(cfg, personalityMap, str2idx, pool, r.0, walks[1..], draws[1..]);
        var first := WalkBatch(cfg, personalityMap, str2idx, pool, walks[0], draws[0]).value;
        var rest := MinibatchBatch(cfg, personalityMap, str2idx, pool, walks[1..], draws[1..]);
        if rest.Success? {
          AppendAssoc(acc, first, rest.value);
        }
      }
    }
  }

  /** A minibatch's batch is aligned: one owner per pure source and `k + 1`
      entries per pure source in the three replicated lists, with
      `PositiveCount(L, w)` pure sources per walk. */
  lemma {:induction false} MinibatchShaped(cfg: Config, personalityMap: map<PersonaId, OriginalId>,
                                           str2idx: map<OriginalId, nat>, pool: seq<PersonaId>,
                                           walks: seq<seq<PersonaId>>, draws: seq<seq<nat>>)
    requires AllDrawsFit(cfg, pool, walks, draws)
    requires MinibatchBatch(cfg, personalityMap, str2idx, pool, walks, draws).Success?
    ensures MinibatchBatch(cfg, personalityMap, str2idx, pool, walks, draws).value.Shaped(cfg.negativeSamples)
    ensures |MinibatchBatch(cfg, personalityMap, str2idx, pool, walks, draws).value.pureSources| ==
            |walks| * PositiveCount(cfg.walkLength, cfg.windowSize)
    decreases |walks|
  {
    if walks != [] {
      var P := PositiveCount(cfg.walkLength, cfg.windowSize);
      AllDrawsFitSuffix(cfg, pool, walks, draws, 1);
      var first := WalkBatch(cfg, personalityMap, str2idx, pool, walks[0], draws[0]).value;
      var rest := MinibatchBatch(cfg, personalityMap, str2idx, pool, walks[1..], draws[1..]).value;
      MinibatchShaped(cfg, personalityMap, str2idx, pool, walks[1..], draws[1..]);
      WalkBatchShaped(cfg, personalityMap, str2idx, pool, walks[0], draws[0]);
      WalkBatchPositives(cfg, personalityMap, str2idx, pool, walks[0], draws[0]);
      AppendShaped(first, rest, cfg.negativeSamples);
      assert |walks| * P == P + (|walks| - 1) * P;
    }
  }

  /** The pool positions drawn for every walk of every minibatch fit the pool. */
  predicate AllMinibatchesFit(cfg: Config, pool: seq<PersonaId>, minibatches: seq<seq<seq<PersonaId>>>,
                              draws: seq<seq<seq<nat>>>)
  {
    |draws| == |minibatches| && forall i :: 0 <= i < |minibatches| ==> AllDrawsFit(cfg, pool, minibatches[i], draws[i])
  }

  /** The draws of the minibatches from `i` on fit as well. */
  lemma {:induction false} AllMinibatchesFitSuffix(cfg: Config, pool: seq<PersonaId>,
                                                   minibatches: seq<seq<seq<PersonaId>>>, draws: seq<seq<seq<nat>>>, i: nat)
    requires AllMinibatchesFit(cfg, pool, minibatches, draws) && i <= |minibatches|
    ensures AllMinibatchesFit(cfg, pool, minibatches[i..], draws[i..])
  {
    assert forall j :: 0 <= j < |minibatches| - i ==> minibatches[i..][j] == minibatches[i + j] && draws[i..][j] == draws[i + j];
  }

  /** The minibatch loop of `fit` (src/splitter.py:270-274), starting from
      empty lists: the batches the optimizer steps consume, the first
      exception raised, and the lists at the end. Each minibatch runs from
      empty lists, since every step empties them. */
  function FitRun(cfg: Config, personalityMap: map<PersonaId, OriginalId>, str2idx: map<OriginalId, nat>,
                  pool: seq<PersonaId>, minibatches: seq<seq<seq<PersonaId>>>, draws: seq<seq<seq<nat>>>)
    : (seq<Batch>, Option<BatchError>, Batch)
    requires AllMinibatchesFit(cfg, pool, minibatches, draws)
    decreases |minibatches|
  {
    if minibatches == [] then ([], None, EmptyBatch)
    else
      var run := RunWalks(cfg, personalityMap, str2idx, pool, EmptyBatch, minibatches[0], draws[0]);
      if run.1.Some? then ([], run.1, run.0)
      else
        AllMinibatchesFitSuffix(cfg, pool, minibatches, draws, 1);
        var rest := FitRun(cfg, personalityMap, str2idx, pool, minibatches[1..], draws[1..]);
        ([run.0] + rest.0, rest.1, rest.2)
  }

  /** The loop from minibatch `i` on: minibatch `i` runs from empty lists,
      and unless it raises, the loop goes on from minibatch `i + 1`. */
  lemma {:induction false} FitRunFrom(cfg: Config, personalityMap: map<PersonaId, OriginalId>,
                                      str2idx: map<OriginalId, nat>, pool: seq<PersonaId>,
                                      minibatches: seq<seq<seq<PersonaId>>>, draws: seq<seq<seq<nat>>>, i: nat)
    requires AllMinibatchesFit(cfg, pool, minibatches, draws) && i < |minibatches|
    ensures AllDrawsFit(cfg, pool, minibatches[i], draws[i])
    ensures AllMinibatchesFit(cfg, pool, minibatches[i..], draws[i..])
    ensures AllMinibatchesFit(cfg, pool, minibatches[i + 1..], draws[i + 1..])
    ensures var run := RunWalks(cfg, personalityMap, str2idx, pool, EmptyBatch, minibatches[i], draws[i]);
      var rest := FitRun(cfg, personalityMap, str2idx, pool, minibatches[i + 1..], draws[i + 1..]);
      FitRun(cfg, personalityMap, str2idx, pool, minibatches[i..], draws[i..]) ==
        if run.1.Some? then ([], run.1, run.0) else ([run.0] + rest.0, rest.1, rest.2)
  {
    AllMinibatchesFitSuffix(cfg, pool, minibatches, draws, i);
    AllMinibatchesFitSuffix(cfg, pool, minibatches, draws, i + 1);
    assert minibatches[i..][0] == minibatches[i] && draws[i..][0] == draws[i];
    assert minibatches[i..][1..] == minibatches[i + 1..] && draws[i..][1..] == draws[i + 1..];
  }

  /** Each optimizer step consumes exactly the batch of its minibatch, the
      in-order concatenation of the batches of its walks. Without an
      exception there is one step per minibatch and the lists end empty;
      an exception stops the loop in the minibatch after the last step,
      whose batch is that error, with the lists as that minibatch's walks
      left them (src/splitter.py:256, 270-274). */
  lemma {:induction false} FitRunSteps(cfg: Config, personalityMap: map<PersonaId, OriginalId>,
                                       str2idx: map<OriginalId, nat>, pool: seq<PersonaId>,
                                       minibatches: seq<seq<seq<PersonaId>>>, draws: seq<seq<seq<nat>>>)
    requires AllMinibatchesFit(cfg, pool, minibatches, draws)
    ensures var r := FitRun(cfg, personalityMap, str2idx, pool, minibatches, draws);
      |r.0| <= |minibatches| &&
      (forall i :: 0 <= i < |r.0| ==> MinibatchBatch(cfg, personalityMap, str2idx, pool, minibatches[i], draws[i]) == Success(r.0[i])) &&
      (r.1.None? ==> |r.0| == |minibatches| && r.2 == EmptyBatch) &&
      (r.1.Some? ==>
         (|r.0| < |minibatches| &&
          MinibatchBatch(cfg, personalityMap, str2idx, pool, minibatches[|r.0|], draws[|r.0|]) == Failure(r.1.value) &&
          RunWalks(cfg, personalityMap, str2idx, pool, EmptyBatch, minibatches[|r.0|], draws[|r.0|]) == (r.2, r.1)))
    decreases |minibatches|
  {
    if minibatches != [] {
      var run := RunWalks(cfg, personalityMap, str2idx, pool, EmptyBatch, minibatches[0], draws[0]);
      var mb := MinibatchBatch(cfg, personalityMap, str2idx, pool, minibatches[0], draws[0]);
      assert (run.1.None? <==> mb.Success?) && (run.1.None? ==> run.0 == mb.value) by {
        RunWalksConcatenates(cfg, personalityMap, str2idx, pool, EmptyBatch, minibatches[0], draws[0]);
        if mb.Success? {
          AppendEmpty(mb.value);
        }
      }
      if run.1.Some? {
        RunWalksConcatenates(cfg, personalityMap, str2idx, pool, EmptyBatch, minibatches[0], draws[0]);
      } else {
        AllMinibatchesFitSuffix(cfg, pool, minibatches, draws, 1);
        var tail, tailDraws := minibatches[1..], draws[1..];
        FitRunSteps(cfg, personalityMap, str2idx, pool, tail, tailDraws);
        var rest := FitRun(cfg, personalityMap, str2idx, pool, tail, tailDraws);
        var steps := [run.0] + rest.0;
        forall i | 0 <= i < |steps|
          ensures MinibatchBatch(cfg, personalityMap, str2idx, pool, minibatches[i], draws[i]) == Success(steps[i])
        {
          if i > 0 {
            assert minibatches[i] == tail[i - 1] && draws[i] == tailDraws[i - 1];
            assert steps[i] == rest.0[i - 1];
          }
        }
        if rest.1.Some? {
          assert minibatches[|steps|] == tail[|rest.0|] && draws[|steps|] == tailDraws[|rest.0|];
        }
      }
    }
  }

  /** Every persona index of a batch is one of `nodes` and a row below
      `personaRows`, and every owner index a row below `baseRows`. */
  predicate InRange(b: Batch, nodes: seq<PersonaId>, personaRows: nat, baseRows: nat)
  {
    (forall x :: x in b.pureSources ==> x in nodes && x < personaRows) &&
    (forall x :: x in b.sources ==> x in nodes && x < personaRows) &&
    (forall x :: x in b.contexts ==> x in nodes && x < personaRows) &&
    (forall r :: r in b.personas ==> r < baseRows)
  }

  /** The lookups of `transfer_batch` stay in range: with a walk over the
      persona graph and the pool built from that graph, every source and
      context is a persona node, hence a row of a persona table that has a
      row for every persona node, and every owner is a row of a base table
      that holds every `str2idx` value (src/splitter.py:235-239).
      `Embedding.PersonaIdsBelowTable` gives the persona-table bound for the
      table that `initialize_weights` builds. */
  lemma {:induction false} WalkBatchInRange(cfg: Config, personalityMap: map<PersonaId, OriginalId>,
                                            str2idx: map<OriginalId, nat>, g: PersonaGraph,
                                            personaRows: nat, baseRows: nat,
                                            walk: seq<PersonaId>, draws: seq<nat>)
    requires g.Valid()
    requires forall x :: x in walk ==> x in g.nodes
    requires forall x :: x in g.nodes ==> x < personaRows
    requires forall o :: o in str2idx ==> str2idx[o] < baseRows
    requires DrawsFit(cfg, NegativeSamplesPool(g), draws)
    requires WalkBatch(cfg, personalityMap, str2idx, NegativeSamplesPool(g), walk, draws).Success?
    ensures InRange(WalkBatch(cfg, personalityMap, str2idx, NegativeSamplesPool(g), walk, draws).value,
                    g.nodes, personaRows, baseRows)
  {
    var pool := NegativeSamplesPool(g);
    assert forall x :: x in pool ==> x in g.nodes by {
      forall x | x in pool
        ensures x in g.nodes
      {
        PoolMembers(g, x);
      }
    }
    BatchInRange(cfg, personalityMap, str2idx, g.nodes, personaRows, baseRows, pool, walk, draws);
  }

  /** The same for any pool whose values are among `nodes`. */
  lemma {:induction false} BatchInRange(cfg: Config, personalityMap: map<PersonaId, OriginalId>,
                                        str2idx: map<OriginalId, nat>, nodes: seq<PersonaId>,
                                        personaRows: nat, baseRows: nat,
                                        pool: seq<PersonaId>, walk: seq<PersonaId>, draws: seq<nat>)
    requires forall x :: x in walk ==> x in nodes
    requires forall x :: x in pool ==> x in nodes
    requires forall x :: x in nodes ==> x < personaRows
    requires forall o :: o in str2idx ==> str2idx[o] < baseRows
    requires DrawsFit(cfg, pool, draws)
    requires WalkBatch(cfg, personalityMap, str2idx, pool, walk, draws).Success?
    ensures InRange(WalkBatch(cfg, personalityMap, str2idx, pool, walk, draws).value, nodes, personaRows, baseRows)
  {
    var L, w, k := cfg.walkLength, cfg.windowSize, cfg.negativeSamples;
    var src, ctx := SourceNodes(walk, L, w), ContextNodes(walk, L, w);
    var owners, drawn := OwnerIndices(src, personalityMap, str2idx), Sampled(pool, draws);
    var targets := Replicate(1.0, |src|) + Replicate(0.0, k * |src|);
    assert WindowFits(walk, L, w) && owners.Some? &&
           WalkBatch(cfg, personalityMap, str2idx, pool, walk, draws).value ==
           Batch(src, owners.value, Repeat(src, k + 1), ctx + drawn, targets) by {
      WalkBatchParts(cfg, personalityMap, str2idx, pool, walk, draws);
    }
    PairsAmong(walk, L, w, nodes);
    OwnersBelow(src, personalityMap, str2idx, baseRows);
    PartsInRange(src, owners.value, k, ctx, drawn, targets, nodes, pool, personaRows, baseRows);
  }

  /** The pairs of a walk whose nodes are among `nodes` are among `nodes`. */
  lemma {:induction false} PairsAmong(walk: seq<PersonaId>, L: nat, w: nat, nodes: seq<PersonaId>)
    requires WindowFits(walk, L, w)
    requires forall x :: x in walk ==> x in nodes
    ensures forall x :: x in SourceNodes(walk, L, w) ==> x in nodes
    ensures forall x :: x in ContextNodes(walk, L, w) ==> x in nodes
  {
    PairsFromWalk(walk, L, w);
  }

  /** The owner rows of a batch are values of `str2idx`. */
  lemma {:induction false} OwnersBelow(src: seq<PersonaId>, personalityMap: map<PersonaId, OriginalId>,
                                       str2idx: map<OriginalId, nat>, baseRows: nat)
    requires forall o :: o in str2idx ==> str2idx[o] < baseRows
    requires OwnerIndices(src, personalityMap, str2idx).Some?
    ensures forall r :: r in OwnerIndices(src, personalityMap, str2idx).value ==> r < baseRows
  {
    var owners := OwnerIndices(src, personalityMap, str2idx).value;
    forall r | r in owners
      ensures r < baseRows
    {
      var t :| 0 <= t < |owners| && owners[t] == r;
      assert Some(r) == OwnerIndex(src[t], personalityMap, str2idx);
      var o := personalityMap[src[t]];
      assert o in str2idx && r == str2idx[o];
    }
  }

  /** A batch built from sources and contexts among `nodes`, owners below
      `baseRows` and draws from a pool among `nodes` is in range. */
  lemma {:induction false} PartsInRange(src: seq<PersonaId>, owners: seq<nat>, k: nat, ctx: seq<PersonaId>,
                                        drawn: seq<PersonaId>, targets: seq<real>, nodes: seq<PersonaId>,
                                        pool: seq<PersonaId>, personaRows: nat, baseRows: nat)
    requires forall x :: x in src ==> x in nodes
    requires forall x :: x in ctx ==> x in nodes
    requires forall t :: 0 <= t < |drawn| ==> drawn[t] in pool
    requires forall x :: x in pool ==> x in nodes
    requires forall x :: x in nodes ==> x < personaRows
    requires forall r :: r in owners ==> r < baseRows
    ensures InRange(Batch(src, owners, Repeat(src, k + 1), ctx + drawn, targets), nodes, personaRows, baseRows)
  {
    forall x | x in Repeat(src, k + 1)
      ensures x in nodes
    {
      RepeatMembers(src, k + 1, x);
    }
    forall x | x in ctx + drawn
      ensures x in nodes
    {
      assert x in ctx || x in drawn;
    }
  }

  /** The trainer. The settings that batch construction reads are fixed at
      construction; `personalityMap` and `str2idx` come from the persona
      split and the base model, which are not part of this model. */
  class SplitterTrainer {
    const cfg: Config
    var personalityMap: map<PersonaId, OriginalId>
    var str2idx: map<OriginalId, nat>
    var downsampledDegrees: map<PersonaId, nat>
    var negativeSamplesPool: seq<PersonaId>
    var pureSources: seq<PersonaId>
    var personas: seq<nat>
    var sources: seq<PersonaId>
    var contexts: seq<PersonaId>
    var targets: seq<real>

    /** The five accumulator lists as one value. */
    function Accumulated(): Batch
      reads this
    {
      Batch(pureSources, personas, sources, contexts, targets)
    }

    /** The trainer's fields other than the accumulators. */
    function Settings(): (map<PersonaId, OriginalId>, map<OriginalId, nat>, map<PersonaId, nat>, seq<PersonaId>)
      reads this
    {
      (personalityMap, str2idx, downsampledDegrees, negativeSamplesPool)
    }

    /** `__init__` (src/splitter.py:109-153) with the settings that batch
        construction reads. */
    constructor(walkLength: nat, windowSize: nat, negativeSamples: nat)
      ensures cfg == Config(walkLength, windowSize, negativeSamples)
      ensures Settings() == (map[], map[], map[], [])
      ensures Accumulated() == EmptyBatch
    {
      cfg := Config(walkLength, windowSize, negativeSamples);
      personalityMap, str2idx, downsampledDegrees, negativeSamplesPool := map[], map[], map[], [];
      pureSources, personas, sources, contexts, targets := [], [], [], [], [];
    }

    /** `create_negative_sample_pool` (src/splitter.py:155-160). */
    method CreateNegativeSamplePool(g: PersonaGraph)
      requires g.Valid()
      modifies this
      ensures downsampledDegrees == DownsampledDegrees(g)
      ensures negativeSamplesPool == NegativeSamplesPool(g)
      ensures personalityMap == old(personalityMap) && str2idx == old(str2idx)
      ensures Accumulated() == old(Accumulated())
    {
      downsampledDegrees := DownsampledDegrees(g);
      negativeSamplesPool := PoolOf(g.nodes, downsampledDegrees);
    }

    /** `reset_node_sets` (src/splitter.py:207-215). */
    method ResetNodeSets()
      modifies this
      ensures Accumulated() == EmptyBatch
      ensures Settings() == old(Settings())
    {
      pureSources := [];
      personas := [];
      sources := [];
      contexts := [];
      targets := [];
    }

    /** `create_batch_from_path` (src/splitter.py:218-229): on success the
        walk's batch is appended to the five lists; on an exception the
        lists hold what the lines before it appended. */
    method CreateBatchFromPath(walk: seq<PersonaId>, draws: seq<nat>) returns (err: Option<BatchError>)
      requires DrawsFit(cfg, negativeSamplesPool, draws)
      modifies this
      ensures Settings() == old(Settings())
      ensures (Accumulated(), err) ==
              CallEffect(cfg, personalityMap, str2idx, negativeSamplesPool, old(Accumulated()), walk, draws)
    {
      var L, w, k := cfg.walkLength, cfg.windowSize, cfg.negativeSamples;
      if !WindowFits(walk, L, w) {
        return Some(WalkTooShort);
      }
      var sourceNodes := SourceNodes(walk, L, w);
      var contextNodes := ContextNodes(walk, L, w);
      var count := |sourceNodes|;
      pureSources := pureSources + sourceNodes;
      var owners := OwnerIndices(sourceNodes, personalityMap, str2idx);
      if owners.None? {
        return Some(MissingKey);
      }
      personas := personas + owners.value;
      sources := sources + Repeat(sourceNodes, k + 1);
      if |negativeSamplesPool| == 0 && |draws| > 0 {
        return Some(EmptyPool);
      }
      contexts := contexts + (contextNodes + Sampled(negativeSamplesPool, draws));
      targets := targets + (Replicate(1.0, count) + Replicate(0.0, k * count));
      return None;
    }

    /** The inner loop of `fit` (src/splitter.py:271-272): call
        `create_batch_from_path` on each walk of a minibatch in order,
        stopping at the first exception. */
    method RunMinibatch(walks: seq<seq<PersonaId>>, draws: seq<seq<nat>>) returns (err: Option<BatchError>)
      requires AllDrawsFit(cfg, negativeSamplesPool, walks, draws)
      modifies this
      ensures Settings() == old(Settings())
      ensures (Accumulated(), err) ==
              RunWalks(cfg, personalityMap, str2idx, negativeSamplesPool, old(Accumulated()), walks, draws)
    {
      ghost var run := RunWalks(cfg, personalityMap, str2idx, negativeSamplesPool, Accumulated(), walks, draws);
      assert walks[0..] == walks && draws[0..] == draws;
      var j := 0;
      while j < |walks|
        invariant 0 <= j <= |walks|
        invariant Settings() == old(Settings())
        invariant AllDrawsFit(cfg, negativeSamplesPool, walks[j..], draws[j..])
        invariant run == RunWalks(cfg, personalityMap, str2idx, negativeSamplesPool, Accumulated(), walks[j..], draws[j..])
      {
        RunWalksFrom(cfg, personalityMap, str2idx, negativeSamplesPool, Accumulated(), walks, draws, j);
        err := CreateBatchFromPath(walks[j], draws[j]);
        if err.Some? {
          return;
        }
        j := j + 1;
      }
      assert walks[j..] == [] && draws[j..] == [];
      err := None;
    }

    /** `optimize` (src/splitter.py:241-250) as far as the lists go: the
        step consumes the accumulated batch, then the lists are reset. */
    method Optimize() returns (step: Batch)
      modifies this
      ensures step == old(Accumulated())
      ensures Accumulated() == EmptyBatch
      ensures Settings() == old(Settings())
    {
      step := Accumulated();
      ResetNodeSets();
    }

    /** One pass of the loop body of `fit` (src/splitter.py:270-274): the
        walks of one minibatch are processed in order and, if none raised,
        `optimize` takes one step on what they appended and empties the
        lists. */
    method TrainMinibatch(walks: seq<seq<PersonaId>>, draws: seq<seq<nat>>)
      returns (step: Batch, err: Option<BatchError>)
      requires Accumulated() == EmptyBatch
      requires AllDrawsFit(cfg, negativeSamplesPool, walks, draws)
      modifies this
      ensures Settings() == old(Settings())
      ensures var run := RunWalks(cfg, personalityMap, str2idx, negativeSamplesPool, EmptyBatch, walks, draws);
        err == run.1 &&
        (err.None? ==> step == run.0 && Accumulated() == EmptyBatch) &&
        (err.Some? ==> Accumulated() == run.0)
    {
      err := RunMinibatch(walks, draws);
      if err.Some? {
        step := EmptyBatch;
        return;
      }
      step := Optimize();
    }

    /** `fit` (src/splitter.py:252-274): reset the lists, take the results
        of the external steps, build the pool, then run the minibatch loop.
        `FitRunSteps` says what the steps then consume. */
    method Fit(pm: map<PersonaId, OriginalId>, s2i: map<OriginalId, nat>, g: PersonaGraph,
               minibatches: seq<seq<seq<PersonaId>>>, draws: seq<seq<seq<nat>>>)
      returns (steps: seq<Batch>, err: Option<BatchError>)
      requires g.Valid()
      requires AllMinibatchesFit(cfg, NegativeSamplesPool(g), minibatches, draws)
      modifies this
      ensures Settings() == (pm, s2i, DownsampledDegrees(g), NegativeSamplesPool(g))
      ensures (steps, err, Accumulated()) == FitRun(cfg, pm, s2i, NegativeSamplesPool(g), minibatches, draws)
    {
      ResetNodeSets();
      personalityMap, str2idx := pm, s2i;
      CreateNegativeSamplePool(g);
      ghost var pool := negativeSamplesPool;
      steps := [];
      AllMinibatchesFitSuffix(cfg, pool, minibatches, draws, 0);
      assert minibatches[0..] == minibatches && draws[0..] == draws;
      assert steps + FitRun(cfg, pm, s2i, pool, minibatches, draws).0 == FitRun(cfg, pm, s2i, pool, minibatches, draws).0;
      var i := 0;
      while i < |minibatches|
        invariant 0 <= i <= |minibatches|
        invariant pool == NegativeSamplesPool(g)
        invariant Settings() == (pm, s2i, DownsampledDegrees(g), pool)
        invariant Accumulated() == EmptyBatch
        invariant AllMinibatchesFit(cfg, pool, minibatches[i..], draws[i..])
        invariant var rest := FitRun(cfg, pm, s2i, pool, minibatches[i..], draws[i..]);
          FitRun(cfg, pm, s2i, pool, minibatches, draws) == (steps + rest.0, rest.1, rest.2)
      {
        FitRunFrom(cfg, pm, s2i, pool, minibatches, draws, i);
        ghost var run := RunWalks(cfg, pm, s2i, pool, EmptyBatch, minibatches[i], draws[i]);
        ghost var rest := FitRun(cfg, pm, s2i, pool, minibatches[i + 1..], draws[i + 1..]);
        var step;
        step, err := TrainMinibatch(minibatches[i], draws[i]);
        assert personalityMap == pm && str2idx == s2i && negativeSamplesPool == pool;
        assert err == run.1;
        if err.Some? {
          assert Accumulated() == run.0;
          assert FitRun(cfg, pm, s2i, pool, minibatches[i..], draws[i..]) == ([], err, run.0);
          assert steps + [] == steps;
          return;
        }
        assert step == run.0;
        assert steps + ([step] + rest.0) == (steps + [step]) + rest.0;
        steps := steps + [step];
        i := i + 1;
      }
      assert minibatches[i..] == [];
      assert FitRun(cfg, pm, s2i, pool, minibatches[i..], draws[i..]) == ([], None, EmptyBatch);
      assert steps + [] == steps;
      err := None;
    }
  }
}
