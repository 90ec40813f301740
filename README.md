# Splitter trainer: batch construction, negative pool and accumulator cycle

This project models the non-numeric core of the Splitter persona-embedding
trainer in `src/splitter.py`:

- **The negative-sample pool** (`create_negative_sample_pool`). Every node
  of the persona graph appears `int(1 + degree ** 0.75)` times in a flat
  list, nodes in iteration order.
- **Skip-gram batch construction** (`create_batch_from_path`). One random
  walk yields positive (source, context) pairs from a fixed window: the
  forward offsets first, then the backward ones. Each source's owner index
  is looked up, the sources are replicated for negative sampling, contexts
  drawn from the pool are appended, and targets are laid out as `1.0`s then
  `0.0`s. The results are appended in place to five accumulator lists.
- **The accumulator cycle** (`reset_node_sets`, `optimize`, `fit`). `fit`
  empties the lists and builds the pool. It then processes each minibatch
  walk by walk and hands the lists to one optimizer step, which empties them
  again.
- **Persona-table initialisation** (`Splitter.initialize_weights`). The
  persona table is a gather of base-table rows, one per persona.

Modules:

- `Seqs`: Python's `[x] * n` and `s * n`, and row-major index arithmetic.
- `NegativePool`: the persona graph, the pool weights and the pool.
- `SkipGram`: one walk's pairs, its batch (a `Batch` value with the five
  lists), and the errors a call raises.
- `Embedding`: the `Splitter` class with its two tables.
- `Trainer`: the `SplitterTrainer` class and the specification functions of
  its loops.

The model works as follows:

- The methods of `SplitterTrainer` assign the trainer's list and map fields
  as the source does.
- Each method is proved against a specification function:
  - `CallEffect` for one call of `create_batch_from_path`;
  - `RunWalks` for the walks of one minibatch;
  - `FitRun` for the minibatch loop of `fit`.
- Lemmas then tie these functions to the per-walk batch `WalkBatch` and to
  the per-minibatch batch `MinibatchBatch`.

Randomness is a parameter throughout:

- `np.random.choice` is given as the pool positions it draws (`draws`).
- The `DataLoader`'s minibatches are given as a sequence of walk sequences.
- The randomly initialised embedding rows are given to the `Splitter`
  constructor.

Exceptions become values of type `BatchError`:

- `WalkTooShort` is the `IndexError` of a walk shorter than the window reads.
- `MissingKey` is the `KeyError` of an owner lookup.
- `EmptyPool` is numpy's `ValueError` for sampling from an empty pool.

All three are modelled together with the list updates that precede the
raising line.

The number of positive pairs follows the code's ranges:

- forward pairs use `i in range(L - w)`;
- backward pairs use `i in range(w, L)`.

Both ranges cover `L − w` positions with `w` offsets each, so a walk yields
`2·w·(L−w)` pairs, not `2·w·(L−2w)`, and none when `L ≤ w` or `w = 0`. With
`w = 0` no index of the walk is read at all, so no walk is too short.

## Model

| member | source | states |
|---|---|---|
| NegativePool.FloorPowThreeQuarters | src/splitter.py:159 | `floor(d ** 0.75)` in exact integers: the result `m` satisfies `m^4 <= d^3 < (m+1)^4` |
| NegativePool.FloorPowThreeQuartersUnique | src/splitter.py:159 | any `m` with `m^4 <= d^3 < (m+1)^4` is `FloorPowThreeQuarters(d)`, so the floor is uniquely specified |
| NegativePool.Weight | src/splitter.py:159 | a node's multiplicity `int(1 + d ** 0.75)` is at least 1 and is `1 + floor(d^(3/4))` |
| NegativePool.WeightMonotone | src/splitter.py:159 | a node of higher degree never gets a smaller multiplicity |
| NegativePool.DownsampledDegrees | src/splitter.py:159 | `downsampled_degrees` has exactly the persona nodes as keys, each mapped to a multiplicity of at least 1 |
| NegativePool.PoolCount | src/splitter.py:159-160 | the pool holds exactly `Weight(degree(n))` copies of each persona node `n`, and no other value |
| NegativePool.PoolMembers | src/splitter.py:160 | a value occurs in the pool if and only if it is a persona node |
| NegativePool.PoolBlock | src/splitter.py:160 | the pool's length is the sum of the weights; the copies of the `i`-th node form one contiguous block that starts after the blocks of the nodes before it |
| Seqs.Replicate | src/splitter.py:229 | `[x] * n` has length `n` and every entry `x` |
| Seqs.RepeatMod | src/splitter.py:227 | entry `t` of `s * n` is `s[t % len(s)]` |
| Seqs.RepeatMembers | src/splitter.py:227 | `s * n` holds the values of `s` and nothing else when `n > 0`, and nothing when `n == 0` |
| SkipGram.PositivePairCount | src/splitter.py:219-222 | the source and context lists have equal length `PositiveCount(L, w)`, and each of the forward and backward blocks has `BlockCount(L, w)` pairs |
| SkipGram.PositiveCountClosed | src/splitter.py:219-222 | the number of positive pairs is `2·w·(L−w)`, or 0 when `L ≤ w` |
| SkipGram.ForwardPair | src/splitter.py:219-220 | forward position `i < L−w` with offset `c+1` gives the pair `(walk[i], walk[i+c+1])` at index `i·w + c`, inside the forward block, with `i+c+1 < L` |
| SkipGram.BackwardPair | src/splitter.py:221-222 | backward position `w+r` with offset `c+1` gives the pair `(walk[w+r], walk[w+r−(c+1)])` at index `BlockCount + r·w + c`, after the whole forward block, with `w+r−(c+1) >= 0` |
| SkipGram.PairsExample | src/splitter.py:219-222 | for walk `[7, 8, 9]`, `L = 3`, `w = 1`: sources `[7, 8, 8, 9]` and contexts `[8, 9, 7, 8]`, forward pairs first |
| SkipGram.PairInWalk | src/splitter.py:219-222 | every source and every context of a positive pair is a node of the walk |
| SkipGram.PairsFromWalk | src/splitter.py:219-222 | all positive sources and contexts of a walk are nodes of that walk |
| SkipGram.OwnerIndices | src/splitter.py:226 | the `personas` comprehension succeeds exactly when every source has an owner index; it then has one entry per source, entry `t` being `str2idx[personality_map[source[t]]]` |
| SkipGram.Sampled | src/splitter.py:228 | the sampled negatives are one value per draw, each an element of the pool |
| SkipGram.ZeroWindowEmpty | src/splitter.py:219-229 | with window size 0, any walk, however short, and any pool, even an empty one, yields an empty batch and no exception |
| SkipGram.WalkBatchOutcome | src/splitter.py:218-229 | each exception in both directions: `IndexError` exactly when the window reads past the walk's end (never for `w = 0` or `L ≤ w`); else `KeyError` exactly when an owner lookup fails; else `ValueError` exactly when negatives are drawn from an empty pool; otherwise success |
| SkipGram.WalkBatchPositives | src/splitter.py:225-226 | on success, `pure_sources` is the unreplicated source list of length `P`, `personas[t]` is the owner index of `pure_sources[t]`, and the first `P` contexts are the true contexts |
| SkipGram.WalkBatchLengths | src/splitter.py:224-229 | on success there are `P` pure sources and owners, `k·P` draws, and `(k+1)·P` entries in each of `sources`, `contexts` and `targets` |
| SkipGram.WalkBatchSources | src/splitter.py:227 | entry `t` of the new `sources` is `pure_sources[t mod P]` |
| SkipGram.WalkBatchDrawn | src/splitter.py:228 | after the `P` true contexts, context `t` is the pool entry at draw `t−P` |
| SkipGram.WalkBatchTargets | src/splitter.py:229 | target `t` is `1.0` for `t < P` and `0.0` for the `k·P` entries after |
| SkipGram.WalkBatchShaped | src/splitter.py:224-229 | a walk's batch has one owner per pure source and `k+1` entries per pure source in the replicated lists |
| SkipGram.AppendShaped | src/splitter.py:225-229 | appending one aligned batch to another keeps the five lists aligned |
| Embedding.Gather | src/splitter.py:51 | the gather succeeds exactly when every persona's owner has a base row; row `r` is then the base row `str2idx[owner of the r-th persona]`, one row per persona in iteration order |
| Embedding.PersonaIdsBelowTable | src/splitter.py:51-52 | with personas numbered `0, 1, …` in iteration order, every persona node that has an owner is a row of the gathered persona table, which has `len(mapping)` rows |
| Embedding.GatherAtOwner | src/splitter.py:51 | with personas numbered `0, 1, …` in iteration order, table row `p` is the base row at the owner index the trainer records for `p` |
| Embedding.DictOrderLength | src/splitter.py:51 | iterating the mapping's items visits each key once, so the gather has one row per mapping entry |
| Embedding.Splitter.constructor | src/splitter.py:20-42 | the tables start as the given randomly initialised rows |
| Embedding.Splitter.InitializeWeights | src/splitter.py:44-53 | on success the persona table is the gather (one row per mapping entry) and the base table is exactly the given base embedding; a failed lookup changes neither table |
| Trainer.CallEffectAppends | src/splitter.py:218-229 | a call returns exactly when the walk's batch exists, and then appends that batch to all five lists; otherwise it raises that batch's error |
| Trainer.CallEffectExtends | src/splitter.py:225-229 | whether a call returns or raises, the lists before it are prefixes of the lists after it |
| Trainer.CallEffectShaped | src/splitter.py:225-229 | a call that returns keeps the five lists aligned |
| Trainer.MissingKeyMisaligns | src/splitter.py:225-226 | after a `KeyError` in the owner lookups, `pure_sources` has grown and `personas` has not |
| Trainer.RunWalksFrom | src/splitter.py:271-272 | the walks from index `j` on: walk `j` is processed, and unless it raised, processing continues from walk `j+1` |
| Trainer.MinibatchSucceeds | src/splitter.py:271-272 | a minibatch's walks all return if and only if each walk's batch exists |
| Trainer.RunWalksConcatenates | src/splitter.py:256-272 | processing a minibatch from lists `acc` raises exactly when the minibatch has no batch; otherwise the lists become `acc` followed by the in-order concatenation of the walks' batches |
| Trainer.MinibatchShaped | src/splitter.py:270-272 | a minibatch's batch is aligned and has `(number of walks)·P` pure sources |
| Trainer.FitRunFrom | src/splitter.py:270-274 | the loop from minibatch `i` on: minibatch `i` runs from empty lists, and unless it raises, the loop continues from minibatch `i+1` |
| Trainer.FitRunSteps | src/splitter.py:256-274 | step `i` consumes exactly the concatenated batch of minibatch `i`. Without an exception there is one step per minibatch and the lists end empty. An exception stops the loop in the first minibatch without a batch, and the lists hold what that minibatch's walks appended |
| Trainer.WalkBatchInRange | src/splitter.py:231-239 | for a walk over the persona graph, every source, context and pure source of its batch is a persona node and a row of a persona table that has a row for each persona node, and every owner is a row of a base table that covers all `str2idx` values, so `transfer_batch`'s lookups are in range |
| Trainer.BatchInRange | src/splitter.py:224-228 | for any pool among the nodes, a batch of a walk among the nodes has all its persona indices among them and below the persona table size, and its owner rows below the base table size |
| Trainer.SplitterTrainer.constructor | src/splitter.py:109-153 | the trainer starts with the given walk length, window size and negative count, and with empty lists and maps |
| Trainer.SplitterTrainer.CreateNegativeSamplePool | src/splitter.py:155-160 | sets `downsampled_degrees` and the pool to their definitions over the persona graph; nothing else changes |
| Trainer.SplitterTrainer.ResetNodeSets | src/splitter.py:207-215 | all five accumulators are empty afterwards; nothing else changes |
| Trainer.SplitterTrainer.CreateBatchFromPath | src/splitter.py:218-229 | the new lists and the exception are `CallEffect` of the old lists: on success the walk's batch is appended; on an exception, what the lines before it appended stays; the settings are unchanged |
| Trainer.SplitterTrainer.RunMinibatch | src/splitter.py:271-272 | the lists and the first exception are `RunWalks` from the old lists: walks processed in order, stopping at the first exception |
| Trainer.SplitterTrainer.Optimize | src/splitter.py:241-250 | the step consumes exactly the accumulated lists, which are then empty |
| Trainer.SplitterTrainer.TrainMinibatch | src/splitter.py:270-274 | from empty lists, either the minibatch's walks all return, the step gets exactly what they appended, and the lists end empty; or their first exception is returned with the lists as the walks left them |
| Trainer.SplitterTrainer.Fit | src/splitter.py:252-274 | the pool is built from the persona graph, and the steps, the exception and the final lists are `FitRun` of the minibatches, whose meaning `FitRunSteps` states |

## Left out

- The loss (`calculate_main_loss`, `calculate_regularization`, `forward`, lines 55-102), `loss.backward()`, the Adam step and `zero_grad` are not modelled. They are floating-point and autograd computations. `Optimize` models only what the step receives and the reset after it.
- `transfer_batch` (lines 231-239) converts the lists to tensors and looks up embedding rows in the torch library. `WalkBatchInRange` states only that the looked-up indices are in range. It takes the persona table's row count as a parameter that every persona node is below; `Embedding.PersonaIdsBelowTable` shows this bound for the table `initialize_weights` builds when personas are numbered `0, 1, …` in iteration order, a numbering that comes from `EgoNetSplitter` and is not part of this model. `TrainMinibatch` omits the call, which changes no list the model tracks except turning `targets` into a tensor before the reset.
- `base_model_fit` and `create_split` (lines 162-195) wrap the external `Node2Vec` and `EgoNetSplitter`, whose code is not part of this model. `Fit` takes their results as parameters: the persona map, `str2idx`, the persona graph, and the persona walks grouped into minibatches.
- `setup_model` (lines 197-205), called by `fit`, is modelled by the separate `Embedding.Splitter` class. `Fit` does not construct the model.
- The `DataLoader` (shuffle, batch size 100), `MyDataset`, `tqdm`, logging and the CUDA device are not modelled. The minibatches are given as a parameter, in the order the loader yields them.
- The `save_*` methods (lines 281-310) are file I/O and are not modelled.
- `np.random.choice` is not modelled as random. The positions it draws are a parameter, and `Sampled` returns the pool entries at those positions.
- The random initialisation of `create_weights` is not modelled. The initial rows are constructor parameters.
- `NegativePool.Weight` is exact: `1 + floor(d^(3/4))` in integer arithmetic. The source computes `d ** 0.75` in floating point, which can round just below an exact power and then truncate one lower.
- `Trainer.SplitterTrainer.constructor`: Python's `__init__` does not create the accumulators, the maps or the pool. Later calls create them. The model starts all of them empty.
- Negative settings are not modelled, because `walk_length`, `window_size` and `negative_samples` are `nat`s. In Python, a negative `window_size` reads nothing, like 0, and a negative `walk_length` makes both position ranges empty.
- `.item()` on walk entries (line 226) is not modelled, because walk entries are modelled as persona identifiers directly.
- Persona embedding vectors are opaque values of a type parameter. No arithmetic is done on them.
