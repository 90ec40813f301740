/** The two embedding tables of the `Splitter` model and their
    initialisation (`Splitter.create_weights`, `Splitter.initialize_weights`):
    the persona table becomes a gather of base rows, one per persona, and
    the base table becomes the given base embedding. Vectors are opaque
    values of type `V`; no arithmetic is done on them. */
module Embedding {
  import opened Wrappers
  import opened NegativePool
  import opened SkipGram

  /** `str2idx[o]` as a row of a base table with `n` rows, or `None` where
      the lookup raises a `KeyError` or the row does not exist. */
  function BaseRow(o: OriginalId, str2idx: map<OriginalId, nat>, n: nat): Option<nat>
  {
    if o in str2idx && str2idx[o] < n then Some(str2idx[o]) else None
  }

  /** `order` lists the keys of `personalityMap` in iteration order, each once. */
  predicate DictOrder(personalityMap: map<PersonaId, OriginalId>, order: seq<PersonaId>)
  {
    (forall i, j :: 0 <= i < j < |order| ==> order[i] != order[j]) &&
    (forall p :: p in personalityMap ==> p in order) &&
    (forall p :: p in order ==> p in personalityMap)
  }

  /** `[base[str2idx[o]] for node, o in mapping.items()]` with the items
      visited in `order` (src/splitter.py:51); `None` if a lookup raises. */
  function Gather<V>(base: seq<V>, personalityMap: map<PersonaId, OriginalId>, order: seq<PersonaId>,
                     str2idx: map<OriginalId, nat>): (r: Option<seq<V>>)
    requires forall p :: p in order ==> p in personalityMap
    ensures r.Some? <==>
      forall row :: 0 <= row < |order| ==> BaseRow(personalityMap[order[row]], str2idx, |base|).Some?
    ensures r.Some? ==> |r.value| == |order|
    ensures r.Some? ==> forall row :: 0 <= row < |order| ==>
      personalityMap[order[row]] in str2idx && str2idx[personalityMap[order[row]]] < |base| &&
      r.value[row] == base[str2idx[personalityMap[order[row]]]]
  {
    if order == [] then Some([])
    else
      match BaseRow(personalityMap[order[0]], str2idx, |base|)
      case None => None
      case Some(k) =>
        match Gather(base, personalityMap, order[1..], str2idx)
        case None => None
        case Some(rows) => Some([base[k]] + rows)
  }

  /** When the personas are the consecutive ids `0, 1, ...` in iteration
      order, table row `p` is the base row of persona `p`'s owner, the row
      that the trainer records in `personas` for `p` (src/splitter.py:51, 226). */
  lemma {:induction false} GatherAtOwner<V>(base: seq<V>, personalityMap: map<PersonaId, OriginalId>, order: seq<PersonaId>,
                         str2idx: map<OriginalId, nat>, p: PersonaId)
    requires forall i :: 0 <= i < |order| ==> order[i] == i
    requires forall q :: q in order ==> q in personalityMap
    requires Gather(base, personalityMap, order, str2idx).Some?
    requires p < |order|
    ensures OwnerIndex(p, personalityMap, str2idx).Some?
    ensures OwnerIndex(p, personalityMap, str2idx).value < |base|
    ensures Gather(base, personalityMap, order, str2idx).value[p] == base[OwnerIndex(p, personalityMap, str2idx).value]
  {
    assert order[p] == p;
  }

  /** Iterating a dict visits each of its keys once, so a gather over the
      items has one row per entry of the mapping. */
  lemma {:induction false} DictOrderLength(personalityMap: map<PersonaId, OriginalId>, order: seq<PersonaId>)
    requires DictOrder(personalityMap, order)
    ensures |order| == |personalityMap|
  {
    if order == [] {
      assert personalityMap.Keys == {};
    } else {
      var p := order[0];
      var rest := personalityMap - {p};
      forall q
        ensures q in rest <==> q in order[1..]
      {
        if q in order[1..] {
          var i :| 1 <= i < |order| && order[i] == q;
          assert order[0] != order[i];
        }
        assert q in order <==> q == order[0] || q in order[1..];
      }
      DictOrderLength(rest, order[1..]);
      assert personalityMap.Keys == rest.Keys + {p};
    }
  }

  /** When the personas are the consecutive ids `0, 1, ...` in iteration
      order and every persona node has an owner, every persona node is a row
      of the persona table that the gather builds, which has one row per
      mapping entry (src/splitter.py:51-52). */
  lemma {:induction false} PersonaIdsBelowTable(personalityMap: map<PersonaId, OriginalId>, order: seq<PersonaId>,
                                                nodes: seq<PersonaId>)
    requires DictOrder(personalityMap, order)
    requires forall i :: 0 <= i < |order| ==> order[i] == i
    requires forall x :: x in nodes ==> x in personalityMap
    ensures forall x :: x in nodes ==> x < |personalityMap|
  {
    DictOrderLength(personalityMap, order);
    forall x | x in nodes
      ensures x < |personalityMap|
    {
      var i :| 0 <= i < |order| && order[i] == x;
    }
  }

  /** The model's two tables. `baseTable` has one row per node of the
      original graph, `personaTable` one row per persona. */
  class Splitter<V> {
    const baseNodeCount: nat
    const nodeCount: nat
    var baseTable: seq<V>
    var personaTable: seq<V>

    /** `__init__` followed by `create_weights` (src/splitter.py:20-42); the
        randomly initialised rows are supplied by the caller. */
    constructor(baseNodeCount: nat, nodeCount: nat, randomBase: seq<V>, randomPersona: seq<V>)
      requires |randomBase| == baseNodeCount && |randomPersona| == nodeCount
      ensures this.baseNodeCount == baseNodeCount && this.nodeCount == nodeCount
      ensures baseTable == randomBase && personaTable == randomPersona
    {
      this.baseNodeCount := baseNodeCount;
      this.nodeCount := nodeCount;
      baseTable := randomBase;
      personaTable := randomPersona;
    }

    /** `initialize_weights` (src/splitter.py:44-53): the persona table
        becomes the gather, whatever `nodeCount` was, and the base table
        becomes `base`; a lookup that raises leaves both tables as they were. */
    method InitializeWeights(base: seq<V>, personalityMap: map<PersonaId, OriginalId>, order: seq<PersonaId>,
                             str2idx: map<OriginalId, nat>) returns (ok: bool)
      requires DictOrder(personalityMap, order)
      modifies this
      ensures ok <==> Gather(base, personalityMap, order, str2idx).Some?
      ensures ok ==> personaTable == Gather(base, personalityMap, order, str2idx).value && baseTable == base
      ensures ok ==> |personaTable| == |personalityMap|
      ensures !ok ==> personaTable == old(personaTable) && baseTable == old(baseTable)
    {
      var rows := Gather(base, personalityMap, order, str2idx);
      if rows.None? {
        return false;
      }
      DictOrderLength(personalityMap, order);
      personaTable := rows.value;
      baseTable := base;
      return true;
    }
  }
}
