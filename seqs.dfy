/** Sequence helpers for the list idioms of the trainer, `[x] * n` and
    `s * n`, and the index arithmetic of row-major layouts. */
module Seqs {

  /** Python's `[x] * n`, also `[x for i in range(n)]`. */
  function Replicate<T>(x: T, n: nat): (r: seq<T>)
    ensures |r| == n
    ensures forall i :: 0 <= i < n ==> r[i] == x
  {
    if n == 0 then [] else [x] + Replicate(x, n - 1)
  }

  /** `Replicate(x, n)` holds `x` exactly `n` times and nothing else. */
  lemma {:induction false} ReplicateCount<T>(x: T, n: nat, y: T)
    ensures multiset(Replicate(x, n))[y] == if y == x then n else 0
  {
    if n > 0 {
      ReplicateCount(x, n - 1, y);
      assert Replicate(x, n) == [x] + Replicate(x, n - 1);
    }
  }

  /** The number of cells of `n` rows of width `w`, counted row by row.
      Index arithmetic over layouts is stated with `Rows` so that each step
      from one row to the next is an addition; `RowsIsProduct` ties it to
      `n * w`. */
  function Rows(n: nat, w: nat): nat
  {
    if n == 0 then 0 else w + Rows(n - 1, w)
  }

  lemma {:induction false} RowsIsProduct(n: nat, w: nat)
    ensures Rows(n, w) == n * w
  {
    if n > 0 {
      RowsIsProduct(n - 1, w);
      assert n * w == w + (n - 1) * w;
    }
  }

  /** One more row of width `w`. */
  lemma {:induction false} MulSucc(n: nat, w: nat)
    ensures (n + 1) * w == w + n * w
  {
  }

  /** Row `i`, column `j` of an `n`-row layout of width `w` lies inside it. */
  lemma {:induction false} RowsBound(i: nat, n: nat, w: nat, j: nat)
    requires i < n && j < w
    ensures Rows(i, w) + j < Rows(n, w)
  {
    if i < n - 1 {
      RowsBound(i, n - 1, w, j);
    }
  }

  /** The row and column of index `t` of an `R`-row layout of width `w`,
      found row by row. */
  function Split(t: nat, R: nat, w: nat): (rc: (nat, nat))
    requires t < Rows(R, w)
    ensures rc.0 < R && rc.1 < w && t == Rows(rc.0, w) + rc.1
  {
    if t < Rows(R - 1, w) then Split(t, R - 1, w) else (R - 1, t - Rows(R - 1, w))
  }

  /** Quotient and remainder of an index into an `R`-row layout of width `w`. */
  lemma {:induction false} DivMod(t: nat, w: nat, R: nat)
    requires t < Rows(R, w)
    ensures 0 < w && t / w < R && t % w < w && t == Rows(t / w, w) + t % w
  {
    RowsIsProduct(R, w);
    RowsIsProduct(t / w, w);
    assert 0 < w;
    DivBelow(t, w, R);
  }

  lemma {:induction false} DivBelow(t: nat, w: nat, R: nat)
    requires 0 < w && t < R * w
    ensures t / w < R
  {
  }

  /** Python's `s * n`: `n` copies of `s`, one after the other. */
  function Repeat<T>(s: seq<T>, n: nat): (r: seq<T>)
    ensures |r| == Rows(n, |s|)
  {
    if n == 0 then [] else s + Repeat(s, n - 1)
  }

  /** Cell `j` of copy `c` of `s * n` is entry `j` of `s`. */
  lemma {:induction false} RepeatAt<T>(s: seq<T>, n: nat, c: nat, j: nat)
    requires c < n && j < |s|
    ensures Rows(c, |s|) + j < |Repeat(s, n)| && Repeat(s, n)[Rows(c, |s|) + j] == s[j]
  {
    RowsBound(c, n, |s|, j);
    var rest := Repeat(s, n - 1);
    assert Repeat(s, n) == s + rest;
    if c > 0 {
      RepeatAt(s, n - 1, c - 1, j);
      assert (s + rest)[|s| + (Rows(c - 1, |s|) + j)] == rest[Rows(c - 1, |s|) + j];
    }
  }

  /** `s * n` holds the values of `s`, and nothing else, unless `n` is 0. */
  lemma {:induction false} RepeatMembers<T>(s: seq<T>, n: nat, x: T)
    ensures x in Repeat(s, n) <==> n > 0 && x in s
  {
    if n > 0 {
      RepeatMembers(s, n - 1, x);
      assert Repeat(s, n) == s + Repeat(s, n - 1);
    }
  }

  /** Entry `t` of `s * n` is entry `t % |s|` of `s`. */
  lemma {:induction false} RepeatMod<T>(s: seq<T>, n: nat)
    ensures |Repeat(s, n)| > 0 ==> |s| > 0
    ensures forall t :: 0 <= t < |Repeat(s, n)| ==> Repeat(s, n)[t] == s[t % |s|]
  {
    if |Repeat(s, n)| > 0 {
      RepeatModAt(s, n, 0);
    }
    forall t | 0 <= t < |Repeat(s, n)|
      ensures Repeat(s, n)[t] == s[t % |s|]
    {
      RepeatModAt(s, n, t);
    }
  }

  lemma {:induction false} RepeatModAt<T>(s: seq<T>, n: nat, t: nat)
    requires t < |Repeat(s, n)|
    ensures 0 < |s| && Repeat(s, n)[t] == s[t % |s|]
  {
    DivMod(t, |s|, n);
    RepeatAt(s, n, t / |s|, t % |s|);
  }
}
