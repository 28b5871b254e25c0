/** Row-major tables: what a pair of nested pushing loops builds, and where each entry lands. */
module Tables {
  import opened Arith
  import opened Prelude

  function Row<T>(i: nat, m: nat, f: (nat, nat) -> T): (out: seq<T>)
    ensures |out| == m && forall j :: 0 <= j < m ==> out[j] == f(i, j)
  {
    seq(m, j requires 0 <= j < m => f(i, j))
  }

  lemma RowSnoc<T>(i: nat, m: nat, f: (nat, nat) -> T)
    ensures Row(i, m + 1, f) == Row(i, m, f) + [f(i, m)]
  {
  }

  /** The entries `f(i, j)` for `i < n`, `j < m`, row by row. */
  function Table<T>(n: nat, m: nat, f: (nat, nat) -> T): (out: seq<T>)
    ensures |out| == Times(n, m)
  {
    if n == 0 then [] else
      TimesSnoc(n - 1, m);
      Table(n - 1, m, f) + Row(n - 1, m, f)
  }

  lemma {:induction false} TableAt<T>(n: nat, m: nat, f: (nat, nat) -> T, i: nat, j: nat)
    requires i < n && j < m
    ensures Join(i, m, j) < Times(n, m) && Table(n, m, f)[Join(i, m, j)] == f(i, j)
  {
    JoinSplit(i, j, n, m);
    if i < n - 1 {
      TableAt(n - 1, m, f, i, j);
    }
  }

  /** The `k`-th entry is that of row `k / m`, column `k % m`. */
  lemma TableIndex<T>(n: nat, m: nat, f: (nat, nat) -> T, k: nat)
    requires k < Times(n, m)
    ensures m > 0 && Quot(k, m) < n && Table(n, m, f)[k] == f(Quot(k, m), Rem(k, m))
  {
    SplitJoin(k, n, m);
    TableAt(n, m, f, Quot(k, m), Rem(k, m));
  }

  lemma {:induction false} FlattenLength<T>(parts: seq<seq<T>>, n: nat)
    requires forall i :: 0 <= i < |parts| ==> |parts[i]| == n
    ensures |Flatten(parts)| == Times(|parts|, n)
  {
    if parts != [] {
      FlattenLength(parts[1..], n);
      TimesSnoc(|parts| - 1, n);
    }
  }

  /** Parts of one size: entry `r` of part `q` lands at `q·n + r`. */
  lemma {:induction false} FlattenUniform<T>(parts: seq<seq<T>>, n: nat, q: nat, r: nat)
    requires forall i :: 0 <= i < |parts| ==> |parts[i]| == n
    requires q < |parts| && r < n
    ensures Join(q, n, r) < |Flatten(parts)| == Times(|parts|, n)
    ensures Flatten(parts)[Join(q, n, r)] == parts[q][r]
  {
    FlattenLength(parts, n);
    JoinSplit(q, r, |parts|, n);
    hide Times;
    if q == 0 {
      JoinFirst(n, r);
    } else {
      FlattenUniform(parts[1..], n, q - 1, r);
      JoinNext(q, n, r);
      assert parts[1..][q - 1] == parts[q];
    }
  }
}
