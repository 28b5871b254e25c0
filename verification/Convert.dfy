/** src/gguf/convert.rs (`permute_inverse_qk`): undoing the per-head row permutation of query and key projections. */
module Convert {
  import opened Arith
  import opened Prelude

  /** The row of the stored matrix that row `x` of the restored one comes from: in a head of `2·half` rows, row
      `k·half + j` comes from row `2·j + k`. */
  function SourceRow(half: nat, x: nat): nat
    requires half > 0
  {
    var h, r := Quot(x, 2 * half), Rem(x, 2 * half);
    Join(h, 2 * half, 2 * Rem(r, half) + Quot(r, half))
  }

  /** The forward permutation, `reshape(n_head, 2, half).swapaxes(1, 2)`: row `2·j + k` comes from row
      `k·half + j`. */
  function ForwardRow(half: nat, x: nat): nat
    requires half > 0
  {
    var h, r := Quot(x, 2 * half), Rem(x, 2 * half);
    Join(h, 2 * half, Join(r % 2, half, r / 2))
  }

  lemma WithinHead(half: nat, r: nat)
    requires half > 0 && r < 2 * half
    ensures Quot(r, half) < 2 && Rem(r, half) < half && Join(Quot(r, half), half, Rem(r, half)) == r
  {
    SplitJoin(r, 2, half);
  }

  /** The two row maps stay in range and are inverse to each other, so the gather is a bijection. */
  lemma RowsAreInverse(nHead: nat, half: nat, x: nat)
    requires half > 0 && x < Times(nHead, 2 * half)
    ensures SourceRow(half, x) < Times(nHead, 2 * half) && ForwardRow(half, x) < Times(nHead, 2 * half)
    ensures ForwardRow(half, SourceRow(half, x)) == x && SourceRow(half, ForwardRow(half, x)) == x
  {
    hide Times, Join, Quot, Rem;
    SplitJoin(x, nHead, 2 * half);
    var h, r := Quot(x, 2 * half), Rem(x, 2 * half);
    WithinHead(half, r);
    var k, j := Quot(r, half), Rem(r, half);
    JoinSplit(h, 2 * j + k, nHead, 2 * half);
    TimesTwo(half);
    JoinSplit(r % 2, r / 2, 2, half);
    JoinSplit(h, Join(r % 2, half, r / 2), nHead, 2 * half);
  }

  lemma TimesTwo(half: nat)
    ensures Times(2, half) == 2 * half
  {
  }

  ghost predicate IsEntry(data: seq<real>, inDim: nat, source: nat -> nat, i: nat, v: real)
  {
    && inDim > 0
    && var from := Join(source(Quot(i, inDim)), inDim, Rem(i, inDim));
       from < |data| && v == data[from]
  }

  /** The matrix whose row `x` is row `source(x)` of `data`; anything past the last row is zero. */
  ghost predicate Gathered(data: seq<real>, inDim: nat, rows: nat, source: nat -> nat, res: seq<real>)
  {
    && |res| == |data|
    && (forall i :: 0 <= i < Times(rows, inDim) && i < |res| ==> IsEntry(data, inDim, source, i, res[i]))
    && forall i :: Times(rows, inDim) <= i < |res| ==> res[i] == 0.0
  }

  predicate Permutable(shape: seq<nat>, nHead: nat)
    requires |shape| > 0
  {
    nHead > 0 && shape[0] % nHead == 0 && shape[0] / nHead % 2 == 0
  }

  /** Restore the row order, head by head; refused exactly when the rows do not divide into heads of even width. */
  method PermuteInverseQk(data: seq<real>, shape: seq<nat>, nHead: nat) returns (r: Result<seq<real>, Error>)
    requires |shape| > 0 && (|shape| == 2 || shape[0] > 0)
    requires Times(shape[0], if |shape| == 2 then shape[1] else |data| / shape[0]) <= |data|
    ensures r.Ok? <==> Permutable(shape, nHead)
    ensures
      var inDim := if |shape| == 2 then shape[1] else |data| / shape[0];
      r.Ok? ==>
        && shape[0] == Times(nHead, 2 * HalfOf(shape[0], nHead))
        && Gathered(data, inDim, shape[0], SourceOrZero(shape[0], nHead), r.value)
  {
    var out := shape[0];
    var inDim := if |shape| == 2 then shape[1] else |data| / out;
    if nHead == 0 || out % nHead != 0 {
      return Err(Msg("gguf: q/k permute: rows not divisible by n_head"));
    }
    var headDim := out / nHead;
    if headDim % 2 != 0 {
      return Err(Msg("gguf: q/k permute: odd head_dim"));
    }
    var half := headDim / 2;
    HeadsFill(out, nHead, half);
    hide Times, SourceRow, Gathered;
    assert half == HalfOf(out, nHead);
    if half == 0 {
      TimesSnoc(0, inDim);
      var zeros := seq(|data|, _ => 0.0);
      NoneDone(data, inDim, SourceOrZero(shape[0], nHead), zeros);
      r := Ok(zeros);
      assert shape[0] == 0 by {
        NoRows(nHead);
      }
    } else {
      var res := PermuteHeads(data, inDim, nHead, half, SourceOrZero(shape[0], nHead));
      r := Ok(res);
    }
  }

  lemma NoRows(nHead: nat)
    ensures Times(nHead, 0) == 0
  {
  }

  /** The copying loops. */
  method PermuteHeads(data: seq<real>, inDim: nat, nHead: nat, half: nat, ghost source: nat -> nat)
      returns (res: seq<real>)
    requires half > 0 && Times(Times(nHead, 2 * half), inDim) <= |data|
    requires forall x: nat :: x < Times(nHead, 2 * half) ==> source(x) == SourceRow(half, x)
    ensures Gathered(data, inDim, Times(nHead, 2 * half), source, res)
  {
    hide Times, Join, Quot, Rem, SourceRow, Gathered;
    var headDim := 2 * half;
    var out := Times(nHead, headDim);
    res := seq(|data|, _ => 0.0);
    TimesSnoc(0, headDim);
    NoneDone(data, inDim, source, res);
    for h := 0 to nHead
      invariant |res| == |data| && Gathered(data, inDim, Times(h, headDim), source, res)
    {
      TimesSnoc(h, headDim);
      for r := 0 to headDim
        invariant |res| == |data| && Gathered(data, inDim, Join(h, headDim, r), source, res)
      {
        var k, j := Quot(r, half), Rem(r, half);
        WithinHead(half, r);
        var src := Join(h, headDim, 2 * j + k);
        var dst := Join(h, headDim, r);
        JoinSplit(h, r, nHead, headDim);
        JoinSplit(h, 2 * j + k, nHead, headDim);
        JoinNextRow(h, headDim, r);
        SourceOf(half, dst, h, r);
        RowFits(src, out, inDim, |data|);
        RowFits(dst, out, inDim, |data|);
        CopyRow(data, inDim, dst, src, source, res);
        var copied := data[Times(src, inDim)..Times(src, inDim) + inDim];
        res := res[..Times(dst, inDim)] + copied + res[Times(dst, inDim) + inDim..];
      }
    }
  }

  lemma NoneDone(data: seq<real>, inDim: nat, source: nat -> nat, res: seq<real>)
    requires |res| == |data| && forall i :: 0 <= i < |res| ==> res[i] == 0.0
    ensures Gathered(data, inDim, 0, source, res)
  {
    TimesSnoc(0, inDim);
  }

  /** The row gather as a function of the row. */
  function SourceOrZero(out: nat, nHead: nat): nat -> nat
  {
    (x: nat) => if HalfOf(out, nHead) > 0 then SourceRow(HalfOf(out, nHead), x) else 0
  }

  function HalfOf(out: nat, nHead: nat): nat { if nHead == 0 then 0 else out / nHead / 2 }

  lemma HeadsFill(out: nat, nHead: nat, half: nat)
    requires nHead > 0 && out % nHead == 0 && out / nHead % 2 == 0 && half == out / nHead / 2
    ensures out == Times(nHead, 2 * half) && 2 * half == out / nHead && (out > 0 ==> half > 0)
  {
    assert out == out / nHead * nHead;
  }

  lemma SourceOf(half: nat, x: nat, h: nat, r: nat)
    requires half > 0 && r < 2 * half && x == Join(h, 2 * half, r)
    ensures SourceRow(half, x) == Join(h, 2 * half, 2 * Rem(r, half) + Quot(r, half))
  {
    hide Times, Join, Quot, Rem;
    JoinSplit(h, r, h + 1, 2 * half);
  }

  lemma JoinNextRow(q: nat, d: nat, r: nat)
    ensures Join(q, d, r + 1) == Join(q, d, r) + 1
  {
  }

  lemma RowFits(x: nat, rows: nat, inDim: nat, size: nat)
    requires x < rows && Times(rows, inDim) <= size
    ensures Times(x, inDim) + inDim == Times(x + 1, inDim) <= size
  {
    TimesSnoc(x, inDim);
    MulMonotone(x + 1, rows, inDim);
  }

  lemma CopyRow(data: seq<real>, inDim: nat, dst: nat, src: nat, source: nat -> nat, res: seq<real>)
    requires Gathered(data, inDim, dst, source, res) && src == source(dst)
    requires Times(src, inDim) + inDim <= |data| && Times(dst, inDim) + inDim == Times(dst + 1, inDim) <= |data|
    ensures
      var copied := data[Times(src, inDim)..Times(src, inDim) + inDim];
      Gathered(data, inDim, dst + 1, source, res[..Times(dst, inDim)] + copied + res[Times(dst, inDim) + inDim..])
  {
    var start, from := Times(dst, inDim), Times(src, inDim);
    var all := res[..start] + data[from..from + inDim] + res[start + inDim..];
    forall i | 0 <= i < start + inDim ensures IsEntry(data, inDim, source, i, all[i]) {
      if i < start {
        assert all[i] == res[i];
      } else {
        RowEntry(dst, inDim, i);
        assert Join(src, inDim, i - start) == from + (i - start);
        assert all[i] == data[from..from + inDim][i - start];
      }
    }
  }

  lemma RowEntry(dst: nat, inDim: nat, i: nat)
    requires Times(dst, inDim) <= i < Times(dst, inDim) + inDim
    ensures Quot(i, inDim) == dst && Rem(i, inDim) == i - Times(dst, inDim)
  {
    DivUnique(i, dst, i - dst * inDim, inDim);
  }

  /** Permuting forward and back, or back and forward, restores every matrix. */
  lemma PermutationsCancel(data: seq<real>, inDim: nat, nHead: nat, half: nat, first: seq<real>, second: seq<real>,
      forward: bool)
    requires half > 0 && |data| == Times(Times(nHead, 2 * half), inDim)
    requires Gathered(data, inDim, Times(nHead, 2 * half),
                      (x: nat) => if forward then ForwardRow(half, x) else SourceRow(half, x), first)
    requires Gathered(first, inDim, Times(nHead, 2 * half),
                      (x: nat) => if forward then SourceRow(half, x) else ForwardRow(half, x), second)
    ensures second == data
  {
    hide Times, Join, Quot, Rem, SourceRow, ForwardRow;
    var rows := Times(nHead, 2 * half);
    forall i | 0 <= i < |data| ensures second[i] == data[i] {
      SplitJoin(i, rows, inDim);
      var x, c := Quot(i, inDim), Rem(i, inDim);
      RowsAreInverse(nHead, half, x);
      var y := if forward then SourceRow(half, x) else ForwardRow(half, x);
      JoinSplit(y, c, rows, inDim);
      assert IsEntry(first, inDim, (x: nat) => if forward then SourceRow(half, x) else ForwardRow(half, x), i,
          second[i]);
      assert second[i] == first[Join(y, inDim, c)];
      assert IsEntry(data, inDim, (x: nat) => if forward then ForwardRow(half, x) else SourceRow(half, x),
          Join(y, inDim, c), first[Join(y, inDim, c)]);
    }
  }
}
