/** src/gguf/dequant.rs, the k-quant super-blocks: 256 weights a block, packed to 2, 3, 4, 5 or 6 bits with packed
    sub-block scales. What each loop writes, the layouts it undoes, and whole tensors of blocks. Half-precision scales
    are an arbitrary function of their two bytes. */
module Dequant {
  import opened Arith
  import opened Prelude

  type Half = (bv8, bv8) -> real

  datatype Kind = Q2K | Q3K | Q4K | Q5K | Q6K

  /** One super-block before packing: the bytes of its scale and minimum factor, its sub-block scales and minimums, and
      its 256 quants. */
  datatype KBlock = KBlock(d: (bv8, bv8), dmin: (bv8, bv8), scales: seq<bv8>, mins: seq<bv8>, quants: seq<bv8>)

  function At(b: seq<bv8>, k: nat): bv8 { if k < |b| then b[k] else 0 }

  function Real(x: int): real { x as real }

  /** The single-bit masks. */
  function Bit(k: nat): bv8
  {
    match k
    case 0 => 1
    case 1 => 2
    case 2 => 4
    case 3 => 8
    case 4 => 16
    case 5 => 32
    case 6 => 64
    case _ => 128
  }

  function Lo(x: bv8): bv8 { x & 0xF }

  function Hi(x: bv8): bv8 { x >> 4 }

  function LowTwo(x: bv8): bv8 { x & 3 }

  predicate HasBit(x: bv8, mask: bv8) { x & mask != 0 }

  /** Four low bits and two high ones. */
  function SixBits(nibble: bv8, crumb: bv8): bv8 { nibble | (crumb << 4) }

  /** A byte read as a signed integer. */
  function I8(b: bv8): int { if b < 128 then b as int else b as int - 256 }

  /** It is the one signed number that agrees with the byte modulo 256. */
  lemma SignedByte(b: bv8)
    ensures -128 <= I8(b) < 128 && (I8(b) - b as int) % 256 == 0
  {
    assert (b as int - 256 - b as int) % 256 == 0;
  }

  // ----- what the loops write, entry by entry -----

  /** Entries `[base, base + n)` of `y` are `f(0), f(1), …`; nothing else has changed. */
  ghost predicate Wrote(y: array<real>, was: seq<real>, base: nat, n: nat, f: nat -> real)
    reads y
  {
    && y.Length == |was| && base + n <= |was|
    && (forall i :: 0 <= i < n ==> y[base + i] == f(i))
    && forall i :: 0 <= i < |was| && !(base <= i < base + n) ==> y[i] == was[i]
  }

  lemma NothingWrote(y: array<real>, base: nat, f: nat -> real)
    requires base + 256 <= y.Length
    ensures Wrote(y, y[..], base, 0, f)
  {
  }

  lemma WroteAll(y: array<real>, was: seq<real>, base: nat, f: nat -> real)
    requires Wrote(y, was, base, 256, f)
    ensures y.Length == |was| && base + 256 <= y.Length
    ensures forall i :: 0 <= i < 256 ==> y[base + i] == f(i)
    ensures forall i :: 0 <= i < |was| && !(base <= i < base + 256) ==> y[i] == was[i]
  {
  }

  /** Store the next entry. */
  method Put(y: array<real>, ghost was: seq<real>, base: nat, yi: nat, v: real, ghost f: nat -> real)
    requires Wrote(y, was, base, yi, f) && base + yi < y.Length && v == f(yi)
    modifies y
    ensures Wrote(y, was, base, yi + 1, f)
  {
    y[base + yi] := v;
  }

  /** `x >> s` for the even shifts the loops use. */
  function Shr(x: bv8, s: nat): bv8
  {
    match s
    case 0 => x
    case 2 => x >> 2
    case 4 => x >> 4
    case 6 => x >> 6
    case _ => 0
  }

  lemma Split128(n: nat, k: nat, h: nat, l: nat)
    requires k < 4 && h < 2 && l < 16
    ensures var i := 128 * n + 32 * k + 16 * h + l;
      i / 128 == n && i % 128 / 32 == k && i % 32 == 16 * h + l && i / 16 == 8 * n + 2 * k + h
  {
  }

  /** Scale times quant, less minimum. */
  function Affine(d: real, scale: int, quant: int, dmin: real, min: int): real
  {
    d * Real(scale) * Real(quant) - dmin * Real(min)
  }

  // ----- 2 bits -----

  function ElemQ2K(f16: Half, b: seq<bv8>, i: nat): real
  {
    var n, k, pos := i / 128, i % 128 / 32, i % 32;
    var sc := At(b, i / 16);
    Affine(f16(At(b, 80), At(b, 81)), Lo(sc) as int, LowTwo(Shr(At(b, 16 + 32 * n + pos), 2 * k)) as int,
           f16(At(b, 82), At(b, 83)), Hi(sc) as int)
  }

  lemma ElemQ2KAt(f16: Half, b: seq<bv8>, n: nat, k: nat, h: nat, l: nat)
    requires |b| == 84 && n < 2 && k < 4 && h < 2 && l < 16
    ensures
      var sc := b[8 * n + 2 * k + h];
      ElemQ2K(f16, b, 128 * n + 32 * k + 16 * h + l)
        == Affine(f16(b[80], b[81]), Lo(sc) as int, LowTwo(Shr(b[16 + 32 * n + 16 * h + l], 2 * k)) as int,
                  f16(b[82], b[83]), Hi(sc) as int)
  {
    hide Affine, Shr, Lo, Hi, LowTwo;
    Split128(n, k, h, l);
  }

  /** The sixteen weights of one sub-block. */
  method RunQ2K(f16: Half, b: seq<bv8>, y: array<real>, ghost was: seq<real>, base: nat, n: nat, k: nat, half: nat,
                d: real, dmin: real, shift: nat, ghost f: nat -> real)
    requires |b| == 84 && n < 2 && k < 4 && half < 2 && base + 256 <= y.Length
    requires Wrote(y, was, base, 128 * n + 32 * k + 16 * half, f)
    requires d == f16(b[80], b[81]) && dmin == f16(b[82], b[83]) && shift == 2 * k
    requires forall i: nat :: f(i) == ElemQ2K(f16, b, i)
    modifies y
    ensures Wrote(y, was, base, 128 * n + 32 * k + 16 * half + 16, f)
  {
    hide Wrote, ElemQ2K, Real, Lo, Hi, LowTwo, Shr;
    var sc := b[8 * n + 2 * k + half];
    var dl, ml := d * Real(Lo(sc) as int), dmin * Real(Hi(sc) as int);
    for l := 0 to 16
      invariant Wrote(y, was, base, 128 * n + 32 * k + 16 * half + l, f)
    {
      ElemQ2KAt(f16, b, n, k, half, l);
      var v := dl * Real(LowTwo(Shr(b[16 + 32 * n + 16 * half + l], shift)) as int) - ml;
      Put(y, was, base, 128 * n + 32 * k + 16 * half + l, v, f);
    }
  }

  method DequantQ2K(f16: Half, b: seq<bv8>, y: array<real>, base: nat)
    requires |b| == 84 && base + 256 <= y.Length
    modifies y
    ensures forall i :: 0 <= i < 256 ==> y[base + i] == ElemQ2K(f16, b, i)
    ensures forall i :: 0 <= i < y.Length && !(base <= i < base + 256) ==> y[i] == old(y[i])
  {
    hide Wrote, ElemQ2K;
    ghost var was, f := y[..], (i: nat) => ElemQ2K(f16, b, i);
    NothingWrote(y, base, f);
    var d, dmin := f16(b[80], b[81]), f16(b[82], b[83]);
    for n := 0 to 2
      invariant Wrote(y, was, base, 128 * n, f)
    {
      var shift := 0;
      for k := 0 to 4
        invariant shift == 2 * k && Wrote(y, was, base, 128 * n + 32 * k, f)
      {
        RunQ2K(f16, b, y, was, base, n, k, 0, d, dmin, shift, f);
        RunQ2K(f16, b, y, was, base, n, k, 1, d, dmin, shift, f);
        shift := shift + 2;
      }
    }
    WroteAll(y, was, base, f);
    forall i | 0 <= i < 256 ensures y[base + i] == ElemQ2K(f16, b, i) {
      assert y[base + i] == f(i);
    }
  }

  // ----- 3 bits -----

  function Word(a: bv8, b: bv8, c: bv8, d: bv8): bv32
  {
    (a as bv32) | ((b as bv32) << 8) | ((c as bv32) << 16) | ((d as bv32) << 24)
  }

  /** Byte `k` of a word. */
  function ByteOf(w: bv32, k: nat): bv8
  {
    match k
    case 0 => (w & 0xFF) as bv8
    case 1 => ((w >> 8) & 0xFF) as bv8
    case 2 => ((w >> 16) & 0xFF) as bv8
    case _ => ((w >> 24) & 0xFF) as bv8
  }

  const KMASK1: bv32 := 0x03030303
  const KMASK2: bv32 := 0x0f0f0f0f

  /** The per-byte formula: a nibble of one byte (low for the first eight scales, high for the rest) and two bits of
      another, which pair of bits depending on the group of four. */
  function LaneByte(g: nat, x: bv8, t: bv8): bv8
  {
    match g
    case 0 => (x & 0xF) | ((t & 3) << 4)
    case 1 => (x & 0xF) | (((t >> 2) & 3) << 4)
    case 2 => (x >> 4) | (((t >> 4) & 3) << 4)
    case _ => (x >> 4) | (((t >> 6) & 3) << 4)
  }

  /** Sub-block `k`'s 6-bit scale in the 12 packed bytes. */
  function ScaleQ3(raw: seq<bv8>, k: nat): bv8
  {
    LaneByte(k / 4, At(raw, k % 8), At(raw, 8 + k % 4))
  }

  function Lane(g: nat, w: bv32, tmp: bv32): bv32
  {
    match g
    case 0 => (w & KMASK2) | ((tmp & KMASK1) << 4)
    case 1 => (w & KMASK2) | (((tmp >> 2) & KMASK1) << 4)
    case 2 => ((w >> 4) & KMASK2) | (((tmp >> 4) & KMASK1) << 4)
    case _ => ((w >> 4) & KMASK2) | (((tmp >> 6) & KMASK1) << 4)
  }

  lemma Lane0(a: bv8, b: bv8, c: bv8, d: bv8, p: bv8, q: bv8, r: bv8, s: bv8)
    ensures var w := Lane(0, Word(a, b, c, d), Word(p, q, r, s));
      && ByteOf(w, 0) == LaneByte(0, a, p) && ByteOf(w, 1) == LaneByte(0, b, q)
      && ByteOf(w, 2) == LaneByte(0, c, r) && ByteOf(w, 3) == LaneByte(0, d, s)
  {
  }

  lemma Lane1(a: bv8, b: bv8, c: bv8, d: bv8, p: bv8, q: bv8, r: bv8, s: bv8)
    ensures var w := Lane(1, Word(a, b, c, d), Word(p, q, r, s));
      && ByteOf(w, 0) == LaneByte(1, a, p) && ByteOf(w, 1) == LaneByte(1, b, q)
      && ByteOf(w, 2) == LaneByte(1, c, r) && ByteOf(w, 3) == LaneByte(1, d, s)
  {
  }

  lemma Lane2(a: bv8, b: bv8, c: bv8, d: bv8, p: bv8, q: bv8, r: bv8, s: bv8)
    ensures var w := Lane(2, Word(a, b, c, d), Word(p, q, r, s));
      && ByteOf(w, 0) == LaneByte(2, a, p) && ByteOf(w, 1) == LaneByte(2, b, q)
      && ByteOf(w, 2) == LaneByte(2, c, r) && ByteOf(w, 3) == LaneByte(2, d, s)
  {
  }

  lemma Lane3(a: bv8, b: bv8, c: bv8, d: bv8, p: bv8, q: bv8, r: bv8, s: bv8)
    ensures var w := Lane(3, Word(a, b, c, d), Word(p, q, r, s));
      && ByteOf(w, 0) == LaneByte(3, a, p) && ByteOf(w, 1) == LaneByte(3, b, q)
      && ByteOf(w, 2) == LaneByte(3, c, r) && ByteOf(w, 3) == LaneByte(3, d, s)
  {
  }

  lemma LaneBytes(g: nat, j: nat, x: seq<bv8>, t: seq<bv8>)
    requires g < 4 && j < 4 && |x| == 4 && |t| == 4
    ensures ByteOf(Lane(g, Word(x[0], x[1], x[2], x[3]), Word(t[0], t[1], t[2], t[3])), j) == LaneByte(g, x[j], t[j])
  {
    hide Lane, LaneByte, Word, ByteOf;
    match g {
      case 0 => Lane0(x[0], x[1], x[2], x[3], t[0], t[1], t[2], t[3]);
      case 1 => Lane1(x[0], x[1], x[2], x[3], t[0], t[1], t[2], t[3]);
      case 2 => Lane2(x[0], x[1], x[2], x[3], t[0], t[1], t[2], t[3]);
      case 3 => Lane3(x[0], x[1], x[2], x[3], t[0], t[1], t[2], t[3]);
    }
  }

  /** The four words after the word-parallel unpacking. */
  function Unpacked(a0: bv32, a1: bv32, tmp: bv32): (u: seq<bv32>)
    ensures |u| == 4
  {
    [Lane(0, a0, tmp), Lane(1, a1, tmp), Lane(2, a0, tmp), Lane(3, a1, tmp)]
  }

  /** Unpacking four scales at a time with 32-bit masks gives each scale its own byte's formula. */
  lemma WordParallelIsPerByte(raw: seq<bv8>, k: nat)
    requires |raw| == 12 && k < 16
    ensures
      var u := Unpacked(Word(raw[0], raw[1], raw[2], raw[3]), Word(raw[4], raw[5], raw[6], raw[7]),
                        Word(raw[8], raw[9], raw[10], raw[11]));
      ByteOf(u[k / 4], k % 4) == ScaleQ3(raw, k)
  {
    hide Lane, LaneByte, Word, ByteOf;
    LaneBytes(k / 4, k % 4, if k / 4 % 2 == 0 then raw[..4] else raw[4..8], raw[8..]);
  }

  /** Scale times quant. */
  function Linear(d: real, scale: int, quant: int): real { d * Real(scale) * Real(quant) }

  function ElemQ3K(f16: Half, b: seq<bv8>, i: nat): real
    requires |b| == 110
  {
    var n, k, pos := i / 128, i % 128 / 32, i % 32;
    var low := LowTwo(Shr(At(b, 32 + 32 * n + pos), 2 * k)) as int;
    Linear(f16(At(b, 108), At(b, 109)), I8(ScaleQ3(b[96..108], i / 16)) - 32,
           low - (if HasBit(At(b, pos), Bit(4 * n + k)) then 0 else 4))
  }

  lemma ElemQ3KAt(f16: Half, b: seq<bv8>, n: nat, k: nat, h: nat, l: nat)
    requires |b| == 110 && n < 2 && k < 4 && h < 2 && l < 16
    ensures
      ElemQ3K(f16, b, 128 * n + 32 * k + 16 * h + l)
        == Linear(f16(b[108], b[109]), I8(ScaleQ3(b[96..108], 8 * n + 2 * k + h)) - 32,
                  LowTwo(Shr(b[32 + 32 * n + 16 * h + l], 2 * k)) as int
                  - (if HasBit(b[16 * h + l], Bit(4 * n + k)) then 0 else 4))
  {
    hide Linear, Shr, Bit, I8, ScaleQ3, LowTwo, HasBit;
    Split128(n, k, h, l);
  }

  lemma BitNext(k: nat)
    requires k < 7
    ensures Bit(k) << 1 == Bit(k + 1)
  {
  }

  method ScalesQ3(raw: seq<bv8>) returns (scales: seq<bv8>)
    requires |raw| == 12
    ensures |scales| == 16 && forall k :: 0 <= k < 16 ==> scales[k] == ScaleQ3(raw, k)
  {
    hide ScaleQ3, Word, ByteOf, Unpacked;
    var aux := Unpacked(Word(raw[0], raw[1], raw[2], raw[3]), Word(raw[4], raw[5], raw[6], raw[7]),
                        Word(raw[8], raw[9], raw[10], raw[11]));
    scales := [];
    for k := 0 to 16
      invariant |scales| == k && forall j :: 0 <= j < k ==> scales[j] == ScaleQ3(raw, j)
    {
      WordParallelIsPerByte(raw, k);
      scales := scales + [ByteOf(aux[k / 4], k % 4)];
    }
  }

  /** The sixteen weights of one sub-block. */
  method RunQ3K(f16: Half, b: seq<bv8>, y: array<real>, ghost was: seq<real>, base: nat, n: nat, k: nat, half: nat,
                d: real, scale: bv8, m: bv8, shift: nat, ghost f: nat -> real)
    requires |b| == 110 && n < 2 && k < 4 && half < 2 && base + 256 <= y.Length
    requires Wrote(y, was, base, 128 * n + 32 * k + 16 * half, f)
    requires d == f16(b[108], b[109]) && scale == ScaleQ3(b[96..108], 8 * n + 2 * k + half)
    requires m == Bit(4 * n + k) && shift == 2 * k
    requires forall i: nat :: f(i) == ElemQ3K(f16, b, i)
    modifies y
    ensures Wrote(y, was, base, 128 * n + 32 * k + 16 * half + 16, f)
  {
    hide Wrote, ElemQ3K, Real, ScaleQ3, I8, Bit, Shr, LowTwo, HasBit;
    var dl := d * Real(I8(scale) - 32);
    for l := 0 to 16
      invariant Wrote(y, was, base, 128 * n + 32 * k + 16 * half + l, f)
    {
      ElemQ3KAt(f16, b, n, k, half, l);
      var hbit := if HasBit(b[16 * half + l], m) then 0 else 4;
      var v := dl * Real(LowTwo(Shr(b[32 + 32 * n + 16 * half + l], shift)) as int - hbit);
      Put(y, was, base, 128 * n + 32 * k + 16 * half + l, v, f);
    }
  }

  method DequantQ3K(f16: Half, b: seq<bv8>, y: array<real>, base: nat)
    requires |b| == 110 && base + 256 <= y.Length
    modifies y
    ensures forall i :: 0 <= i < 256 ==> y[base + i] == ElemQ3K(f16, b, i)
    ensures forall i :: 0 <= i < y.Length && !(base <= i < base + 256) ==> y[i] == old(y[i])
  {
    hide Wrote, ElemQ3K, ScaleQ3, Bit;
    ghost var was, f := y[..], (i: nat) => if |b| == 110 then ElemQ3K(f16, b, i) else 0.0;
    NothingWrote(y, base, f);
    var d := f16(b[108], b[109]);
    var scales := ScalesQ3(b[96..108]);
    var sub, m := 0, Bit(0);
    for n := 0 to 2
      invariant sub == 8 * n && Wrote(y, was, base, 128 * n, f) && (n < 2 ==> m == Bit(4 * n))
    {
      var shift := 0;
      for k := 0 to 4
        invariant shift == 2 * k && sub == 8 * n + 2 * k && Wrote(y, was, base, 128 * n + 32 * k, f)
        invariant 4 * n + k < 8 ==> m == Bit(4 * n + k)
      {
        RunQ3K(f16, b, y, was, base, n, k, 0, d, scales[sub], m, shift, f);
        RunQ3K(f16, b, y, was, base, n, k, 1, d, scales[sub + 1], m, shift, f);
        sub := sub + 2;
        shift := shift + 2;
        if 4 * n + k < 7 {
          BitNext(4 * n + k);
        }
        m := m << 1;
      }
    }
    WroteAll(y, was, base, f);
    forall i | 0 <= i < 256 ensures y[base + i] == ElemQ3K(f16, b, i) {
      assert y[base + i] == f(i);
    }
  }

  // ----- 4 bits -----

  function LowSix(x: bv8): bv8 { x & 63 }

  function TopTwo(x: bv8): bv8 { x >> 6 }

  /** The 6-bit scale and minimum of sub-block `j` from the 12 packed bytes of a 4- or 5-bit block. */
  function ScaleMinK4(j: nat, q: seq<bv8>): (bv8, bv8)
  {
    if j < 4 then (LowSix(At(q, j)), LowSix(At(q, j + 4)))
    else (SixBits(Lo(At(q, j + 4)), TopTwo(At(q, j - 4))), SixBits(Hi(At(q, j + 4)), TopTwo(At(q, j))))
  }

  lemma Split64(j: nat, h: nat, l: nat)
    requires h < 2 && l < 32
    ensures var i := 64 * j + 32 * h + l; i / 64 == j && i % 64 / 32 == h && i % 32 == l && i / 32 == 2 * j + h
  {
  }

  /** The low or the high nibble. */
  function NibbleOf(x: bv8, h: nat): bv8 { if h == 0 then Lo(x) else Hi(x) }

  function ElemQ4K(f16: Half, b: seq<bv8>, i: nat): real
    requires |b| == 144
  {
    var (sc, m) := ScaleMinK4(i / 32, b[4..16]);
    Affine(f16(At(b, 0), At(b, 1)), sc as int, NibbleOf(At(b, 16 + 32 * (i / 64) + i % 32), i % 64 / 32) as int,
           f16(At(b, 2), At(b, 3)), m as int)
  }

  lemma ElemQ4KAt(f16: Half, b: seq<bv8>, j: nat, h: nat, l: nat)
    requires |b| == 144 && j < 4 && h < 2 && l < 32
    ensures
      var (sc, m) := ScaleMinK4(2 * j + h, b[4..16]);
      ElemQ4K(f16, b, 64 * j + 32 * h + l)
        == Affine(f16(b[0], b[1]), sc as int, NibbleOf(b[16 + 32 * j + l], h) as int, f16(b[2], b[3]), m as int)
  {
    hide Affine, NibbleOf, ScaleMinK4;
    Split64(j, h, l);
  }

  /** One pass over 32 bytes, taking one nibble of each. */
  method RunQ4K(f16: Half, b: seq<bv8>, y: array<real>, ghost was: seq<real>, base: nat, j: nat, h: nat,
                d: real, dmin: real, ghost f: nat -> real)
    requires |b| == 144 && j < 4 && h < 2 && Wrote(y, was, base, 64 * j + 32 * h, f) && base + 256 <= y.Length
    requires d == f16(b[0], b[1]) && dmin == f16(b[2], b[3])
    requires forall i: nat :: f(i) == ElemQ4K(f16, b, i)
    modifies y
    ensures Wrote(y, was, base, 64 * j + 32 * h + 32, f)
  {
    hide Wrote, Real, NibbleOf, ElemQ4K, ScaleMinK4;
    var (sc, min) := ScaleMinK4(2 * j + h, b[4..16]);
    var dl, ml := d * Real(sc as int), dmin * Real(min as int);
    for l := 0 to 32
      invariant Wrote(y, was, base, 64 * j + 32 * h + l, f)
    {
      ElemQ4KAt(f16, b, j, h, l);
      Put(y, was, base, 64 * j + 32 * h + l, dl * Real(NibbleOf(b[16 + 32 * j + l], h) as int) - ml, f);
    }
  }

  method DequantQ4K(f16: Half, b: seq<bv8>, y: array<real>, base: nat)
    requires |b| == 144 && base + 256 <= y.Length
    modifies y
    ensures forall i :: 0 <= i < 256 ==> y[base + i] == ElemQ4K(f16, b, i)
    ensures forall i :: 0 <= i < y.Length && !(base <= i < base + 256) ==> y[i] == old(y[i])
  {
    hide Wrote, ElemQ4K;
    ghost var was, f := y[..], (i: nat) => if |b| == 144 then ElemQ4K(f16, b, i) else 0.0;
    NothingWrote(y, base, f);
    for j := 0 to 4
      invariant Wrote(y, was, base, 64 * j, f)
    {
      RunQ4K(f16, b, y, was, base, j, 0, f16(b[0], b[1]), f16(b[2], b[3]), f);
      RunQ4K(f16, b, y, was, base, j, 1, f16(b[0], b[1]), f16(b[2], b[3]), f);
    }
    WroteAll(y, was, base, f);
    forall i | 0 <= i < 256 ensures y[base + i] == ElemQ4K(f16, b, i) {
      assert y[base + i] == f(i);
    }
  }

  // ----- 5 bits -----

  function ElemQ5K(f16: Half, b: seq<bv8>, i: nat): real
    requires |b| == 176
  {
    var (sc, m) := ScaleMinK4(i / 32, b[4..16]);
    Affine(f16(At(b, 0), At(b, 1)), sc as int,
           NibbleOf(At(b, 48 + 32 * (i / 64) + i % 32), i % 64 / 32) as int
           + (if HasBit(At(b, 16 + i % 32), Bit(i / 32)) then 16 else 0),
           f16(At(b, 2), At(b, 3)), m as int)
  }

  lemma ElemQ5KAt(f16: Half, b: seq<bv8>, j: nat, h: nat, l: nat)
    requires |b| == 176 && j < 4 && h < 2 && l < 32
    ensures
      var (sc, m) := ScaleMinK4(2 * j + h, b[4..16]);
      ElemQ5K(f16, b, 64 * j + 32 * h + l)
        == Affine(f16(b[0], b[1]), sc as int,
                  NibbleOf(b[48 + 32 * j + l], h) as int + (if HasBit(b[16 + l], Bit(2 * j + h)) then 16 else 0),
                  f16(b[2], b[3]), m as int)
  {
    hide Affine, NibbleOf, ScaleMinK4, Bit, HasBit;
    Split64(j, h, l);
  }

  lemma BitSkip(k: nat)
    requires k < 6
    ensures Bit(k) << 2 == Bit(k + 2)
  {
  }

  /** One pass over 32 bytes, taking one nibble of each and the bit under `u` of the high-bit bytes. */
  method RunQ5K(f16: Half, b: seq<bv8>, y: array<real>, ghost was: seq<real>, base: nat, j: nat, h: nat, u: bv8,
                d: real, dmin: real, ghost f: nat -> real)
    requires |b| == 176 && j < 4 && h < 2 && Wrote(y, was, base, 64 * j + 32 * h, f) && base + 256 <= y.Length
    requires d == f16(b[0], b[1]) && dmin == f16(b[2], b[3]) && u == Bit(2 * j + h)
    requires forall i: nat :: f(i) == ElemQ5K(f16, b, i)
    modifies y
    ensures Wrote(y, was, base, 64 * j + 32 * h + 32, f)
  {
    hide Wrote, Real, NibbleOf, ElemQ5K, ScaleMinK4, Bit, HasBit;
    var (sc, min) := ScaleMinK4(2 * j + h, b[4..16]);
    var dl, ml := d * Real(sc as int), dmin * Real(min as int);
    for l := 0 to 32
      invariant Wrote(y, was, base, 64 * j + 32 * h + l, f)
    {
      ElemQ5KAt(f16, b, j, h, l);
      var hi := if HasBit(b[16 + l], u) then 16 else 0;
      Put(y, was, base, 64 * j + 32 * h + l, dl * Real(NibbleOf(b[48 + 32 * j + l], h) as int + hi) - ml, f);
    }
  }

  method DequantQ5K(f16: Half, b: seq<bv8>, y: array<real>, base: nat)
    requires |b| == 176 && base + 256 <= y.Length
    modifies y
    ensures forall i :: 0 <= i < 256 ==> y[base + i] == ElemQ5K(f16, b, i)
    ensures forall i :: 0 <= i < y.Length && !(base <= i < base + 256) ==> y[i] == old(y[i])
  {
    hide Wrote, ElemQ5K, Bit;
    ghost var was, f := y[..], (i: nat) => if |b| == 176 then ElemQ5K(f16, b, i) else 0.0;
    NothingWrote(y, base, f);
    var u1, u2 := Bit(0), Bit(1);
    for j := 0 to 4
      invariant Wrote(y, was, base, 64 * j, f)
      invariant j < 4 ==> u1 == Bit(2 * j) && u2 == Bit(2 * j + 1)
    {
      RunQ5K(f16, b, y, was, base, j, 0, u1, f16(b[0], b[1]), f16(b[2], b[3]), f);
      RunQ5K(f16, b, y, was, base, j, 1, u2, f16(b[0], b[1]), f16(b[2], b[3]), f);
      if j < 3 {
        BitSkip(2 * j);
        BitSkip(2 * j + 1);
      }
      u1, u2 := u1 << 2, u2 << 2;
    }
    WroteAll(y, was, base, f);
    forall i | 0 <= i < 256 ensures y[base + i] == ElemQ5K(f16, b, i) {
      assert y[base + i] == f(i);
    }
  }

  // ----- 6 bits -----

  /** Quant of group `g`, column `l` of half `n`: a nibble and two high bits. */
  function QuantQ6(b: seq<bv8>, n: nat, g: nat, l: nat): bv8
  {
    SixBits(NibbleOf(At(b, 64 * n + 32 * (g % 2) + l), g / 2), LowTwo(Shr(At(b, 128 + 32 * n + l), 2 * g)))
  }

  function ElemQ6K(f16: Half, b: seq<bv8>, i: nat): real
  {
    var n, g, l := i / 128, i % 128 / 32, i % 32;
    Linear(f16(At(b, 208), At(b, 209)), I8(At(b, 192 + i / 16)), QuantQ6(b, n, g, l) as int - 32)
  }

  lemma ElemQ6KAt(f16: Half, b: seq<bv8>, n: nat, g: nat, l: nat)
    requires |b| == 210 && n < 2 && g < 4 && l < 32
    ensures
      ElemQ6K(f16, b, 128 * n + 32 * g + l)
        == Linear(f16(b[208], b[209]), I8(b[192 + 8 * n + l / 16 + 2 * g]), QuantQ6(b, n, g, l) as int - 32)
  {
    hide Linear, I8, QuantQ6;
    Split128(n, g, l / 16, l % 16);
  }

  /** Entries `128·n + 32·g + k` with `k < l` have been written, for all four groups. */
  ghost predicate WroteColumns(y: array<real>, was: seq<real>, base: nat, n: nat, l: nat, f: nat -> real)
    reads y
  {
    && y.Length == |was| && base + 256 <= |was|
    && (forall i :: 0 <= i < 256 && Passed(n, l, i) ==> y[base + i] == f(i))
    && forall i :: 0 <= i < |was| && !(base <= i < base + 256) ==> y[i] == was[i]
  }

  predicate Passed(n: nat, l: nat, i: nat) { i / 128 < n || (i / 128 == n && i % 32 < l) }

  method PutColumn(y: array<real>, ghost was: seq<real>, base: nat, n: nat, l: nat, v: seq<real>, ghost f: nat -> real)
    requires n < 2 && l < 32 && |v| == 4 && WroteColumns(y, was, base, n, l, f)
    requires forall g :: 0 <= g < 4 ==> v[g] == f(128 * n + 32 * g + l)
    modifies y
    ensures WroteColumns(y, was, base, n, l + 1, f)
  {
    ghost var before := y[..];
    y[base + 128 * n + l] := v[0];
    y[base + 128 * n + l + 32] := v[1];
    y[base + 128 * n + l + 64] := v[2];
    y[base + 128 * n + l + 96] := v[3];
    forall i | 0 <= i < 256 && Passed(n, l + 1, i) ensures y[base + i] == f(i) {
      if Passed(n, l, i) {
        assert y[base + i] == before[base + i];
      } else {
        var g := ColumnIndex(i, n, l);
        assert v[g] == f(i);
      }
    }
  }

  lemma ColumnIndex(i: nat, n: nat, l: nat) returns (g: nat)
    requires i / 128 == n && i % 32 == l
    ensures g < 4 && i == 128 * n + 32 * g + l
  {
    g := i % 128 / 32;
  }

  lemma ColumnsDone(y: array<real>, was: seq<real>, base: nat, n: nat, f: nat -> real)
    requires WroteColumns(y, was, base, n, 32, f)
    ensures WroteColumns(y, was, base, n + 1, 0, f)
  {
  }

  lemma AllColumns(y: array<real>, was: seq<real>, base: nat, f: nat -> real)
    requires WroteColumns(y, was, base, 2, 0, f)
    ensures Wrote(y, was, base, 256, f)
  {
  }

  lemma NoColumns(y: array<real>, base: nat, f: nat -> real)
    requires base + 256 <= y.Length
    ensures WroteColumns(y, y[..], base, 0, 0, f)
  {
  }

  /** The four entries one pair of low bytes and one high byte give. */
  method ColumnQ6K(f16: Half, b: seq<bv8>, d: real, n: nat, l: nat) returns (v: seq<real>)
    requires |b| == 210 && n < 2 && l < 32 && d == f16(b[208], b[209])
    ensures |v| == 4 && forall g :: 0 <= g < 4 ==> v[g] == ElemQ6K(f16, b, 128 * n + 32 * g + l)
  {
    hide ElemQ6K, Linear, I8, Shr, QuantQ6, SixBits, Lo, Hi, LowTwo;
    var s, ql0, ql1, qh := 192 + 8 * n + l / 16, b[64 * n + l], b[64 * n + l + 32], b[128 + 32 * n + l];
    var q1 := SixBits(Lo(ql0), LowTwo(Shr(qh, 0))) as int - 32;
    var q2 := SixBits(Lo(ql1), LowTwo(Shr(qh, 2))) as int - 32;
    var q3 := SixBits(Hi(ql0), LowTwo(Shr(qh, 4))) as int - 32;
    var q4 := SixBits(Hi(ql1), LowTwo(Shr(qh, 6))) as int - 32;
    QuantsOfColumn(b, n, l);
    ElemQ6KAt(f16, b, n, 0, l);
    ElemQ6KAt(f16, b, n, 1, l);
    ElemQ6KAt(f16, b, n, 2, l);
    ElemQ6KAt(f16, b, n, 3, l);
    v := [Linear(d, I8(b[s]), q1), Linear(d, I8(b[s + 2]), q2), Linear(d, I8(b[s + 4]), q3),
      Linear(d, I8(b[s + 6]), q4)];
  }

  lemma QuantsOfColumn(b: seq<bv8>, n: nat, l: nat)
    requires |b| == 210 && n < 2 && l < 32
    ensures QuantQ6(b, n, 0, l) == SixBits(Lo(b[64 * n + l]), LowTwo(Shr(b[128 + 32 * n + l], 0)))
    ensures QuantQ6(b, n, 1, l) == SixBits(Lo(b[64 * n + l + 32]), LowTwo(Shr(b[128 + 32 * n + l], 2)))
    ensures QuantQ6(b, n, 2, l) == SixBits(Hi(b[64 * n + l]), LowTwo(Shr(b[128 + 32 * n + l], 4)))
    ensures QuantQ6(b, n, 3, l) == SixBits(Hi(b[64 * n + l + 32]), LowTwo(Shr(b[128 + 32 * n + l], 6)))
  {
    hide Shr, Lo, Hi, LowTwo, SixBits;
  }

  method DequantQ6K(f16: Half, b: seq<bv8>, y: array<real>, base: nat)
    requires |b| == 210 && base + 256 <= y.Length
    modifies y
    ensures forall i :: 0 <= i < 256 ==> y[base + i] == ElemQ6K(f16, b, i)
    ensures forall i :: 0 <= i < y.Length && !(base <= i < base + 256) ==> y[i] == old(y[i])
  {
    hide Wrote, WroteColumns, ElemQ6K;
    ghost var was, f := y[..], (i: nat) => ElemQ6K(f16, b, i);
    NoColumns(y, base, f);
    var d := f16(b[208], b[209]);
    for n := 0 to 2
      invariant WroteColumns(y, was, base, n, 0, f)
    {
      for l := 0 to 32
        invariant WroteColumns(y, was, base, n, l, f)
      {
        var v := ColumnQ6K(f16, b, d, n, l);
        PutColumn(y, was, base, n, l, v, f);
      }
      ColumnsDone(y, was, base, n, f);
    }
    AllColumns(y, was, base, f);
    WroteAll(y, was, base, f);
    forall i | 0 <= i < 256 ensures y[base + i] == ElemQ6K(f16, b, i) {
      assert y[base + i] == f(i);
    }
  }

  // ----- the layouts -----

  /** Two nibbles, four 2-bit crumbs, or eight single bits in a byte. */
  function Nibbles(a: bv8, b: bv8): bv8 { a | (b << 4) }

  function Crumbs(a: bv8, b: bv8, c: bv8, d: bv8): bv8 { a | (b << 2) | (c << 4) | (d << 6) }

  function Bits(b: seq<bool>): bv8
    requires |b| == 8
  {
    (if b[0] then 1 else 0) | (if b[1] then 2 else 0) | (if b[2] then 4 else 0) | (if b[3] then 8 else 0)
    | (if b[4] then 16 else 0) | (if b[5] then 32 else 0) | (if b[6] then 64 else 0) | (if b[7] then 128 else 0)
  }

  lemma NibblesBack(a: bv8, b: bv8)
    requires a < 16 && b < 16
    ensures Lo(Nibbles(a, b)) == a && Hi(Nibbles(a, b)) == b
  {
  }

  lemma CrumbsBack(a: bv8, b: bv8, c: bv8, d: bv8)
    requires a < 4 && b < 4 && c < 4 && d < 4
    ensures LowTwo(Shr(Crumbs(a, b, c, d), 0)) == a && LowTwo(Shr(Crumbs(a, b, c, d), 2)) == b
    ensures LowTwo(Shr(Crumbs(a, b, c, d), 4)) == c && LowTwo(Shr(Crumbs(a, b, c, d), 6)) == d
  {
  }

  lemma BitsBack(b: seq<bool>, k: nat)
    requires |b| == 8 && k < 8
    ensures HasBit(Bits(b), Bit(k)) == b[k]
  {
    match k {
      case 0 => case 1 => case 2 => case 3 => case 4 => case 5 => case 6 => case 7 =>
    }
  }

  /** The eight bits `mask` selects from the quants one column of 32 apart. */
  function HighBits(q: seq<bv8>, l: nat, mask: bv8): seq<bool>
  {
    seq(8, e requires 0 <= e => HasBit(At(q, 32 * e + l), mask))
  }

  /** Which two bits of a quant a layout keeps as a crumb. */
  datatype Part = Whole | LowPart | HighPart

  function Crumb(part: Part, q: bv8): bv8
  {
    match part
    case Whole => q
    case LowPart => LowTwo(q)
    case HighPart => Hi(q)
  }

  /** A crumb byte of a 128-quant half: parts of four quants 32 apart. */
  function CrumbByte(q: seq<bv8>, t: nat, part: Part): bv8
  {
    var base := 128 * (t / 32) + t % 32;
    Crumbs(Crumb(part, At(q, base)), Crumb(part, At(q, base + 32)), Crumb(part, At(q, base + 64)),
           Crumb(part, At(q, base + 96)))
  }

  function PackByteQ2(x: KBlock, p: nat): bv8
  {
    if p < 16 then Nibbles(At(x.scales, p), At(x.mins, p))
    else if p < 80 then CrumbByte(x.quants, p - 16, Whole)
    else if p == 80 then x.d.0 else if p == 81 then x.d.1 else if p == 82 then x.dmin.0 else x.dmin.1
  }

  function PackByteQ3(x: KBlock, p: nat): bv8
  {
    if p < 32 then Bits(HighBits(x.quants, p, 4))
    else if p < 96 then CrumbByte(x.quants, p - 32, LowPart)
    else if p < 104 then Nibbles(Lo(At(x.scales, p - 96)), Lo(At(x.scales, p - 88)))
    else if p < 108 then
      Crumbs(Hi(At(x.scales, p - 104)), Hi(At(x.scales, p - 100)), Hi(At(x.scales, p - 96)), Hi(At(x.scales, p - 92)))
    else if p == 108 then x.d.0 else x.d.1
  }

  /** Six bits of one value with the top two of another's six above them. */
  function WithTop(low: bv8, high: bv8): bv8 { low | ((high >> 4) << 6) }

  /** The 12 bytes of eight 6-bit scales and eight 6-bit minimums. */
  function PackScaleByte(x: KBlock, p: nat): bv8
  {
    if p < 4 then WithTop(At(x.scales, p), At(x.scales, p + 4))
    else if p < 8 then WithTop(At(x.mins, p - 4), At(x.mins, p))
    else Nibbles(Lo(At(x.scales, p - 4)), Lo(At(x.mins, p - 4)))
  }

  function HeadByte(x: KBlock, p: nat): bv8
  {
    if p == 0 then x.d.0 else if p == 1 then x.d.1 else if p == 2 then x.dmin.0 else if p == 3 then x.dmin.1
    else PackScaleByte(x, p - 4)
  }

  function PackByteQ4(x: KBlock, p: nat): bv8
  {
    if p < 16 then HeadByte(x, p)
    else
      var t := p - 16;
      Nibbles(At(x.quants, 64 * (t / 32) + t % 32), At(x.quants, 64 * (t / 32) + 32 + t % 32))
  }

  function PackByteQ5(x: KBlock, p: nat): bv8
  {
    if p < 16 then HeadByte(x, p)
    else if p < 48 then Bits(HighBits(x.quants, p - 16, 16))
    else
      var t := p - 48;
      Nibbles(Lo(At(x.quants, 64 * (t / 32) + t % 32)), Lo(At(x.quants, 64 * (t / 32) + 32 + t % 32)))
  }

  function PackByteQ6(x: KBlock, p: nat): bv8
  {
    if p < 128 then
      var at := 128 * (p / 64) + p % 64;
      Nibbles(Lo(At(x.quants, at)), Lo(At(x.quants, at + 64)))
    else if p < 192 then CrumbByte(x.quants, p - 128, HighPart)
    else if p < 208 then At(x.scales, p - 192)
    else if p == 208 then x.d.0 else x.d.1
  }

  function BlockBytes(kind: Kind): nat
  {
    match kind
    case Q2K => 84
    case Q3K => 110
    case Q4K => 144
    case Q5K => 176
    case Q6K => 210
  }

  function PackByte(kind: Kind, x: KBlock, p: nat): bv8
  {
    match kind
    case Q2K => PackByteQ2(x, p)
    case Q3K => PackByteQ3(x, p)
    case Q4K => PackByteQ4(x, p)
    case Q5K => PackByteQ5(x, p)
    case Q6K => PackByteQ6(x, p)
  }

  /** One packed block. */
  function Pack(kind: Kind, x: KBlock): (b: seq<bv8>)
    ensures |b| == BlockBytes(kind) && forall p :: 0 <= p < |b| ==> b[p] == PackByte(kind, x, p)
  {
    seq(BlockBytes(kind), p requires 0 <= p => PackByte(kind, x, p))
  }

  predicate AllBelow(s: seq<bv8>, n: nat, bound: bv8)
  {
    |s| == n && forall i :: 0 <= i < n ==> s[i] < bound
  }

  /** Quants and scales within what the layout has bits for. */
  predicate Fits(kind: Kind, x: KBlock)
  {
    match kind
    case Q2K => AllBelow(x.scales, 16, 16) && AllBelow(x.mins, 16, 16) && AllBelow(x.quants, 256, 4)
    case Q3K => AllBelow(x.scales, 16, 64) && AllBelow(x.quants, 256, 8)
    case Q4K => AllBelow(x.scales, 8, 64) && AllBelow(x.mins, 8, 64) && AllBelow(x.quants, 256, 16)
    case Q5K => AllBelow(x.scales, 8, 64) && AllBelow(x.mins, 8, 64) && AllBelow(x.quants, 256, 32)
    case Q6K => |x.scales| == 16 && AllBelow(x.quants, 256, 64)
  }

  /** What weight `i` of a block stands for: scale times quant, less the minimum where the layout has one. */
  function Value(kind: Kind, f16: Half, x: KBlock, i: nat): real
  {
    var d, dmin := f16(x.d.0, x.d.1), f16(x.dmin.0, x.dmin.1);
    match kind
    case Q2K => Affine(d, At(x.scales, i / 16) as int, At(x.quants, i) as int, dmin, At(x.mins, i / 16) as int)
    case Q3K => Linear(d, At(x.scales, i / 16) as int - 32, At(x.quants, i) as int - 4)
    case Q4K => Affine(d, At(x.scales, i / 32) as int, At(x.quants, i) as int, dmin, At(x.mins, i / 32) as int)
    case Q5K => Affine(d, At(x.scales, i / 32) as int, At(x.quants, i) as int, dmin, At(x.mins, i / 32) as int)
    case Q6K => Linear(d, I8(At(x.scales, i / 16)), At(x.quants, i) as int - 32)
  }

  function Elem(kind: Kind, f16: Half, b: seq<bv8>, i: nat): real
    requires |b| == BlockBytes(kind)
  {
    match kind
    case Q2K => ElemQ2K(f16, b, i)
    case Q3K => ElemQ3K(f16, b, i)
    case Q4K => ElemQ4K(f16, b, i)
    case Q5K => ElemQ5K(f16, b, i)
    case Q6K => ElemQ6K(f16, b, i)
  }

  // ----- round trips, block by block -----

  /** Crumb `k` of byte `32·n + pos` is quant `128·n + 32·k + pos`. */
  lemma CrumbBack(q: seq<bv8>, n: nat, k: nat, pos: nat, part: Part)
    requires n < 2 && k < 4 && pos < 32 && CrumbsFit(q, part)
    ensures LowTwo(Shr(CrumbByte(q, 32 * n + pos, part), 2 * k)) == Crumb(part, At(q, 128 * n + 32 * k + pos))
  {
    hide Shr, At, Crumbs, Crumb, LowTwo;
    var base := 128 * n + pos;
    CrumbsBack(Crumb(part, At(q, base)), Crumb(part, At(q, base + 32)), Crumb(part, At(q, base + 64)),
               Crumb(part, At(q, base + 96)));
    assert (32 * n + pos) / 32 == n && (32 * n + pos) % 32 == pos;
    match k { case 0 => case 1 => case 2 => case 3 => }
  }

  lemma Parts(i: nat)
    ensures var n, k, pos := i / 128, i % 128 / 32, i % 32; i == 128 * n + 32 * k + pos && k < 4 && i / 32 == 4 * n + k
  {
  }

  lemma RoundTripQ2(f16: Half, x: KBlock, i: nat)
    requires Fits(Q2K, x) && i < 256
    ensures ElemQ2K(f16, Pack(Q2K, x), i) == Value(Q2K, f16, x, i)
  {
    hide Affine, Shr, Nibbles, Crumbs, CrumbByte;
    hide Lo, Hi, LowTwo, HasBit, SixBits;
    Parts(i);
    var b, n, k, pos := Pack(Q2K, x), i / 128, i % 128 / 32, i % 32;
    NibblesBack(x.scales[i / 16], x.mins[i / 16]);
    CrumbBack(x.quants, n, k, pos, Whole);
    assert At(b, 16 + 32 * n + pos) == CrumbByte(x.quants, 32 * n + pos, Whole);
  }

  lemma PackedScalesQ3(x: KBlock, k: nat)
    requires |x.scales| == 16 && k < 16
    ensures
      var raw, j, low := Pack(Q3K, x)[96..108], k % 4, k % 8;
      && At(raw, low) == Nibbles(Lo(x.scales[low]), Lo(x.scales[low + 8]))
      && At(raw, 8 + j) == Crumbs(Hi(x.scales[j]), Hi(x.scales[4 + j]), Hi(x.scales[8 + j]), Hi(x.scales[12 + j]))
  {
    hide Nibbles, Crumbs, Lo, Hi;
    var raw := Pack(Q3K, x)[96..108];
    assert raw[k % 8] == PackByte(Q3K, x, 96 + k % 8) && raw[8 + k % 4] == PackByte(Q3K, x, 104 + k % 4);
  }

  lemma ScaleQ3Back(x: KBlock, k: nat)
    requires Fits(Q3K, x) && k < 16
    ensures ScaleQ3(Pack(Q3K, x)[96..108], k) == x.scales[k]
  {
    hide Nibbles, Crumbs, LaneByte, Pack, Lo, Hi, Fits;
    ScalesFitQ3(x);
    var j := k % 4;
    PackedScalesQ3(x, k);
    LaneBack(x.scales[k % 8], x.scales[k % 8 + 8], x.scales[j], x.scales[4 + j], x.scales[8 + j], x.scales[12 + j],
      k / 4);
  }

  /** The packed nibble and crumb give back the scale of each group. */
  lemma LaneBack(low: bv8, high: bv8, a: bv8, b: bv8, c: bv8, d: bv8, g: nat)
    requires low < 64 && high < 64 && a < 64 && b < 64 && c < 64 && d < 64 && g < 4
    requires (g == 0 ==> low == a) && (g == 1 ==> low == b) && (g == 2 ==> high == c) && (g == 3 ==> high == d)
    ensures LaneByte(g, Nibbles(Lo(low), Lo(high)), Crumbs(Hi(a), Hi(b), Hi(c), Hi(d)))
         == if g == 0 then a else if g == 1 then b else if g == 2 then c else d
  {
    match g {
      case 0 => case 1 => case 2 => case 3 =>
    }
  }

  /** A quant's low crumb and high bit, and its low nibble and fifth bit. */
  lemma QuantQ3Back(q: bv8)
    requires q < 8
    ensures LowTwo(q) as int - (if HasBit(q, 4) then 0 else 4) == q as int - 4 && LowTwo(q) < 4
  {
  }

  lemma QuantQ5Back(q: bv8)
    requires q < 32
    ensures Lo(q) as int + (if HasBit(q, 16) then 16 else 0) == q as int && Lo(q) < 16
  {
  }

  lemma QuantQ6Back(q: bv8)
    requires q < 64
    ensures SixBits(Lo(q), Hi(q)) == q && Lo(q) < 16 && Hi(q) < 4
  {
  }

  lemma I8Small(b: bv8)
    requires b < 64
    ensures I8(b) == b as int
  {
  }

  /** Every crumb a layout keeps has two bits. */
  predicate CrumbsFit(q: seq<bv8>, part: Part) { forall j: nat :: j < 256 ==> Crumb(part, At(q, j)) < 4 }

  lemma CrumbsFitQ3(q: seq<bv8>)
    ensures CrumbsFit(q, LowPart)
  {
    forall j: nat | j < 256 ensures Crumb(LowPart, At(q, j)) < 4 {
      LowTwoFits(At(q, j));
    }
  }

  lemma LowTwoFits(x: bv8)
    ensures LowTwo(x) < 4
  {
  }

  lemma CrumbsFitQ6(q: seq<bv8>)
    requires AllBelow(q, 256, 64)
    ensures CrumbsFit(q, HighPart)
  {
    hide Hi;
    forall j: nat | j < 256 ensures Crumb(HighPart, At(q, j)) < 4 {
      QuantQ6Back(q[j]);
    }
  }

  lemma PackedQ3(x: KBlock, n: nat, k: nat, pos: nat)
    requires |x.quants| == 256 && n < 2 && k < 4 && pos < 32
    ensures
      var b := Pack(Q3K, x);
      && b[32 + 32 * n + pos] == CrumbByte(x.quants, 32 * n + pos, LowPart)
      && b[pos] == Bits(HighBits(x.quants, pos, 4))
      && b[108] == x.d.0 && b[109] == x.d.1
  {
    hide CrumbByte, Bits, HighBits;
  }

  /** The signed quant of a 3-bit weight, from its crumb byte and its high-bit byte. */
  lemma QuantQ3At(x: KBlock, n: nat, k: nat, pos: nat)
    requires AllBelow(x.quants, 256, 8) && n < 2 && k < 4 && pos < 32
    ensures
      var b := Pack(Q3K, x);
      LowTwo(Shr(b[32 + 32 * n + pos], 2 * k)) as int - (if HasBit(b[pos], Bit(4 * n + k)) then 0 else 4)
        == x.quants[128 * n + 32 * k + pos] as int - 4
  {
    hide Shr, Bit, Bits, CrumbByte, Pack, CrumbsFit, LowTwo, HasBit;
    CrumbsFitQ3(x.quants);
    CrumbBack(x.quants, n, k, pos, LowPart);
    PackedQ3(x, n, k, pos);
    BitsBack(HighBits(x.quants, pos, 4), 4 * n + k);
    QuantQ3Back(x.quants[128 * n + 32 * k + pos]);
  }

  lemma RoundTripQ3At(f16: Half, x: KBlock, n: nat, k: nat, h: nat, l: nat)
    requires Fits(Q3K, x) && |x.scales| == 16 && |x.quants| == 256 && n < 2 && k < 4 && h < 2 && l < 16
    ensures ElemQ3K(f16, Pack(Q3K, x), 128 * n + 32 * k + 16 * h + l)
         == Linear(f16(x.d.0, x.d.1), x.scales[8 * n + 2 * k + h] as int - 32,
                   x.quants[128 * n + 32 * k + 16 * h + l] as int - 4)
  {
    hide Linear, Shr, Bit, ScaleQ3, I8, Fits, ElemQ3K, Pack, LowTwo, HasBit;
    QuantsFit(Q3K, x);
    ElemQ3KAt(f16, Pack(Q3K, x), n, k, h, l);
    ScaleQ3Back(x, 8 * n + 2 * k + h);
    ScalesFitQ3(x);
    I8Small(x.scales[8 * n + 2 * k + h]);
    PackedQ3(x, n, k, 16 * h + l);
    QuantQ3At(x, n, k, 16 * h + l);
  }

  lemma RoundTripQ3(f16: Half, x: KBlock, i: nat)
    requires Fits(Q3K, x) && i < 256
    ensures ElemQ3K(f16, Pack(Q3K, x), i) == Value(Q3K, f16, x, i)
  {
    hide Linear, Fits, ElemQ3K, Pack;
    var n, k, h, l := i / 128, i % 128 / 32, i % 32 / 16, i % 16;
    Parts(i);
    Split128(n, k, h, l);
    QuantsFit(Q3K, x);
    ScalesFitQ3(x);
    RoundTripQ3At(f16, x, n, k, h, l);
  }

  lemma ScalesBackHigh(s: bv8, m: bv8, slow: bv8, mlow: bv8)
    requires s < 64 && m < 64 && slow < 64 && mlow < 64
    ensures LowSix(WithTop(slow, s)) == slow && LowSix(WithTop(mlow, m)) == mlow
    ensures SixBits(Lo(Nibbles(Lo(s), Lo(m))), TopTwo(WithTop(slow, s))) == s
    ensures SixBits(Hi(Nibbles(Lo(s), Lo(m))), TopTwo(WithTop(mlow, m))) == m
  {
  }

  lemma ScaleMinBack(x: KBlock, head: seq<bv8>, j: nat)
    requires AllBelow(x.scales, 8, 64) && AllBelow(x.mins, 8, 64) && j < 8
    requires |head| == 12 && forall p :: 0 <= p < 12 ==> head[p] == PackScaleByte(x, p)
    ensures ScaleMinK4(j, head) == (x.scales[j], x.mins[j])
  {
    hide Nibbles, WithTop, LowSix, TopTwo, SixBits, Lo, Hi;
    var h := if j < 4 then j + 4 else j;
    var l := h - 4;
    ScalesBackHigh(x.scales[h], x.mins[h], x.scales[l], x.mins[l]);
    assert head[l] == WithTop(x.scales[l], x.scales[h]) && head[h] == WithTop(x.mins[l], x.mins[h]);
    assert head[h + 4] == Nibbles(Lo(x.scales[h]), Lo(x.mins[h]));
  }

  lemma NibbleBack(a: bv8, b: bv8, h: nat)
    requires a < 16 && b < 16 && h < 2
    ensures NibbleOf(Nibbles(a, b), h) == if h == 0 then a else b
  {
    NibblesBack(a, b);
  }

  function QuantBound(kind: Kind): bv8
  {
    match kind
    case Q2K => 4
    case Q3K => 8
    case Q4K => 16
    case Q5K => 32
    case Q6K => 64
  }

  /** Every quant and scale is within its bound. */
  lemma QuantsFit(kind: Kind, x: KBlock)
    requires Fits(kind, x)
    ensures AllBelow(x.quants, 256, QuantBound(kind))
    ensures kind.Q4K? || kind.Q5K? ==> AllBelow(x.scales, 8, 64) && AllBelow(x.mins, 8, 64)
    ensures kind.Q6K? ==> |x.scales| == 16
  {
  }

  lemma ScalesFitQ3(x: KBlock)
    requires Fits(Q3K, x)
    ensures AllBelow(x.scales, 16, 64)
  {
  }

  lemma Parts64(i: nat)
    ensures i == 64 * (i / 64) + 32 * (i % 64 / 32) + i % 32 && i % 64 / 32 < 2 && i / 32 == 2 * (i / 64) + i % 64 / 32
  {
  }

  lemma PackedQ4(x: KBlock, j: nat, h: nat, l: nat)
    requires Fits(Q4K, x) && |x.scales| == |x.mins| == 8 && |x.quants| == 256 && j < 4 && h < 2 && l < 32
    ensures var b := Pack(Q4K, x);
      && b[0] == x.d.0 && b[1] == x.d.1 && b[2] == x.dmin.0 && b[3] == x.dmin.1
      && ScaleMinK4(2 * j + h, b[4..16]) == (x.scales[2 * j + h], x.mins[2 * j + h])
      && NibbleOf(b[16 + 32 * j + l], h) == x.quants[64 * j + 32 * h + l]
  {
    hide ScaleMinK4, PackScaleByte, Nibbles, NibbleOf;
    var b := Pack(Q4K, x);
    ScaleMinBack(x, b[4..16], 2 * j + h);
    NibbleBack(x.quants[64 * j + l], x.quants[64 * j + 32 + l], h);
    assert (32 * j + l) / 32 == j && (32 * j + l) % 32 == l;
    assert b[16 + 32 * j + l] == Nibbles(x.quants[64 * j + l], x.quants[64 * j + 32 + l]);
  }

  lemma RoundTripQ4At(f16: Half, x: KBlock, j: nat, h: nat, l: nat)
    requires Fits(Q4K, x) && |x.scales| == |x.mins| == 8 && |x.quants| == 256 && j < 4 && h < 2 && l < 32
    ensures ElemQ4K(f16, Pack(Q4K, x), 64 * j + 32 * h + l)
         == Affine(f16(x.d.0, x.d.1), x.scales[2 * j + h] as int, x.quants[64 * j + 32 * h + l] as int,
                   f16(x.dmin.0, x.dmin.1), x.mins[2 * j + h] as int)
  {
    hide Affine, ScaleMinK4, ElemQ4K, NibbleOf, Fits, Pack;
    ElemQ4KAt(f16, Pack(Q4K, x), j, h, l);
    PackedQ4(x, j, h, l);
  }

  lemma RoundTripQ4(f16: Half, x: KBlock, i: nat)
    requires Fits(Q4K, x) && i < 256
    ensures ElemQ4K(f16, Pack(Q4K, x), i) == Value(Q4K, f16, x, i)
  {
    hide Affine, ElemQ4K, Fits, Pack;
    Parts64(i);
    QuantsFit(Q4K, x);
    RoundTripQ4At(f16, x, i / 64, i % 64 / 32, i % 32);
  }

  lemma QuantQ5At(x: KBlock, j: nat, h: nat, l: nat)
    requires AllBelow(x.quants, 256, 32) && j < 4 && h < 2 && l < 32
    ensures
      var b := Pack(Q5K, x);
      NibbleOf(b[48 + 32 * j + l], h) as int + (if HasBit(b[16 + l], Bit(2 * j + h)) then 16 else 0)
        == x.quants[64 * j + 32 * h + l] as int
  {
    hide Nibbles, PackScaleByte, Bits, Bit, NibbleOf, Lo, HasBit;
    var b, low, high := Pack(Q5K, x), x.quants[64 * j + l], x.quants[64 * j + 32 + l];
    QuantQ5Back(low);
    QuantQ5Back(high);
    NibbleBack(Lo(low), Lo(high), h);
    assert (32 * j + l) / 32 == j && (32 * j + l) % 32 == l;
    assert b[48 + 32 * j + l] == Nibbles(Lo(low), Lo(high));
    assert b[16 + l] == Bits(HighBits(x.quants, l, 16));
    BitsBack(HighBits(x.quants, l, 16), 2 * j + h);
  }

  lemma PackedHeadQ5(x: KBlock, k: nat)
    requires Fits(Q5K, x) && k < 8
    ensures var b := Pack(Q5K, x);
      && b[0] == x.d.0 && b[1] == x.d.1 && b[2] == x.dmin.0 && b[3] == x.dmin.1
      && ScaleMinK4(k, b[4..16]) == (x.scales[k], x.mins[k])
  {
    hide ScaleMinK4, PackScaleByte;
    ScaleMinBack(x, Pack(Q5K, x)[4..16], k);
  }

  lemma RoundTripQ5At(f16: Half, x: KBlock, j: nat, h: nat, l: nat)
    requires Fits(Q5K, x) && |x.scales| == |x.mins| == 8 && |x.quants| == 256 && j < 4 && h < 2 && l < 32
    ensures ElemQ5K(f16, Pack(Q5K, x), 64 * j + 32 * h + l)
         == Affine(f16(x.d.0, x.d.1), x.scales[2 * j + h] as int, x.quants[64 * j + 32 * h + l] as int,
                   f16(x.dmin.0, x.dmin.1), x.mins[2 * j + h] as int)
  {
    hide Affine, ScaleMinK4, Bit, ElemQ5K, NibbleOf, Fits, HasBit, Pack;
    QuantsFit(Q5K, x);
    ElemQ5KAt(f16, Pack(Q5K, x), j, h, l);
    PackedHeadQ5(x, 2 * j + h);
    QuantQ5At(x, j, h, l);
  }

  lemma RoundTripQ5(f16: Half, x: KBlock, i: nat)
    requires Fits(Q5K, x) && i < 256
    ensures ElemQ5K(f16, Pack(Q5K, x), i) == Value(Q5K, f16, x, i)
  {
    hide Affine, ElemQ5K, Fits, Pack;
    Parts64(i);
    QuantsFit(Q5K, x);
    RoundTripQ5At(f16, x, i / 64, i % 64 / 32, i % 32);
  }

  lemma PackedQ6(x: KBlock, n: nat, g: nat, l: nat)
    requires |x.quants| == 256 && |x.scales| == 16 && n < 2 && g < 4 && l < 32
    ensures
      var b, at := Pack(Q6K, x), 128 * n + 32 * (g % 2) + l;
      && b[64 * n + 32 * (g % 2) + l] == Nibbles(Lo(x.quants[at]), Lo(x.quants[at + 64]))
      && b[128 + 32 * n + l] == CrumbByte(x.quants, 32 * n + l, HighPart)
      && b[192 + 8 * n + l / 16 + 2 * g] == x.scales[8 * n + l / 16 + 2 * g]
      && b[208] == x.d.0 && b[209] == x.d.1
  {
    hide Nibbles, CrumbByte, Lo, Hi;
    var p := 64 * n + 32 * (g % 2) + l;
    assert 128 * (p / 64) + p % 64 == 128 * n + 32 * (g % 2) + l;
  }

  lemma QuantQ6At(x: KBlock, n: nat, g: nat, l: nat)
    requires AllBelow(x.quants, 256, 64) && |x.scales| == 16 && n < 2 && g < 4 && l < 32
    ensures QuantQ6(Pack(Q6K, x), n, g, l) == x.quants[128 * n + 32 * g + l]
  {
    hide Shr, Nibbles, CrumbByte, NibbleOf, Pack, CrumbsFit, Lo, Hi, LowTwo, SixBits;
    CrumbsFitQ6(x.quants);
    CrumbBack(x.quants, n, g, l, HighPart);
    PackedQ6(x, n, g, l);
    var at := 128 * n + 32 * (g % 2) + l;
    QuantQ6Back(x.quants[at]);
    QuantQ6Back(x.quants[at + 64]);
    NibbleBack(Lo(x.quants[at]), Lo(x.quants[at + 64]), g / 2);
    assert 128 * n + 32 * g + l == if g < 2 then at else at + 64;
  }

  lemma RoundTripQ6At(f16: Half, x: KBlock, n: nat, g: nat, l: nat)
    requires Fits(Q6K, x) && |x.scales| == 16 && |x.quants| == 256 && n < 2 && g < 4 && l < 32
    ensures ElemQ6K(f16, Pack(Q6K, x), 128 * n + 32 * g + l)
         == Linear(f16(x.d.0, x.d.1), I8(x.scales[8 * n + l / 16 + 2 * g]), x.quants[128 * n + 32 * g + l] as int - 32)
  {
    hide Linear, I8, ElemQ6K, Fits, Pack, QuantQ6;
    QuantsFit(Q6K, x);
    ElemQ6KAt(f16, Pack(Q6K, x), n, g, l);
    PackedQ6(x, n, g, l);
    QuantQ6At(x, n, g, l);
  }

  lemma RoundTripQ6(f16: Half, x: KBlock, i: nat)
    requires Fits(Q6K, x) && i < 256
    ensures ElemQ6K(f16, Pack(Q6K, x), i) == Value(Q6K, f16, x, i)
  {
    hide Linear, I8, ElemQ6K, Fits, Pack;
    Parts(i);
    QuantsFit(Q6K, x);
    Split128(i / 128, i % 128 / 32, i % 32 / 16, i % 16);
    RoundTripQ6At(f16, x, i / 128, i % 128 / 32, i % 32);
  }

  /** Unpacking a packed block gives back scale times quant, less the minimum, at every index, in every layout. */
  lemma BlockRoundTrip(kind: Kind, f16: Half, x: KBlock, i: nat)
    requires Fits(kind, x) && i < 256
    ensures Elem(kind, f16, Pack(kind, x), i) == Value(kind, f16, x, i)
  {
    hide ElemQ2K, ElemQ3K, ElemQ4K, ElemQ5K, ElemQ6K, Value, Fits;
    match kind
    case Q2K => RoundTripQ2(f16, x, i);
    case Q3K => RoundTripQ3(f16, x, i);
    case Q4K => RoundTripQ4(f16, x, i);
    case Q5K => RoundTripQ5(f16, x, i);
    case Q6K => RoundTripQ6(f16, x, i);
  }

  /** Every element is the block's scale times its own scale times its quant, less the block's minimum times its own. */
  lemma Arithmetic(d: real, scale: int, quant: int, dmin: real, min: int)
    ensures Affine(d, scale, quant, dmin, min) == d * (scale as real) * (quant as real) - dmin * (min as real)
    ensures Linear(d, scale, quant) == d * (scale as real) * (quant as real)
  {
  }

  lemma SizesFit(kind: Kind, x: KBlock, i: nat)
    requires Fits(kind, x) && i < 256
    ensures i < |x.quants|
    ensures kind == Q2K || kind == Q3K || kind == Q6K ==> i / 16 < |x.scales|
    ensures kind == Q4K || kind == Q5K ==> i / 32 < |x.scales| && i / 32 < |x.mins|
    ensures kind == Q2K ==> i / 16 < |x.mins|
  {
  }

  /** A scale and a minimum serve 16 quants of two bits, or 32 of four or five. */
  lemma ElementWithMin(kind: Kind, f16: Half, x: KBlock, i: nat, g: nat)
    requires kind != Q3K && kind != Q6K && Fits(kind, x) && i < 256
    requires g == if kind == Q2K then i / 16 else i / 32
    ensures g < |x.scales| && g < |x.mins| && i < |x.quants|
    ensures Elem(kind, f16, Pack(kind, x), i)
         == Affine(f16(x.d.0, x.d.1), x.scales[g] as int, x.quants[i] as int, f16(x.dmin.0, x.dmin.1), x.mins[g] as int)
  {
    hide Elem, Pack, Affine, Linear, Fits;
    BlockRoundTrip(kind, f16, x, i);
    SizesFit(kind, x, i);
  }

  /** Without minima, a scale serves 16 quants; the three-bit layout counts scales from 32 and quants from 4, the six-bit
      layout has signed bytes as scales and counts quants from 32. */
  lemma ElementWithoutMin(kind: Kind, f16: Half, x: KBlock, i: nat)
    requires (kind == Q3K || kind == Q6K) && Fits(kind, x) && i < 256
    ensures i / 16 < |x.scales| && i < |x.quants|
    ensures
      var d, s, q := f16(x.d.0, x.d.1), x.scales[i / 16] as int, x.quants[i] as int;
      Elem(kind, f16, Pack(kind, x), i)
      == if kind == Q3K then Linear(d, s - 32, q - 4) else Linear(d, if s < 128 then s else s - 256, q - 32)
  {
    hide Elem, Pack, Affine, Linear, Fits;
    BlockRoundTrip(kind, f16, x, i);
    SizesFit(kind, x, i);
  }

  // ----- whole tensors -----

  /** Weight `i` of a tensor: entry `i % 256` of block `i / 256`, from that block's own bytes. */
  function TensorElem(kind: Kind, f16: Half, data: seq<bv8>, i: nat): real
  {
    var q, bb := i / 256, BlockBytes(kind);
    if q * bb + bb <= |data| then Elem(kind, f16, data[q * bb..q * bb + bb], i % 256) else 0.0
  }

  /** One block's bytes into its own window of the output. */
  method DequantBlock(kind: Kind, f16: Half, b: seq<bv8>, y: array<real>, base: nat)
    requires |b| == BlockBytes(kind) && base + 256 <= y.Length
    modifies y
    ensures forall i :: 0 <= i < 256 ==> y[base + i] == Elem(kind, f16, b, i)
    ensures forall i :: 0 <= i < y.Length && !(base <= i < base + 256) ==> y[i] == old(y[i])
  {
    hide ElemQ2K, ElemQ3K, ElemQ4K, ElemQ5K, ElemQ6K;
    match kind
    case Q2K => DequantQ2K(f16, b, y, base);
    case Q3K => DequantQ3K(f16, b, y, base);
    case Q4K => DequantQ4K(f16, b, y, base);
    case Q5K => DequantQ5K(f16, b, y, base);
    case Q6K => DequantQ6K(f16, b, y, base);
  }

  /** Dequantise a tensor: refused exactly for a count that is not whole blocks or too few bytes; otherwise every weight
      is written once, from its own block. */
  method Dequantize(kind: Kind, f16: Half, data: seq<bv8>, n: nat) returns (r: Result<seq<real>, Error>)
    ensures r.Err? <==> n % 256 != 0 || |data| < n / 256 * BlockBytes(kind)
    ensures r.Ok? ==> |r.value| == n && forall i :: 0 <= i < n ==> r.value[i] == TensorElem(kind, f16, data, i)
  {
    hide Elem;
    if n % 256 != 0 {
      return Err(Msg("gguf: element count is not a whole number of blocks"));
    }
    var blocks, bb := n / 256, BlockBytes(kind);
    if |data| < blocks * bb {
      return Err(Msg("gguf: too few bytes"));
    }
    var y := new real[n](_ => 0.0);
    for q := 0 to blocks
      invariant forall i :: 0 <= i < 256 * q ==> y[i] == TensorElem(kind, f16, data, i)
    {
      MulMonotone(q + 1, blocks, bb);
      assert (q + 1) * bb == q * bb + bb;
      ghost var before := y[..];
      DequantBlock(kind, f16, data[q * bb..q * bb + bb], y, 256 * q);
      forall i | 0 <= i < 256 * (q + 1) ensures y[i] == TensorElem(kind, f16, data, i) {
        if i < 256 * q {
          assert y[i] == before[i];
        } else {
          DivUnique(i, q, i - 256 * q, 256);
          assert y[256 * q + (i - 256 * q)] == Elem(kind, f16, data[q * bb..q * bb + bb], i - 256 * q);
        }
      }
    }
    r := Ok(y[..]);
  }

  function PackAll(kind: Kind, blocks: seq<KBlock>): (out: seq<seq<bv8>>)
    ensures |out| == |blocks| && forall q :: 0 <= q < |blocks| ==> out[q] == Pack(kind, blocks[q])
  {
    seq(|blocks|, q requires 0 <= q < |blocks| => Pack(kind, blocks[q]))
  }

  lemma {:induction false} FlattenSlice(parts: seq<seq<bv8>>, n: nat, q: nat)
    requires q < |parts| && forall i :: 0 <= i < |parts| ==> |parts[i]| == n
    ensures q * n + n <= |Flatten(parts)| && Flatten(parts)[q * n..q * n + n] == parts[q]
  {
    var rest := Flatten(parts[1..]);
    assert Flatten(parts) == parts[0] + rest;
    if q > 0 {
      FlattenSlice(parts[1..], n, q - 1);
      assert q * n == (q - 1) * n + n;
      assert Flatten(parts)[q * n..q * n + n] == rest[(q - 1) * n..(q - 1) * n + n];
    } else {
      assert Flatten(parts)[..n] == parts[0];
    }
  }

  /** Round trip for tensors of any number of blocks: packing and dequantising gives scale times quant, less the
      minimum, at every index. */
  lemma TensorRoundTrip(kind: Kind, f16: Half, blocks: seq<KBlock>, i: nat)
    requires forall q :: 0 <= q < |blocks| ==> Fits(kind, blocks[q])
    requires i < 256 * |blocks|
    ensures TensorElem(kind, f16, Flatten(PackAll(kind, blocks)), i) == Value(kind, f16, blocks[i / 256], i % 256)
  {
    hide Elem, Value, Fits, BlockBytes;
    var q := i / 256;
    FlattenSlice(PackAll(kind, blocks), BlockBytes(kind), q);
    BlockRoundTrip(kind, f16, blocks[q], i % 256);
  }
}
