/** src/gguf/reader.rs: parsing a GGUF container, and the serialised image it undoes (GGUF v3 specification, "File
    Structure" section). Floats are kept as their bit patterns and strings as their UTF-8 bytes. */
module Gguf {
  import opened Arith
  import opened Prelude

  type Byte = x: int | 0 <= x < 256

  const GGUF_MAGIC: nat := 0x46554747
  const DEFAULT_ALIGNMENT: nat := 32

  const T_UINT8: nat := 0
  const T_INT8: nat := 1
  const T_UINT16: nat := 2
  const T_INT16: nat := 3
  const T_UINT32: nat := 4
  const T_INT32: nat := 5
  const T_FLOAT32: nat := 6
  const T_BOOL: nat := 7
  const T_STRING: nat := 8
  const T_ARRAY: nat := 9
  const T_UINT64: nat := 10
  const T_INT64: nat := 11
  const T_FLOAT64: nat := 12

  datatype MetaValue =
    | U8(n: int) | I8(n: int) | U16(n: int) | I16(n: int) | U32(n: int) | I32(n: int) | U64(n: int) | I64(n: int)
    | F32(bits: nat) | F64(bits: nat) | Bool(b: bool) | Str(s: seq<Byte>) | Arr(items: seq<MetaValue>)

  datatype GgufError =
    | UnexpectedEof | BadUtf8 | UnknownValueType(tag: nat) | NestedArray | BadMagic(magic: nat)
    | BadVersion(version: nat)
    | BadDims(n: nat) | DataPastEnd | UnsupportedType(ggml: nat) | BadElementCount | DataOutOfRange

  datatype TensorInfo = TensorInfo(name: seq<Byte>, shape: seq<nat>, ggmlType: nat, offset: nat)

  type Table = map<seq<Byte>, MetaValue>

  datatype GgufFile = GgufFile(metadata: Table, tensors: seq<TensorInfo>, alignment: nat, bytes: seq<Byte>,
    dataStart: nat)

  type Read<T> = Result<(T, nat), GgufError>

  type Utf8 = seq<Byte> -> bool

  // ----- little-endian integers -----

  function Pow256(n: nat): (p: nat)
    ensures p >= 1
  {
    if n == 0 then 1 else 256 * Pow256(n - 1)
  }

  function LeBytes(v: nat, n: nat): (out: seq<Byte>)
    ensures |out| == n
  {
    if n == 0 then [] else [v % 256] + LeBytes(v / 256, n - 1)
  }

  function LeValue(b: seq<Byte>): nat
  {
    if b == [] then 0 else b[0] + 256 * LeValue(b[1..])
  }

  lemma {:induction false} LeRoundTrip(v: nat, n: nat)
    requires v < Pow256(n)
    ensures LeValue(LeBytes(v, n)) == v
  {
    if n > 0 {
      LeRoundTrip(v / 256, n - 1);
      assert LeBytes(v, n)[1..] == LeBytes(v / 256, n - 1);
    }
  }

  /** The two's-complement reading of an `n`-byte integer, and its bit pattern. */
  function Signed(v: nat, n: nat): int { if 2 * v < Pow256(n) then v else v - Pow256(n) }

  function Unsigned(x: int, n: nat): nat { Max(if x >= 0 then x else x + Pow256(n), 0) }

  predicate InSigned(x: int, n: nat) { -(Pow256(n) as int) <= 2 * x < Pow256(n) }

  lemma SignedRoundTrip(x: int, n: nat)
    requires InSigned(x, n)
    ensures Unsigned(x, n) < Pow256(n) && Signed(Unsigned(x, n), n) == x
  {
  }

  // ----- what each read returns -----

  function TakeAt(bytes: seq<Byte>, pos: nat, n: nat): Read<seq<Byte>>
  {
    if pos + n <= |bytes| then Ok((bytes[pos..pos + n], pos + n)) else Err(UnexpectedEof)
  }

  function UintAt(bytes: seq<Byte>, pos: nat, n: nat): (r: Read<nat>)
    ensures r.Ok? ==> r.value.1 == pos + n <= |bytes|
  {
    var t := TakeAt(bytes, pos, n);
    if t.Err? then Err(t.error) else Ok((LeValue(t.value.0), t.value.1))
  }

  function StringAt(utf8: Utf8, bytes: seq<Byte>, pos: nat): Read<seq<Byte>>
  {
    var len := UintAt(bytes, pos, 8);
    if len.Err? then Err(len.error)
    else
      var raw := TakeAt(bytes, len.value.1, len.value.0);
      if raw.Err? then Err(raw.error) else if !utf8(raw.value.0) then Err(BadUtf8) else raw
  }

  function Mapped<T, U>(r: Read<T>, f: T -> U): Read<U>
  {
    if r.Err? then Err(r.error) else Ok((f(r.value.0), r.value.1))
  }

  /** A value that is not an array. */
  function ScalarAt(utf8: Utf8, bytes: seq<Byte>, pos: nat, tag: nat): Read<MetaValue>
  {
    if tag == T_UINT8 then Mapped(UintAt(bytes, pos, 1), n => U8(n))
    else if tag == T_INT8 then Mapped(UintAt(bytes, pos, 1), n => I8(Signed(n, 1)))
    else if tag == T_UINT16 then Mapped(UintAt(bytes, pos, 2), n => U16(n))
    else if tag == T_INT16 then Mapped(UintAt(bytes, pos, 2), n => I16(Signed(n, 2)))
    else if tag == T_UINT32 then Mapped(UintAt(bytes, pos, 4), n => U32(n))
    else if tag == T_INT32 then Mapped(UintAt(bytes, pos, 4), n => I32(Signed(n, 4)))
    else if tag == T_FLOAT32 then Mapped(UintAt(bytes, pos, 4), n => F32(n))
    else if tag == T_BOOL then Mapped(UintAt(bytes, pos, 1), n => Bool(n != 0))
    else if tag == T_STRING then Mapped(StringAt(utf8, bytes, pos), s => Str(s))
    else if tag == T_UINT64 then Mapped(UintAt(bytes, pos, 8), n => U64(n))
    else if tag == T_INT64 then Mapped(UintAt(bytes, pos, 8), n => I64(Signed(n, 8)))
    else if tag == T_FLOAT64 then Mapped(UintAt(bytes, pos, 8), n => F64(n))
    else Err(UnknownValueType(tag))
  }

  /** The first `n` items of a flat array. */
  function ItemsAt(utf8: Utf8, bytes: seq<Byte>, pos: nat, tag: nat, n: nat): Read<seq<MetaValue>>
  {
    if n == 0 then Ok(([], pos))
    else
      var front := ItemsAt(utf8, bytes, pos, tag, n - 1);
      if front.Err? then front
      else Mapped(ScalarAt(utf8, bytes, front.value.1, tag), v => front.value.0 + [v])
  }

  function ValueAt(utf8: Utf8, bytes: seq<Byte>, pos: nat, tag: nat): Read<MetaValue>
  {
    if tag != T_ARRAY then ScalarAt(utf8, bytes, pos, tag)
    else
      var elem := UintAt(bytes, pos, 4);
      if elem.Err? then Err(elem.error)
      else if elem.value.0 == T_ARRAY then Err(NestedArray)
      else
        var len := UintAt(bytes, elem.value.1, 8);
        if len.Err? then Err(len.error)
        else Mapped(ItemsAt(utf8, bytes, len.value.1, elem.value.0, len.value.0), items => Arr(items))
  }

  function EntryAt(utf8: Utf8, bytes: seq<Byte>, pos: nat): Read<(seq<Byte>, MetaValue)>
  {
    var key := StringAt(utf8, bytes, pos);
    if key.Err? then Err(key.error)
    else
      var tag := UintAt(bytes, key.value.1, 4);
      if tag.Err? then Err(tag.error)
      else Mapped(ValueAt(utf8, bytes, tag.value.1, tag.value.0), v => (key.value.0, v))
  }

  function EntriesAt(utf8: Utf8, bytes: seq<Byte>, pos: nat, n: nat): Read<seq<(seq<Byte>, MetaValue)>>
  {
    if n == 0 then Ok(([], pos))
    else
      var front := EntriesAt(utf8, bytes, pos, n - 1);
      if front.Err? then front
      else Mapped(EntryAt(utf8, bytes, front.value.1), e => front.value.0 + [e])
  }

  /** The table entries build, later ones winning. */
  function ToTable(entries: seq<(seq<Byte>, MetaValue)>): Table
  {
    if entries == [] then map[]
    else
      var last := entries[|entries| - 1];
      ToTable(entries[..|entries| - 1])[last.0 := last.1]
  }

  function DimsAt(bytes: seq<Byte>, pos: nat, n: nat): Read<seq<nat>>
  {
    if n == 0 then Ok(([], pos))
    else
      var front := DimsAt(bytes, pos, n - 1);
      if front.Err? then front
      else Mapped(UintAt(bytes, front.value.1, 8), d => front.value.0 + [d])
  }

  function Reversed<T>(s: seq<T>): (r: seq<T>)
    ensures |r| == |s| && forall i :: 0 <= i < |s| ==> r[i] == s[|s| - 1 - i]
  {
    seq(|s|, i requires 0 <= i < |s| => s[|s| - 1 - i])
  }

  function TensorAt(utf8: Utf8, bytes: seq<Byte>, pos: nat): Read<TensorInfo>
  {
    var name := StringAt(utf8, bytes, pos);
    if name.Err? then Err(name.error)
    else
      var nDims := UintAt(bytes, name.value.1, 4);
      if nDims.Err? then Err(nDims.error)
      else if nDims.value.0 == 0 || nDims.value.0 > 4 then Err(BadDims(nDims.value.0))
      else
        var ne := DimsAt(bytes, nDims.value.1, nDims.value.0);
        if ne.Err? then Err(ne.error)
        else
          var ty := UintAt(bytes, ne.value.1, 4);
          if ty.Err? then Err(ty.error)
          else
            Mapped(UintAt(bytes, ty.value.1, 8),
                   offset => TensorInfo(name.value.0, Reversed(ne.value.0), ty.value.0, offset))
  }

  function TensorsAt(utf8: Utf8, bytes: seq<Byte>, pos: nat, n: nat): Read<seq<TensorInfo>>
  {
    if n == 0 then Ok(([], pos))
    else
      var front := TensorsAt(utf8, bytes, pos, n - 1);
      if front.Err? then front
      else Mapped(TensorAt(utf8, bytes, front.value.1), t => front.value.0 + [t])
  }

  /** Any integer variant, or a boolean, as an unsigned count. */
  function AsU64(v: MetaValue): Option<nat>
  {
    match v
    case U8(n) => if n >= 0 then Some(n) else None
    case U16(n) => if n >= 0 then Some(n) else None
    case U32(n) => if n >= 0 then Some(n) else None
    case U64(n) => if n >= 0 then Some(n) else None
    case I8(n) => if n >= 0 then Some(n) else None
    case I16(n) => if n >= 0 then Some(n) else None
    case I32(n) => if n >= 0 then Some(n) else None
    case I64(n) => if n >= 0 then Some(n) else None
    case Bool(b) => Some(if b then 1 else 0)
    case _ => None
  }

  /** `general.alignment` in ASCII. */
  const ALIGNMENT_KEY: seq<Byte> :=
    [103, 101, 110, 101, 114, 97, 108, 46, 97, 108, 105, 103, 110, 109, 101, 110, 116]

  function Alignment(metadata: Table): (a: nat)
    ensures a >= 1
  {
    var declared := if ALIGNMENT_KEY in metadata then AsU64(metadata[ALIGNMENT_KEY]) else None;
    Max(if declared.Some? then declared.value else DEFAULT_ALIGNMENT, 1)
  }

  /** The first alignment boundary at or after `end`. */
  function DataStart(end: nat, alignment: nat): nat
    requires alignment >= 1
  {
    (end + alignment - 1) / alignment * alignment
  }

  /** It is a boundary, and the least one that does not precede the header's end. */
  lemma DataStartIsLeast(end: nat, alignment: nat)
    requires alignment >= 1
    ensures DataStart(end, alignment) % alignment == 0 && end <= DataStart(end, alignment) < end + alignment
    ensures forall b: nat :: b % alignment == 0 && b >= end ==> b >= DataStart(end, alignment)
  {
    var q := (end + alignment - 1) / alignment;
    assert end + alignment - 1 == q * alignment + (end + alignment - 1) % alignment;
    DivUnique(q * alignment, q, 0, alignment);
    forall b: nat | b % alignment == 0 && b >= end ensures b >= DataStart(end, alignment) {
      var p := b / alignment;
      assert b == p * alignment;
      FewerBelow(p, q, alignment);
      MulMonotone(q, p, alignment);
    }
  }

  lemma FewerBelow(p: int, q: int, d: int)
    requires d >= 1 && p * d >= q * d - d + 1
    ensures p >= q
  {
    if p < q {
      MulMonotone(p + 1, q, d);
    }
  }

  /** What parsing an image means. */
  function Parsed(utf8: Utf8, bytes: seq<Byte>): Result<GgufFile, GgufError>
  {
    var magic := UintAt(bytes, 0, 4);
    if magic.Err? then Err(magic.error)
    else if magic.value.0 != GGUF_MAGIC then Err(BadMagic(magic.value.0))
    else
      var version := UintAt(bytes, magic.value.1, 4);
      if version.Err? then Err(version.error)
      else if !(2 <= version.value.0 <= 3) then Err(BadVersion(version.value.0))
      else
        var tensorCount := UintAt(bytes, version.value.1, 8);
        if tensorCount.Err? then Err(tensorCount.error)
        else
          var metadataCount := UintAt(bytes, tensorCount.value.1, 8);
          if metadataCount.Err? then Err(metadataCount.error)
          else ParsedTables(utf8, bytes, metadataCount.value.1, tensorCount.value.0, metadataCount.value.0)
  }

  function ParsedTables(utf8: Utf8, bytes: seq<Byte>, pos: nat, tensorCount: nat, metadataCount: nat)
      : Result<GgufFile, GgufError>
  {
    var entries := EntriesAt(utf8, bytes, pos, metadataCount);
    if entries.Err? then Err(entries.error)
    else
      var tensors := TensorsAt(utf8, bytes, entries.value.1, tensorCount);
      if tensors.Err? then Err(tensors.error)
      else Finished(bytes, ToTable(entries.value.0), tensors.value.0, tensors.value.1)
  }

  function Finished(bytes: seq<Byte>, metadata: Table, tensors: seq<TensorInfo>, end: nat): Result<GgufFile, GgufError>
  {
    var alignment := Alignment(metadata);
    var dataStart := DataStart(end, alignment);
    if tensors != [] && dataStart > |bytes| then Err(DataPastEnd)
    else Ok(GgufFile(metadata, tensors, alignment, bytes, dataStart))
  }

  // ----- the reader -----

  lemma {:induction false} ItemsErrSticks(utf8: Utf8, bytes: seq<Byte>, pos: nat, tag: nat, i: nat, n: nat)
    requires i <= n && ItemsAt(utf8, bytes, pos, tag, i).Err?
    ensures ItemsAt(utf8, bytes, pos, tag, n) == ItemsAt(utf8, bytes, pos, tag, i)
  {
    hide ScalarAt;
    if i < n {
      ItemsErrSticks(utf8, bytes, pos, tag, i, n - 1);
    }
  }

  lemma {:induction false} EntriesErrSticks(utf8: Utf8, bytes: seq<Byte>, pos: nat, i: nat, n: nat)
    requires i <= n && EntriesAt(utf8, bytes, pos, i).Err?
    ensures EntriesAt(utf8, bytes, pos, n) == EntriesAt(utf8, bytes, pos, i)
  {
    hide EntryAt;
    if i < n {
      EntriesErrSticks(utf8, bytes, pos, i, n - 1);
    }
  }

  lemma {:induction false} DimsErrSticks(bytes: seq<Byte>, pos: nat, i: nat, n: nat)
    requires i <= n && DimsAt(bytes, pos, i).Err?
    ensures DimsAt(bytes, pos, n) == DimsAt(bytes, pos, i)
  {
    hide UintAt;
    if i < n {
      DimsErrSticks(bytes, pos, i, n - 1);
    }
  }

  lemma {:induction false} TensorsErrSticks(utf8: Utf8, bytes: seq<Byte>, pos: nat, i: nat, n: nat)
    requires i <= n && TensorsAt(utf8, bytes, pos, i).Err?
    ensures TensorsAt(utf8, bytes, pos, n) == TensorsAt(utf8, bytes, pos, i)
  {
    hide TensorAt;
    if i < n {
      TensorsErrSticks(utf8, bytes, pos, i, n - 1);
    }
  }

  /** A forward-only cursor over the image. Each read returns what the layout says is at the position, and on success
      moves just past it. */
  class Cursor {
    const bytes: seq<Byte>
    const utf8: Utf8
    var pos: nat

    constructor (bytes: seq<Byte>, utf8: Utf8)
      ensures this.bytes == bytes && this.utf8 == utf8 && pos == 0
    {
      this.bytes := bytes;
      this.utf8 := utf8;
      pos := 0;
    }

    /** `r` reports `spec`, and a success leaves the cursor where `spec` says. */
    ghost predicate Follows<T>(r: Result<T, GgufError>, spec: Read<T>)
      reads this
    {
      match spec
      case Err(e) => r == Err(e)
      case Ok(v) => r == Ok(v.0) && pos == v.1
    }

    method Take(n: nat) returns (r: Result<seq<Byte>, GgufError>)
      modifies this`pos
      ensures Follows(r, TakeAt(bytes, old(pos), n))
      ensures r.Err? ==> pos == old(pos)
    {
      var end := pos + n;
      if end > |bytes| {
        return Err(UnexpectedEof);
      }
      r := Ok(bytes[pos..end]);
      pos := end;
    }

    method Uint(n: nat) returns (r: Result<nat, GgufError>)
      modifies this`pos
      ensures Follows(r, UintAt(bytes, old(pos), n))
    {
      var raw := Take(n);
      if raw.Err? {
        return Err(raw.error);
      }
      r := Ok(LeValue(raw.value));
    }

    method String() returns (r: Result<seq<Byte>, GgufError>)
      modifies this`pos
      ensures Follows(r, StringAt(utf8, bytes, old(pos)))
    {
      var len := Uint(8);
      if len.Err? {
        return Err(len.error);
      }
      r := Take(len.value);
      if r.Ok? && !utf8(r.value) {
        r := Err(BadUtf8);
      }
    }

    method Value(tag: nat) returns (r: Result<MetaValue, GgufError>)
      modifies this`pos
      ensures Follows(r, ValueAt(utf8, bytes, old(pos), tag))
      decreases if tag == T_ARRAY then 1 else 0
    {
      if tag == T_STRING {
        var s := String();
        return if s.Err? then Err(s.error) else Ok(Str(s.value));
      }
      if tag != T_ARRAY {
        r := Number(tag);
        return;
      }
      var elem := Uint(4);
      if elem.Err? {
        return Err(elem.error);
      }
      if elem.value == T_ARRAY {
        return Err(NestedArray);
      }
      var len := Uint(8);
      if len.Err? {
        return Err(len.error);
      }
      ghost var start := pos;
      var items: seq<MetaValue> := [];
      for i := 0 to len.value
        invariant ItemsAt(utf8, bytes, start, elem.value, i) == Ok((items, pos))
      {
        var item := Value(elem.value);
        if item.Err? {
          ItemsErrSticks(utf8, bytes, start, elem.value, i + 1, len.value);
          return Err(item.error);
        }
        items := items + [item.value];
      }
      r := Ok(Arr(items));
    }

    /** The fixed-width values. */
    method Number(tag: nat) returns (r: Result<MetaValue, GgufError>)
      requires tag != T_ARRAY && tag != T_STRING
      modifies this`pos
      ensures Follows(r, ScalarAt(utf8, bytes, old(pos), tag))
    {
      var width := if tag == T_UINT8 || tag == T_INT8 || tag == T_BOOL then 1
                   else if tag == T_UINT16 || tag == T_INT16 then 2
                   else if tag == T_UINT32 || tag == T_INT32 || tag == T_FLOAT32 then 4
                   else if tag == T_UINT64 || tag == T_INT64 || tag == T_FLOAT64 then 8
                   else 0;
      if width == 0 {
        return Err(UnknownValueType(tag));
      }
      var raw := Uint(width);
      if raw.Err? {
        return Err(raw.error);
      }
      var n := raw.value;
      r := Ok(
        if tag == T_UINT8 then U8(n)
        else if tag == T_INT8 then I8(Signed(n, 1))
        else if tag == T_UINT16 then U16(n)
        else if tag == T_INT16 then I16(Signed(n, 2))
        else if tag == T_UINT32 then U32(n)
        else if tag == T_INT32 then I32(Signed(n, 4))
        else if tag == T_FLOAT32 then F32(n)
        else if tag == T_BOOL then Bool(n != 0)
        else if tag == T_UINT64 then U64(n)
        else if tag == T_INT64 then I64(Signed(n, 8))
        else F64(n));
    }

    method Entry() returns (r: Result<(seq<Byte>, MetaValue), GgufError>)
      modifies this`pos
      ensures Follows(r, EntryAt(utf8, bytes, old(pos)))
    {
      var key := String();
      if key.Err? {
        return Err(key.error);
      }
      var tag := Uint(4);
      if tag.Err? {
        return Err(tag.error);
      }
      var value := Value(tag.value);
      if value.Err? {
        return Err(value.error);
      }
      r := Ok((key.value, value.value));
    }

    /** The dimensions of a tensor, innermost first. */
    method Dims(n: nat) returns (r: Result<seq<nat>, GgufError>)
      modifies this`pos
      ensures Follows(r, DimsAt(bytes, old(pos), n))
    {
      ghost var start := pos;
      var ne: seq<nat> := [];
      for i := 0 to n
        invariant DimsAt(bytes, start, i) == Ok((ne, pos))
      {
        var d := Uint(8);
        if d.Err? {
          DimsErrSticks(bytes, start, i + 1, n);
          return Err(d.error);
        }
        ne := ne + [d.value];
      }
      r := Ok(ne);
    }

    method Tensor() returns (r: Result<TensorInfo, GgufError>)
      modifies this`pos
      ensures Follows(r, TensorAt(utf8, bytes, old(pos)))
    {
      hide UintAt, StringAt, DimsAt, Reversed;
      var name := String();
      if name.Err? {
        return Err(name.error);
      }
      var nDims := Uint(4);
      if nDims.Err? {
        return Err(nDims.error);
      }
      if nDims.value == 0 || nDims.value > 4 {
        return Err(BadDims(nDims.value));
      }
      var ne := Dims(nDims.value);
      if ne.Err? {
        return Err(ne.error);
      }
      var ty := Uint(4);
      if ty.Err? {
        return Err(ty.error);
      }
      var offset := Uint(8);
      if offset.Err? {
        return Err(offset.error);
      }
      r := Ok(TensorInfo(name.value, Reversed(ne.value), ty.value, offset.value));
    }
  }

  method Parse(bytes: seq<Byte>, utf8: Utf8) returns (r: Result<GgufFile, GgufError>)
    ensures r == Parsed(utf8, bytes)
  {
    hide EntryAt, TensorAt, UintAt, Finished;
    var c := new Cursor(bytes, utf8);
    var magic := c.Uint(4);
    if magic.Err? {
      return Err(magic.error);
    }
    if magic.value != GGUF_MAGIC {
      return Err(BadMagic(magic.value));
    }
    var version := c.Uint(4);
    if version.Err? {
      return Err(version.error);
    }
    if !(2 <= version.value <= 3) {
      return Err(BadVersion(version.value));
    }
    var tensorCount := c.Uint(8);
    if tensorCount.Err? {
      return Err(tensorCount.error);
    }
    var metadataCount := c.Uint(8);
    if metadataCount.Err? {
      return Err(metadataCount.error);
    }
    r := ParseTables(c, tensorCount.value, metadataCount.value);
  }

  /** The two counted tables and the data boundary. */
  method ParseTables(c: Cursor, tensorCount: nat, metadataCount: nat) returns (r: Result<GgufFile, GgufError>)
    modifies c`pos
    ensures r == ParsedTables(c.utf8, c.bytes, old(c.pos), tensorCount, metadataCount)
  {
    hide EntryAt, TensorAt, Alignment, DataStart;
    ghost var start := c.pos;
    var metadata: Table := map[];
    ghost var entries: seq<(seq<Byte>, MetaValue)> := [];
    for i := 0 to metadataCount
      invariant EntriesAt(c.utf8, c.bytes, start, i) == Ok((entries, c.pos)) && metadata == ToTable(entries)
    {
      var entry := c.Entry();
      if entry.Err? {
        EntriesErrSticks(c.utf8, c.bytes, start, i + 1, metadataCount);
        return Err(entry.error);
      }
      metadata := metadata[entry.value.0 := entry.value.1];
      assert (entries + [entry.value])[..|entries|] == entries;
      entries := entries + [entry.value];
    }
    ghost var tableEnd := c.pos;
    var tensors: seq<TensorInfo> := [];
    for i := 0 to tensorCount
      invariant TensorsAt(c.utf8, c.bytes, tableEnd, i) == Ok((tensors, c.pos))
    {
      var tensor := c.Tensor();
      if tensor.Err? {
        TensorsErrSticks(c.utf8, c.bytes, tableEnd, i + 1, tensorCount);
        return Err(tensor.error);
      }
      tensors := tensors + [tensor.value];
    }
    var alignment := Alignment(metadata);
    var dataStart := DataStart(c.pos, alignment);
    if tensors != [] && dataStart > |c.bytes| {
      return Err(DataPastEnd);
    }
    r := Ok(GgufFile(metadata, tensors, alignment, c.bytes, dataStart));
  }

  // ----- tensor data -----

  /** `(elements, bytes)` per block of a GGML type tag. */
  function BlockOf(tag: nat): Option<(nat, nat)>
  {
    match tag
    case 0 => Some((1, 4))
    case 1 => Some((1, 2))
    case 2 => Some((32, 18))
    case 3 => Some((32, 20))
    case 6 => Some((32, 22))
    case 7 => Some((32, 24))
    case 8 => Some((32, 34))
    case 10 => Some((256, 84))
    case 11 => Some((256, 110))
    case 12 => Some((256, 144))
    case 13 => Some((256, 176))
    case 14 => Some((256, 210))
    case 16 => Some((256, 66))
    case 17 => Some((256, 74))
    case 18 => Some((256, 98))
    case 19 => Some((256, 50))
    case 20 => Some((32, 18))
    case 21 => Some((256, 110))
    case 22 => Some((256, 82))
    case 23 => Some((256, 136))
    case 29 => Some((256, 56))
    case 30 => Some((1, 2))
    case _ => None
  }

  function Elements(shape: seq<nat>): nat
  {
    if shape == [] then 1 else shape[0] * Elements(shape[1..])
  }

  function TensorByteLen(tag: nat, elements: nat): Result<nat, GgufError>
  {
    match BlockOf(tag)
    case None => Err(UnsupportedType(tag))
    case Some((be, bb)) => if be == 0 || elements % be != 0 then Err(BadElementCount) else Ok(elements / be * bb)
  }

  /** The bytes a header entry points at. */
  function TensorData(file: GgufFile, info: TensorInfo): Result<seq<Byte>, GgufError>
  {
    var n := TensorByteLen(info.ggmlType, Elements(info.shape));
    if n.Err? then Err(n.error)
    else
      var start := file.dataStart + info.offset;
      if start + n.value > |file.bytes| then Err(DataOutOfRange) else Ok(file.bytes[start..start + n.value])
  }

  // ----- writing an image -----

  datatype Header = Header(name: seq<Byte>, ne: seq<nat>, ggmlType: nat, offset: nat)

  /** The content of a file, as a writer holds it. */
  datatype Image = Image(version: nat, metadata: seq<(seq<Byte>, MetaValue)>, tensors: seq<Header>, data: seq<Byte>)

  function TagOf(v: MetaValue): nat
  {
    match v
    case U8(_) => T_UINT8
    case I8(_) => T_INT8
    case U16(_) => T_UINT16
    case I16(_) => T_INT16
    case U32(_) => T_UINT32
    case I32(_) => T_INT32
    case F32(_) => T_FLOAT32
    case Bool(_) => T_BOOL
    case Str(_) => T_STRING
    case Arr(_) => T_ARRAY
    case U64(_) => T_UINT64
    case I64(_) => T_INT64
    case F64(_) => T_FLOAT64
  }

  predicate Unsign(n: int, width: nat) { 0 <= n < Pow256(width) }

  predicate GoodString(utf8: Utf8, s: seq<Byte>) { utf8(s) && |s| < Pow256(8) }

  predicate GoodScalar(utf8: Utf8, v: MetaValue)
  {
    match v
    case U8(n) => Unsign(n, 1)
    case I8(n) => InSigned(n, 1)
    case U16(n) => Unsign(n, 2)
    case I16(n) => InSigned(n, 2)
    case U32(n) => Unsign(n, 4)
    case I32(n) => InSigned(n, 4)
    case U64(n) => Unsign(n, 8)
    case I64(n) => InSigned(n, 8)
    case F32(n) => Unsign(n, 4)
    case F64(n) => Unsign(n, 8)
    case Bool(_) => true
    case Str(s) => GoodString(utf8, s)
    case Arr(_) => false
  }

  /** A scalar, a string, or a flat array of one type. */
  predicate GoodValue(utf8: Utf8, v: MetaValue)
  {
    match v
    case Arr(items) =>
      && |items| < Pow256(8)
      && forall i :: 0 <= i < |items| ==> GoodScalar(utf8, items[i]) && TagOf(items[i]) == ItemTag(items)
    case _ => GoodScalar(utf8, v)
  }

  function ItemTag(items: seq<MetaValue>): nat { if items == [] then T_UINT8 else TagOf(items[0]) }

  function StringBytes(s: seq<Byte>): seq<Byte> { LeBytes(|s|, 8) + s }

  function ScalarBytes(v: MetaValue): seq<Byte>
  {
    match v
    case U8(n) => LeBytes(Unsigned(n, 1), 1)
    case I8(n) => LeBytes(Unsigned(n, 1), 1)
    case U16(n) => LeBytes(Unsigned(n, 2), 2)
    case I16(n) => LeBytes(Unsigned(n, 2), 2)
    case U32(n) => LeBytes(Unsigned(n, 4), 4)
    case I32(n) => LeBytes(Unsigned(n, 4), 4)
    case U64(n) => LeBytes(Unsigned(n, 8), 8)
    case I64(n) => LeBytes(Unsigned(n, 8), 8)
    case F32(n) => LeBytes(n, 4)
    case F64(n) => LeBytes(n, 8)
    case Bool(b) => LeBytes(if b then 1 else 0, 1)
    case Str(s) => StringBytes(s)
    case Arr(_) => []
  }

  function ItemsBytes(items: seq<MetaValue>): seq<Byte>
  {
    if items == [] then [] else ItemsBytes(items[..|items| - 1]) + ScalarBytes(items[|items| - 1])
  }

  function ValueBytes(v: MetaValue): seq<Byte>
  {
    match v
    case Arr(items) => LeBytes(ItemTag(items), 4) + (LeBytes(|items|, 8) + ItemsBytes(items))
    case _ => ScalarBytes(v)
  }

  function EntryBytes(e: (seq<Byte>, MetaValue)): seq<Byte>
  {
    StringBytes(e.0) + (LeBytes(TagOf(e.1), 4) + ValueBytes(e.1))
  }

  function EntriesBytes(entries: seq<(seq<Byte>, MetaValue)>): seq<Byte>
  {
    if entries == [] then [] else EntriesBytes(entries[..|entries| - 1]) + EntryBytes(entries[|entries| - 1])
  }

  function DimsBytes(ne: seq<nat>): seq<Byte>
  {
    if ne == [] then [] else DimsBytes(ne[..|ne| - 1]) + LeBytes(ne[|ne| - 1], 8)
  }

  function TensorBytes(h: Header): seq<Byte>
  {
    StringBytes(h.name) + (LeBytes(|h.ne|, 4) + (DimsBytes(h.ne) + (LeBytes(h.ggmlType, 4) + LeBytes(h.offset, 8))))
  }

  function TensorsBytes(tensors: seq<Header>): seq<Byte>
  {
    if tensors == [] then [] else TensorsBytes(tensors[..|tensors| - 1]) + TensorBytes(tensors[|tensors| - 1])
  }

  function HeaderBytes(img: Image): seq<Byte>
  {
    LeBytes(GGUF_MAGIC, 4) + (LeBytes(img.version, 4) + (LeBytes(|img.tensors|, 8) + (LeBytes(|img.metadata|, 8)
      + (EntriesBytes(img.metadata) + TensorsBytes(img.tensors)))))
  }

  /** The header, zeros up to the next alignment boundary, the data. */
  function Serialized(img: Image): seq<Byte>
  {
    var header := HeaderBytes(img);
    DataStartIsLeast(|header|, Alignment(ToTable(img.metadata)));
    header + (seq(DataStart(|header|, Alignment(ToTable(img.metadata))) - |header|, _ => 0) + img.data)
  }

  predicate GoodHeader(utf8: Utf8, h: Header)
  {
    && GoodString(utf8, h.name) && 1 <= |h.ne| <= 4 && h.ggmlType < Pow256(4) && h.offset < Pow256(8)
    && forall i :: 0 <= i < |h.ne| ==> h.ne[i] < Pow256(8)
  }

  predicate GoodEntry(utf8: Utf8, e: (seq<Byte>, MetaValue)) { GoodString(utf8, e.0) && GoodValue(utf8, e.1) }

  predicate GoodImage(utf8: Utf8, img: Image)
  {
    && 2 <= img.version <= 3
    && |img.metadata| < Pow256(8) && |img.tensors| < Pow256(8)
    && (forall i :: 0 <= i < |img.metadata| ==> GoodEntry(utf8, img.metadata[i]))
    && forall i :: 0 <= i < |img.tensors| ==> GoodHeader(utf8, img.tensors[i])
  }

  function InfoOf(h: Header): TensorInfo { TensorInfo(h.name, Reversed(h.ne), h.ggmlType, h.offset) }

  function Infos(tensors: seq<Header>): (out: seq<TensorInfo>)
    ensures |out| == |tensors| && forall i :: 0 <= i < |tensors| ==> out[i] == InfoOf(tensors[i])
  {
    seq(|tensors|, i requires 0 <= i < |tensors| => InfoOf(tensors[i]))
  }

  // ----- reading what was written -----

  /** `part` is what the image holds from `pos` on. */
  ghost predicate Holds(bytes: seq<Byte>, pos: nat, part: seq<Byte>)
  {
    pos + |part| <= |bytes| && bytes[pos..pos + |part|] == part
  }

  lemma HoldsSplit(bytes: seq<Byte>, pos: nat, a: seq<Byte>, b: seq<Byte>)
    requires Holds(bytes, pos, a + b)
    ensures Holds(bytes, pos, a) && Holds(bytes, pos + |a|, b)
  {
    var ab := a + b;
    assert bytes[pos..pos + |ab|][..|a|] == a && bytes[pos..pos + |ab|][|a|..] == b;
  }

  lemma PowValues()
    ensures Pow256(1) == 256 && Pow256(2) == 65536 && Pow256(4) == 4294967296 && Pow256(8) == 18446744073709551616
  {
    assert Pow256(3) == 16777216;
    assert Pow256(5) == 1099511627776 && Pow256(6) == 281474976710656;
    assert Pow256(7) == 72057594037927936;
  }

  lemma UintRead(bytes: seq<Byte>, pos: nat, v: nat, n: nat)
    requires Holds(bytes, pos, LeBytes(v, n)) && v < Pow256(n)
    ensures UintAt(bytes, pos, n) == Ok((v, pos + n))
  {
    LeRoundTrip(v, n);
  }

  lemma StringRead(utf8: Utf8, bytes: seq<Byte>, pos: nat, s: seq<Byte>)
    requires Holds(bytes, pos, StringBytes(s)) && GoodString(utf8, s)
    ensures StringAt(utf8, bytes, pos) == Ok((s, pos + |StringBytes(s)|))
  {
    HoldsSplit(bytes, pos, LeBytes(|s|, 8), s);
    UintRead(bytes, pos, |s|, 8);
  }

  lemma UnsignedOf(v: nat, n: nat)
    requires v < Pow256(n)
    ensures Unsigned(v, n) == v
  {
  }

  lemma ScalarRead(utf8: Utf8, bytes: seq<Byte>, pos: nat, v: MetaValue)
    requires Holds(bytes, pos, ScalarBytes(v)) && GoodScalar(utf8, v)
    ensures ScalarAt(utf8, bytes, pos, TagOf(v)) == Ok((v, pos + |ScalarBytes(v)|))
  {
    hide UintAt, StringAt, Unsigned, Signed, Holds, LeBytes, Pow256;
    PowValues();
    match v
    case U8(n) => UnsignedOf(n, 1); UintRead(bytes, pos, Unsigned(n, 1), 1);
    case U16(n) => UnsignedOf(n, 2); UintRead(bytes, pos, Unsigned(n, 2), 2);
    case U32(n) => UnsignedOf(n, 4); UintRead(bytes, pos, Unsigned(n, 4), 4);
    case U64(n) => UnsignedOf(n, 8); UintRead(bytes, pos, Unsigned(n, 8), 8);
    case I8(n) => SignedRoundTrip(n, 1); UintRead(bytes, pos, Unsigned(n, 1), 1);
    case I16(n) => SignedRoundTrip(n, 2); UintRead(bytes, pos, Unsigned(n, 2), 2);
    case I32(n) => SignedRoundTrip(n, 4); UintRead(bytes, pos, Unsigned(n, 4), 4);
    case I64(n) => SignedRoundTrip(n, 8); UintRead(bytes, pos, Unsigned(n, 8), 8);
    case F32(n) => UintRead(bytes, pos, n, 4);
    case F64(n) => UintRead(bytes, pos, n, 8);
    case Bool(b) => UintRead(bytes, pos, if b then 1 else 0, 1);
    case Str(t) => StringRead(utf8, bytes, pos, t);
  }

  lemma {:induction false} ItemsRead(utf8: Utf8, bytes: seq<Byte>, pos: nat, items: seq<MetaValue>, tag: nat)
    requires Holds(bytes, pos, ItemsBytes(items))
    requires forall i :: 0 <= i < |items| ==> GoodScalar(utf8, items[i]) && TagOf(items[i]) == tag
    ensures ItemsAt(utf8, bytes, pos, tag, |items|) == Ok((items, pos + |ItemsBytes(items)|))
  {
    hide ScalarAt, ScalarBytes, GoodScalar, TagOf, Holds;
    if items != [] {
      var front, last := items[..|items| - 1], items[|items| - 1];
      HoldsSplit(bytes, pos, ItemsBytes(front), ScalarBytes(last));
      assert items == front + [last];
      ItemsRead(utf8, bytes, pos, front, tag);
      ScalarRead(utf8, bytes, pos + |ItemsBytes(front)|, last);
    }
  }

  lemma TagFits(v: MetaValue)
    ensures TagOf(v) < Pow256(4)
  {
    PowValues();
  }

  lemma ValueRead(utf8: Utf8, bytes: seq<Byte>, pos: nat, v: MetaValue)
    requires Holds(bytes, pos, ValueBytes(v)) && GoodValue(utf8, v)
    ensures ValueAt(utf8, bytes, pos, TagOf(v)) == Ok((v, pos + |ValueBytes(v)|))
  {
    hide ScalarAt, ScalarBytes, Holds, LeBytes, UintAt, ItemsAt, ItemsBytes, Pow256;
    if v.Arr? {
      var items := v.items;
      ItemTagIsScalar(utf8, items);
      HoldsSplit(bytes, pos, LeBytes(ItemTag(items), 4), LeBytes(|items|, 8) + ItemsBytes(items));
      HoldsSplit(bytes, pos + 4, LeBytes(|items|, 8), ItemsBytes(items));
      UintRead(bytes, pos, ItemTag(items), 4);
      UintRead(bytes, pos + 4, |items|, 8);
      ItemsRead(utf8, bytes, pos + 12, items, ItemTag(items));
    } else {
      ScalarRead(utf8, bytes, pos, v);
    }
  }

  lemma ItemTagIsScalar(utf8: Utf8, items: seq<MetaValue>)
    requires GoodValue(utf8, Arr(items))
    ensures ItemTag(items) != T_ARRAY && ItemTag(items) < Pow256(4)
  {
    PowValues();
  }

  lemma EntryRead(utf8: Utf8, bytes: seq<Byte>, pos: nat, e: (seq<Byte>, MetaValue))
    requires Holds(bytes, pos, EntryBytes(e)) && GoodEntry(utf8, e)
    ensures EntryAt(utf8, bytes, pos) == Ok((e, pos + |EntryBytes(e)|))
  {
    hide ValueAt, ValueBytes, Holds, LeBytes, UintAt, StringAt, StringBytes, TagOf, GoodValue, GoodString;
    HoldsSplit(bytes, pos, StringBytes(e.0), LeBytes(TagOf(e.1), 4) + ValueBytes(e.1));
    var next := pos + |StringBytes(e.0)|;
    HoldsSplit(bytes, next, LeBytes(TagOf(e.1), 4), ValueBytes(e.1));
    StringRead(utf8, bytes, pos, e.0);
    TagFits(e.1);
    UintRead(bytes, next, TagOf(e.1), 4);
    ValueRead(utf8, bytes, next + 4, e.1);
  }

  lemma {:induction false} EntriesRead(utf8: Utf8, bytes: seq<Byte>, pos: nat, entries: seq<(seq<Byte>, MetaValue)>)
    requires Holds(bytes, pos, EntriesBytes(entries))
    requires forall i :: 0 <= i < |entries| ==> GoodEntry(utf8, entries[i])
    ensures EntriesAt(utf8, bytes, pos, |entries|) == Ok((entries, pos + |EntriesBytes(entries)|))
  {
    hide EntryAt, EntryBytes, GoodEntry, Holds;
    if entries != [] {
      var front, last := entries[..|entries| - 1], entries[|entries| - 1];
      HoldsSplit(bytes, pos, EntriesBytes(front), EntryBytes(last));
      assert entries == front + [last];
      EntriesRead(utf8, bytes, pos, front);
      EntryRead(utf8, bytes, pos + |EntriesBytes(front)|, last);
    }
  }

  lemma {:induction false} DimsRead(bytes: seq<Byte>, pos: nat, ne: seq<nat>)
    requires Holds(bytes, pos, DimsBytes(ne)) && forall i :: 0 <= i < |ne| ==> ne[i] < Pow256(8)
    ensures DimsAt(bytes, pos, |ne|) == Ok((ne, pos + |DimsBytes(ne)|))
  {
    hide UintAt, LeBytes, Pow256, Holds;
    if ne != [] {
      var front, last := ne[..|ne| - 1], ne[|ne| - 1];
      HoldsSplit(bytes, pos, DimsBytes(front), LeBytes(last, 8));
      assert ne == front + [last];
      DimsRead(bytes, pos, front);
      UintRead(bytes, pos + |DimsBytes(front)|, last, 8);
    }
  }

  lemma TensorRead(utf8: Utf8, bytes: seq<Byte>, pos: nat, h: Header)
    requires Holds(bytes, pos, TensorBytes(h)) && GoodHeader(utf8, h)
    ensures TensorAt(utf8, bytes, pos) == Ok((InfoOf(h), pos + |TensorBytes(h)|))
  {
    hide Holds, LeBytes, UintAt, StringAt, StringBytes, GoodString, DimsAt, DimsBytes, Reversed, Pow256;
    PowValues();
    var tail2 := LeBytes(h.ggmlType, 4) + LeBytes(h.offset, 8);
    var tail1 := LeBytes(|h.ne|, 4) + (DimsBytes(h.ne) + tail2);
    HoldsSplit(bytes, pos, StringBytes(h.name), tail1);
    var p1 := pos + |StringBytes(h.name)|;
    HoldsSplit(bytes, p1, LeBytes(|h.ne|, 4), DimsBytes(h.ne) + tail2);
    HoldsSplit(bytes, p1 + 4, DimsBytes(h.ne), tail2);
    var p2 := p1 + 4 + |DimsBytes(h.ne)|;
    HoldsSplit(bytes, p2, LeBytes(h.ggmlType, 4), LeBytes(h.offset, 8));
    StringRead(utf8, bytes, pos, h.name);
    UintRead(bytes, p1, |h.ne|, 4);
    DimsRead(bytes, p1 + 4, h.ne);
    UintRead(bytes, p2, h.ggmlType, 4);
    UintRead(bytes, p2 + 4, h.offset, 8);
  }

  lemma {:induction false} TensorsRead(utf8: Utf8, bytes: seq<Byte>, pos: nat, tensors: seq<Header>)
    requires Holds(bytes, pos, TensorsBytes(tensors))
    requires forall i :: 0 <= i < |tensors| ==> GoodHeader(utf8, tensors[i])
    ensures TensorsAt(utf8, bytes, pos, |tensors|) == Ok((Infos(tensors), pos + |TensorsBytes(tensors)|))
  {
    hide TensorAt, TensorBytes, GoodHeader, InfoOf, Holds;
    if tensors != [] {
      var front, last := tensors[..|tensors| - 1], tensors[|tensors| - 1];
      HoldsSplit(bytes, pos, TensorsBytes(front), TensorBytes(last));
      assert tensors == front + [last];
      TensorsRead(utf8, bytes, pos, front);
      TensorRead(utf8, bytes, pos + |TensorsBytes(front)|, last);
      assert Infos(tensors) == Infos(front) + [InfoOf(last)];
    }
  }

  /** Round trip: parsing a written image gives back its table, its tensors with dimensions reversed, its alignment, and
      a data section that starts at the least boundary after the header. */
  lemma ParseOfSerialized(utf8: Utf8, img: Image)
    requires GoodImage(utf8, img)
    ensures
      var table := ToTable(img.metadata);
      var bytes := Serialized(img);
      Parsed(utf8, bytes) == Ok(GgufFile(table, Infos(img.tensors), Alignment(table), bytes,
                                         DataStart(|HeaderBytes(img)|, Alignment(table))))
  {
    hide LeBytes, UintAt, EntriesAt, TensorsAt, EntriesBytes, TensorsBytes, Holds, GoodEntry, GoodHeader, Pow256,
      ToTable, Alignment, DataStart;
    PowValues();
    var bytes, header := Serialized(img), HeaderBytes(img);
    var tables := EntriesBytes(img.metadata) + TensorsBytes(img.tensors);
    var counts := LeBytes(|img.metadata|, 8) + tables;
    HeaderHolds(img);
    HoldsSplit(bytes, 0, LeBytes(GGUF_MAGIC, 4), LeBytes(img.version, 4) + (LeBytes(|img.tensors|, 8) + counts));
    HoldsSplit(bytes, 4, LeBytes(img.version, 4), LeBytes(|img.tensors|, 8) + counts);
    HoldsSplit(bytes, 8, LeBytes(|img.tensors|, 8), counts);
    HoldsSplit(bytes, 16, LeBytes(|img.metadata|, 8), tables);
    UintRead(bytes, 0, GGUF_MAGIC, 4);
    UintRead(bytes, 4, img.version, 4);
    UintRead(bytes, 8, |img.tensors|, 8);
    UintRead(bytes, 16, |img.metadata|, 8);
    TablesRead(utf8, img, bytes, 24);
    DataStartIsLeast(|header|, Alignment(ToTable(img.metadata)));
  }

  lemma HeaderHolds(img: Image)
    ensures Holds(Serialized(img), 0, HeaderBytes(img))
    ensures |Serialized(img)| == DataStart(|HeaderBytes(img)|, Alignment(ToTable(img.metadata))) + |img.data|
  {
    hide HeaderBytes, Alignment, ToTable, DataStart;
    DataStartIsLeast(|HeaderBytes(img)|, Alignment(ToTable(img.metadata)));
  }

  lemma TablesRead(utf8: Utf8, img: Image, bytes: seq<Byte>, pos: nat)
    requires GoodImage(utf8, img) && Holds(bytes, pos, EntriesBytes(img.metadata) + TensorsBytes(img.tensors))
    ensures
      var end := pos + |EntriesBytes(img.metadata)| + |TensorsBytes(img.tensors)|;
      ParsedTables(utf8, bytes, pos, |img.tensors|, |img.metadata|)
        == Finished(bytes, ToTable(img.metadata), Infos(img.tensors), end)
  {
    hide EntriesAt, TensorsAt, EntriesBytes, TensorsBytes, Holds, GoodEntry, GoodHeader, Finished, ToTable;
    HoldsSplit(bytes, pos, EntriesBytes(img.metadata), TensorsBytes(img.tensors));
    EntriesRead(utf8, bytes, pos, img.metadata);
    TensorsRead(utf8, bytes, pos + |EntriesBytes(img.metadata)|, img.tensors);
  }

  /** With distinct keys the table holds exactly the written entries. */
  lemma {:induction false} DistinctKeysSurvive(entries: seq<(seq<Byte>, MetaValue)>)
    requires forall i, j :: 0 <= i < j < |entries| ==> entries[i].0 != entries[j].0
    ensures forall i :: 0 <= i < |entries| ==>
      entries[i].0 in ToTable(entries) && ToTable(entries)[entries[i].0] == entries[i].1
    ensures forall k :: k in ToTable(entries) ==> exists i :: 0 <= i < |entries| && entries[i].0 == k
  {
    if entries != [] {
      var front, last := entries[..|entries| - 1], entries[|entries| - 1];
      DistinctKeysSurvive(front);
      assert entries[|entries| - 1].0 == last.0;
      forall k | k in ToTable(entries) ensures exists i :: 0 <= i < |entries| && entries[i].0 == k {
        if k != last.0 {
          assert k in ToTable(front);
          var i :| 0 <= i < |front| && front[i].0 == k;
          assert entries[i].0 == k;
        }
      }
    }
  }

  /** A tensor whose extent lies within the data reads back the bytes written for it. */
  lemma TensorDataOfSerialized(utf8: Utf8, img: Image, i: nat)
    requires GoodImage(utf8, img) && i < |img.tensors|
    ensures
      var parsed := Parsed(utf8, Serialized(img));
      var h := img.tensors[i];
      var n := TensorByteLen(h.ggmlType, Elements(Reversed(h.ne)));
      parsed.Ok? && i < |parsed.value.tensors|
      && (n.Ok? && h.offset + n.value <= |img.data| ==>
            TensorData(parsed.value, parsed.value.tensors[i]) == Ok(img.data[h.offset..h.offset + n.value]))
      && (n.Ok? && h.offset + n.value > |img.data| ==>
            TensorData(parsed.value, parsed.value.tensors[i]) == Err(DataOutOfRange))
  {
    hide Parsed, HeaderBytes, Alignment, ToTable, DataStart, TensorByteLen, Elements, Reversed;
    ParseOfSerialized(utf8, img);
    HeaderHolds(img);
    DataStartIsLeast(|HeaderBytes(img)|, Alignment(ToTable(img.metadata)));
    var bytes, start := Serialized(img), DataStart(|HeaderBytes(img)|, Alignment(ToTable(img.metadata)));
    assert bytes[start..] == img.data;
    var h := img.tensors[i];
    var n := TensorByteLen(h.ggmlType, Elements(Reversed(h.ne)));
    if n.Ok? && h.offset + n.value <= |img.data| {
      assert bytes[start + h.offset..start + h.offset + n.value] == img.data[h.offset..h.offset + n.value];
    }
  }

  /** An array of arrays is refused wherever it appears. */
  lemma NestedArraysRefused(utf8: Utf8, bytes: seq<Byte>, pos: nat)
    requires Holds(bytes, pos, LeBytes(T_ARRAY, 4))
    ensures ValueAt(utf8, bytes, pos, T_ARRAY) == Err(NestedArray)
  {
    PowValues();
    UintRead(bytes, pos, T_ARRAY, 4);
  }
}
