/** What the parser of src/gguf/reader.rs reads, byte by byte and with the format's own numbers (GGUF v3 specification,
    "File Structure" section): the value tags, the magic, the default alignment, and a whole small image. */
module GgufBytes {
  import opened Dequant
  import opened Gguf
  import opened Prelude

  /** Little-endian numbers of two and of four digits to the base 256. */
  function Two(a: nat, b: nat): nat { a + 256 * b }

  function Four(a: nat, b: nat, c: nat, d: nat): nat { a + 256 * b + 65536 * c + 16777216 * d }

  lemma Le1(b: seq<Byte>)
    requires |b| == 1
    ensures LeValue(b) == b[0]
  {
    assert b[1..] == [];
  }

  lemma Le2(b: seq<Byte>)
    requires |b| == 2
    ensures LeValue(b) == Two(b[0], b[1])
  {
    Le1(b[1..]);
  }

  lemma Le4(b: seq<Byte>)
    requires |b| == 4
    ensures LeValue(b) == Four(b[0], b[1], b[2], b[3])
  {
    Le2(b[2..]);
    assert b[1..][1..] == b[2..];
  }

  lemma Le8(b: seq<Byte>)
    requires |b| == 8
    ensures LeValue(b) == Four(b[0], b[1], b[2], b[3]) + 4294967296 * Four(b[4], b[5], b[6], b[7])
  {
    Le4(b[4..]);
    var r1, r2, r3 := b[1..], b[2..], b[3..];
    assert r1[1..] == r2 && r2[1..] == r3 && r3[1..] == b[4..];
    assert LeValue(r3) == b[3] as nat + 256 * LeValue(b[4..]);
    assert LeValue(r2) == b[2] as nat + 256 * LeValue(r3);
    assert LeValue(r1) == b[1] as nat + 256 * LeValue(r2);
  }

  lemma Powers()
    ensures Pow256(1) == 256 && Pow256(2) == 65536 && Pow256(4) == 4294967296 && Pow256(8) == 18446744073709551616
  {
    assert Pow256(3) == 256 * Pow256(2) && Pow256(4) == 256 * Pow256(3) && Pow256(5) == 256 * Pow256(4);
    assert Pow256(6) == 256 * Pow256(5) && Pow256(7) == 256 * Pow256(6);
  }

  function U16Of(b: seq<Byte>, pos: nat): nat
    requires pos + 2 <= |b|
  {
    Two(b[pos], b[pos + 1])
  }

  function U32Of(b: seq<Byte>, pos: nat): nat
    requires pos + 4 <= |b|
  {
    Four(b[pos], b[pos + 1], b[pos + 2], b[pos + 3])
  }

  function U64Of(b: seq<Byte>, pos: nat): nat
    requires pos + 8 <= |b|
  {
    U32Of(b, pos) + 4294967296 * U32Of(b, pos + 4)
  }

  /** Reading an unsigned integer of one, two, four or eight bytes. */
  lemma ReadsUint(bytes: seq<Byte>, pos: nat)
    ensures pos + 1 <= |bytes| ==> UintAt(bytes, pos, 1) == Ok((bytes[pos] as nat, pos + 1))
    ensures pos + 2 <= |bytes| ==> UintAt(bytes, pos, 2) == Ok((U16Of(bytes, pos), pos + 2))
    ensures pos + 4 <= |bytes| ==> UintAt(bytes, pos, 4) == Ok((U32Of(bytes, pos), pos + 4))
    ensures pos + 8 <= |bytes| ==> UintAt(bytes, pos, 8) == Ok((U64Of(bytes, pos), pos + 8))
  {
    hide LeValue;
    if pos + 1 <= |bytes| {
      Le1(bytes[pos..pos + 1]);
    }
    if pos + 2 <= |bytes| {
      Le2(bytes[pos..pos + 2]);
    }
    if pos + 4 <= |bytes| {
      Le4(bytes[pos..pos + 4]);
    }
    if pos + 8 <= |bytes| {
      Le8(bytes[pos..pos + 8]);
    }
  }

  /** The integer tags of the format: 0 to 5, 10 and 11. */
  lemma IntegerTags(utf8: Utf8, bytes: seq<Byte>, pos: nat)
    ensures pos + 1 <= |bytes| ==>
      && ScalarAt(utf8, bytes, pos, 0) == Ok((U8(bytes[pos]), pos + 1))
      && ScalarAt(utf8, bytes, pos, 1)
         == Ok((I8(if bytes[pos] < 128 then bytes[pos] else bytes[pos] as int - 256), pos + 1))
    ensures pos + 2 <= |bytes| ==>
      var n := U16Of(bytes, pos);
      && ScalarAt(utf8, bytes, pos, 2) == Ok((U16(n), pos + 2))
      && ScalarAt(utf8, bytes, pos, 3) == Ok((I16(if n < 32768 then n else n - 65536), pos + 2))
    ensures pos + 4 <= |bytes| ==>
      var n := U32Of(bytes, pos);
      && ScalarAt(utf8, bytes, pos, 4) == Ok((U32(n), pos + 4))
      && ScalarAt(utf8, bytes, pos, 5) == Ok((I32(if n < 2147483648 then n else n - 4294967296), pos + 4))
    ensures pos + 8 <= |bytes| ==>
      var n := U64Of(bytes, pos);
      && ScalarAt(utf8, bytes, pos, 10) == Ok((U64(n), pos + 8))
      && ScalarAt(utf8, bytes, pos, 11)
         == Ok((I64(if n < 9223372036854775808 then n else n - 18446744073709551616), pos + 8))
  {
    hide UintAt, U16Of, U32Of, U64Of, Pow256;
    ReadsUint(bytes, pos);
    Powers();
  }

  /** The other tags: 6 and 12 are floats, 7 a boolean, 8 a string of eight length bytes and its text; 9 is an array,
      and nothing else is known. */
  lemma OtherTags(utf8: Utf8, bytes: seq<Byte>, pos: nat, tag: nat)
    ensures pos + 4 <= |bytes| ==> ScalarAt(utf8, bytes, pos, 6) == Ok((F32(U32Of(bytes, pos)), pos + 4))
    ensures pos + 8 <= |bytes| ==> ScalarAt(utf8, bytes, pos, 12) == Ok((F64(U64Of(bytes, pos)), pos + 8))
    ensures pos + 1 <= |bytes| ==> ScalarAt(utf8, bytes, pos, 7) == Ok((Bool(bytes[pos] != 0), pos + 1))
    ensures pos + 8 <= |bytes| && pos + 8 + U64Of(bytes, pos) <= |bytes| ==>
      var text := bytes[pos + 8..pos + 8 + U64Of(bytes, pos)];
      ScalarAt(utf8, bytes, pos, 8)
      == if utf8(text) then Ok((Str(text), pos + 8 + U64Of(bytes, pos))) else Err(BadUtf8)
    ensures tag > 12 ==> ValueAt(utf8, bytes, pos, tag) == Err(UnknownValueType(tag))
    ensures pos + 4 <= |bytes| && U32Of(bytes, pos) == 9 ==> ValueAt(utf8, bytes, pos, 9) == Err(NestedArray)
  {
    hide UintAt, U16Of, U32Of, U64Of, ItemsAt;
    ReadsUint(bytes, pos);
  }

  predicate StartsWithGguf(bytes: seq<Byte>)
    requires |bytes| >= 4
  {
    forall i :: 0 <= i < 4 ==> bytes[i] == "GGUF"[i] as int
  }

  /** The header: four letters, a version of two or three, the number of tensors, the number of metadata entries. */
  lemma Header(utf8: Utf8, bytes: seq<Byte>)
    requires |bytes| >= 24
    ensures !StartsWithGguf(bytes) ==> Parsed(utf8, bytes) == Err(BadMagic(U32Of(bytes, 0)))
    ensures StartsWithGguf(bytes) ==>
      Parsed(utf8, bytes)
      == if U32Of(bytes, 4) != 2 && U32Of(bytes, 4) != 3 then Err(BadVersion(U32Of(bytes, 4)))
         else ParsedTables(utf8, bytes, 24, U64Of(bytes, 8), U64Of(bytes, 16))
  {
    hide UintAt, ParsedTables, U64Of;
    ReadsUint(bytes, 0);
    ReadsUint(bytes, 4);
    ReadsUint(bytes, 8);
    ReadsUint(bytes, 16);
    assert "GGUF"[0] as int == 0x47 && "GGUF"[1] as int == 0x47 && "GGUF"[2] as int == 0x55 && "GGUF"[3] as int == 0x46;
    if U32Of(bytes, 0) == 0x46554747 {
      FourDigits(bytes[0], bytes[1], bytes[2], bytes[3]);
    }
  }

  lemma FourDigits(a: Byte, b: Byte, c: Byte, d: Byte)
    requires Four(a, b, c, d) == 0x46554747
    ensures a == 0x47 && b == 0x47 && c == 0x55 && d == 0x46
  {
    var low := a as int + 256 * (b as int);
    assert low < 65536;
    var high := c as int + 256 * (d as int);
    assert low + 65536 * high == 0x4747 + 65536 * 0x4655;
  }

  /** The letters of the key that sets the alignment, and the alignment without it. */
  lemma AlignmentKeyIs()
    ensures |ALIGNMENT_KEY| == |"general.alignment"|
    ensures forall i :: 0 <= i < |ALIGNMENT_KEY| ==> ALIGNMENT_KEY[i] == "general.alignment"[i] as int
    ensures Alignment(map[]) == 32
  {
  }

  /** A declared alignment, of whatever integer type, is that number, and at least one; a boolean is one, and a negative
      number or a value of another type leaves the default. */
  lemma DeclaredAlignment(metadata: Table, v: MetaValue)
    requires ALIGNMENT_KEY in metadata && metadata[ALIGNMENT_KEY] == v
    ensures Alignment(metadata)
         == if v.F32? || v.F64? || v.Str? || v.Arr? then 32
            else if v.Bool? then 1
            else if v.n < 0 then 32
            else if v.n == 0 then 1
            else v.n
  {
  }

  lemma ReadsString(utf8: Utf8, bytes: seq<Byte>, pos: nat)
    requires pos + 8 <= |bytes| && pos + 8 + U64Of(bytes, pos) <= |bytes|
    ensures var text := bytes[pos + 8..pos + 8 + U64Of(bytes, pos)];
      utf8(text) ==> StringAt(utf8, bytes, pos) == Ok((text, pos + 8 + U64Of(bytes, pos)))
  {
    hide UintAt, U64Of;
    ReadsUint(bytes, pos);
  }

  /** A small file: one entry with a key of one letter and a value of tag 4, one tensor with a name of one letter and
      two dimensions. */
  predicate SmallFile(utf8: Utf8, b: seq<Byte>)
  {
    && |b| >= 96 && StartsWithGguf(b) && (U32Of(b, 4) == 2 || U32Of(b, 4) == 3)
    && U64Of(b, 8) == 1 && U64Of(b, 16) == 1
    && U64Of(b, 24) == 1 && utf8([b[32]]) && U32Of(b, 33) == 4
    && U64Of(b, 41) == 1 && utf8([b[49]]) && U32Of(b, 50) == 2
  }

  /** It parses to that entry and that tensor, the dimensions in reverse; the header has 82 bytes, so the data starts at
      the next multiple of 32. */
  lemma SmallFileParses(utf8: Utf8, b: seq<Byte>)
    requires SmallFile(utf8, b)
    ensures Parsed(utf8, b) == Ok(GgufFile(
      map[[b[32]] := U32(U32Of(b, 37))],
      [TensorInfo([b[49]], [U64Of(b, 62), U64Of(b, 54)], U32Of(b, 70), U64Of(b, 74))],
      32, b, 96))
  {
    hide EntryAt, TensorAt, U32Of, U64Of, Alignment;
    Header(utf8, b);
    SmallEntry(utf8, b);
    SmallTensor(utf8, b);
    var entry := ([b[32]], U32(U32Of(b, 37)));
    var tensor := TensorInfo([b[49]], [U64Of(b, 62), U64Of(b, 54)], U32Of(b, 70), U64Of(b, 74));
    assert EntriesAt(utf8, b, 24, 0) == Ok(([], 24)) && [] + [entry] == [entry];
    assert EntriesAt(utf8, b, 24, 1) == Ok(([entry], 41));
    assert TensorsAt(utf8, b, 41, 0) == Ok(([], 41)) && [] + [tensor] == [tensor];
    assert TensorsAt(utf8, b, 41, 1) == Ok(([tensor], 82));
    OneEntry(entry);
    ShortKey(b[32], entry.1);
    assert DataStart(82, 32) == 96;
  }

  lemma OneEntry(e: (seq<Byte>, MetaValue))
    ensures ToTable([e]) == map[e.0 := e.1]
  {
    assert [e][..0] == [];
  }

  lemma ShortKey(k: Byte, v: MetaValue)
    ensures Alignment(map[[k] := v]) == 32
  {
    assert |ALIGNMENT_KEY| == 17;
  }

  lemma SmallEntry(utf8: Utf8, b: seq<Byte>)
    requires SmallFile(utf8, b)
    ensures EntryAt(utf8, b, 24) == Ok((([b[32]], U32(U32Of(b, 37))), 41))
  {
    hide UintAt, StringAt, ScalarAt, U32Of, U64Of;
    assert b[32..33] == [b[32]];
    ReadsString(utf8, b, 24);
    ReadsUint(b, 33);
    IntegerTags(utf8, b, 37);
  }

  lemma SmallTensor(utf8: Utf8, b: seq<Byte>)
    requires SmallFile(utf8, b)
    ensures TensorAt(utf8, b, 41)
         == Ok((TensorInfo([b[49]], [U64Of(b, 62), U64Of(b, 54)], U32Of(b, 70), U64Of(b, 74)), 82))
  {
    hide UintAt, StringAt, U32Of, U64Of, Reversed;
    assert b[49..50] == [b[49]];
    ReadsString(utf8, b, 41);
    ReadsUint(b, 50);
    ReadsUint(b, 54);
    ReadsUint(b, 62);
    ReadsUint(b, 70);
    ReadsUint(b, 74);
    var d0, d1 := U64Of(b, 54), U64Of(b, 62);
    assert DimsAt(b, 54, 0) == Ok(([], 54)) && [] + [d0] == [d0];
    assert DimsAt(b, 54, 1) == Ok(([d0], 62)) && [d0] + [d1] == [d0, d1];
    assert DimsAt(b, 54, 2) == Ok(([d0, d1], 70));
    assert Reversed([d0, d1]) == [d1, d0];
  }

  // ----- how many bytes a tensor has -----

  /** The sizes of the k-quant blocks are those of the packed layouts: tags 10 to 14. */
  lemma KQuantSizes()
    ensures BlockOf(10) == Some((256, BlockBytes(Q2K))) && BlockOf(11) == Some((256, BlockBytes(Q3K)))
    ensures BlockOf(12) == Some((256, BlockBytes(Q4K))) && BlockOf(13) == Some((256, BlockBytes(Q5K)))
    ensures BlockOf(14) == Some((256, BlockBytes(Q6K)))
  {
  }

  /** The sizes of the plain and the legacy blocks, from their parts: scale bytes, high bits and quants. */
  lemma LegacySizes()
    ensures BlockOf(0) == Some((1, 4)) && BlockOf(1) == BlockOf(30) == Some((1, 2))
    ensures BlockOf(2) == BlockOf(20) == Some((32, 2 + 32 / 2)) && BlockOf(3) == Some((32, 2 + 2 + 32 / 2))
    ensures BlockOf(6) == Some((32, 2 + 4 + 32 / 2)) && BlockOf(7) == Some((32, 2 + 2 + 4 + 32 / 2))
    ensures BlockOf(8) == Some((32, 2 + 32))
  {
  }

  /** The sizes of the grid blocks, from their parts. */
  lemma GridSizes()
    ensures BlockOf(16) == Some((256, 2 + 2 * 32)) && BlockOf(17) == Some((256, 2 + 2 * 32 + 8))
    ensures BlockOf(18) == Some((256, 2 + 3 * 32)) && BlockOf(19) == Some((256, 2 + 32 + 2 * 8))
    ensures BlockOf(21) == Some((256, 2 + 64 + 8 + 32 + 4)) && BlockOf(22) == Some((256, 2 + 64 + 8 + 8))
    ensures BlockOf(23) == Some((256, 2 + 2 + 4 + 128)) && BlockOf(29) == Some((256, 32 + 16 + 8))
  {
  }

  /** No other tag is known. */
  lemma UnknownTypes(tag: nat)
    requires tag == 4 || tag == 5 || tag == 9 || tag == 15 || 24 <= tag <= 28 || tag > 30
    ensures BlockOf(tag) == None
  {
  }

  /** The number of elements is the product of the dimensions. */
  lemma {:induction false} ElementsMultiply(a: seq<nat>, b: seq<nat>)
    ensures Elements(a + b) == Elements(a) * Elements(b)
  {
    if a == [] {
      assert a + b == b;
    } else {
      assert (a + b)[1..] == a[1..] + b;
      ElementsMultiply(a[1..], b);
      Regrouped(a[0], Elements(a[1..]), Elements(b));
    }
  }

  lemma Regrouped(x: nat, y: nat, z: nat)
    ensures x * (y * z) == x * y * z
  {
  }

  lemma OneDimension(n: nat)
    ensures Elements([n]) == n && Elements([]) == 1
  {
    assert [n][1..] == [];
  }
}
