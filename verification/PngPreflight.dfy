/**
 The container check of Android screenshots, and the limits on their size.

 The check walks the bytes once, chunk by chunk. It accepts exactly the byte strings that some acceptable
 list of chunks prints to, in the chunk layout of section 5.3 of the W3C PNG Specification (Second Edition).
 */
module PngPreflight {
  import opened Bytes

  const SIGNATURE: seq<byte> := [137, 80, 78, 71, 13, 10, 26, 10]
  const MAX_CHUNKS: nat := 4096
  const INDEXED_COLOUR: byte := 3

  // chunk types, as the big-endian numbers their four letters make
  const IHDR: nat := 0x4948_4452
  const PLTE: nat := 0x504C_5445
  const IDAT: nat := 0x4944_4154
  const IEND: nat := 0x4945_4E44
  const ACTL: nat := 0x6163_544C
  const FCTL: nat := 0x6663_544C
  const FDAT: nat := 0x6664_4154

  // ----- The format -----

  datatype RawChunk = Chunk(kind: nat, data: seq<byte>, crc: nat)

  /** Lengths, types and checksums are 32 bit numbers. */
  type Chunk = c: RawChunk | c.kind < 0x1_0000_0000 && |c.data| < 0x1_0000_0000 && c.crc < 0x1_0000_0000
    witness RawChunk.Chunk(0, [], 0)

  function Width(c: Chunk): nat { |c.data| + 12 }

  function Print(c: Chunk): (s: seq<byte>)
    ensures |s| == Width(c)
  {
    Be32(|c.data|) + Be32(c.kind) + c.data + Be32(c.crc)
  }

  function PrintAll(cs: seq<Chunk>): (s: seq<byte>) {
    if cs == [] then [] else Print(cs[0]) + PrintAll(cs[1..])
  }

  predicate Apng(c: Chunk) { c.kind == ACTL || c.kind == FCTL || c.kind == FDAT }

  predicate Header(c: Chunk) { c.kind == IHDR && |c.data| >= 10 }

  /** The last full header before position i says that pixels are palette indices. */
  predicate Indexed(cs: seq<Chunk>, i: nat)
    requires i <= |cs|
  {
    exists h :: 0 <= h < i && Header(cs[h]) && cs[h].data[9] == INDEXED_COLOUR
      && forall k :: h < k < i ==> !Header(cs[k])
  }

  predicate Palette(cs: seq<Chunk>, i: nat)
    requires i <= |cs|
  {
    exists j :: 0 <= j < i && cs[j].kind == PLTE
  }

  function ImageBytes(cs: seq<Chunk>): nat {
    if cs == [] then 0
    else ImageBytes(cs[..|cs| - 1]) + (if cs[|cs| - 1].kind == IDAT then |cs[|cs| - 1].data| else 0)
  }

  /** What may stand before the end chunk. */
  predicate Plain(cs: seq<Chunk>) {
    && (forall i :: 0 <= i < |cs| ==> cs[i].kind != IEND && !Apng(cs[i]))
    && (forall i :: 0 <= i < |cs| && cs[i].kind == IDAT && Indexed(cs, i) ==> Palette(cs, i))
  }

  /** One end chunk, and it is the last. */
  predicate Acceptable(cs: seq<Chunk>) {
    && 1 <= |cs| <= MAX_CHUNKS && cs[|cs| - 1].kind == IEND
    && Plain(cs[..|cs| - 1]) && ImageBytes(cs[..|cs| - 1]) > 0
  }

  // ----- Reading one chunk -----

  /** The chunk that starts at an offset, if it is all there. */
  function ReadChunk(bytes: seq<byte>, offset: nat): (r: Option<Chunk>)
    requires offset <= |bytes|
    ensures r.Some? ==> offset + Width(r.value) <= |bytes|
  {
    if offset + 8 > |bytes| then None
    else
      var length := ReadBe32(bytes[offset..offset + 4]);
      if offset + 8 + length + 4 > |bytes| then None
      else Some(Chunk(ReadBe32(bytes[offset + 4..offset + 8]), bytes[offset + 8..offset + 8 + length],
                      ReadBe32(bytes[offset + 8 + length..offset + 12 + length])))
  }

  lemma ReadIsPrinted(bytes: seq<byte>, offset: nat)
    requires offset <= |bytes| && ReadChunk(bytes, offset).Some?
    ensures var c := ReadChunk(bytes, offset).value; bytes[offset..offset + Width(c)] == Print(c)
  {
    var length := ReadBe32(bytes[offset..offset + 4]);
    Be32RoundTrip(length, bytes[offset..offset + 4]);
    Be32RoundTrip(length, bytes[offset + 4..offset + 8]);
    Be32RoundTrip(length, bytes[offset + 8 + length..offset + 12 + length]);
    Rejoin(bytes, offset, offset + 4, offset + 8, offset + 8 + length, offset + 12 + length);
  }

  lemma PrintedIsRead(bytes: seq<byte>, offset: nat, c: Chunk)
    requires offset + Width(c) <= |bytes| && bytes[offset..offset + Width(c)] == Print(c)
    ensures ReadChunk(bytes, offset) == Some(c)
  {
    var n := |c.data|;
    var end := offset + Width(c);
    FourParts(Be32(n), Be32(c.kind), c.data, Be32(c.crc));
    SliceOfSlice(bytes, offset, end, 0, 4);
    SliceOfSlice(bytes, offset, end, 4, 8);
    SliceOfSlice(bytes, offset, end, 8, 8 + n);
    SliceOfSlice(bytes, offset, end, 8 + n, 12 + n);
    Be32RoundTrip(n, Be32(n));
    Be32RoundTrip(c.kind, Be32(n));
    Be32RoundTrip(c.crc, Be32(n));
  }

  // ----- Lists of chunks -----

  /** Bytes cut into chunks; the last one may be cut short. */
  datatype Parsed = Nil | Cut | More(c: Chunk, rest: Parsed)

  function Parse(bytes: seq<byte>, offset: nat): Parsed
    requires offset <= |bytes|
    decreases |bytes| - offset
  {
    if offset == |bytes| then Nil
    else
      var r := ReadChunk(bytes, offset);
      if r.None? then Cut else More(r.value, Parse(bytes, offset + Width(r.value)))
  }

  function Listed(cs: seq<Chunk>): Parsed {
    if cs == [] then Nil else More(cs[0], Listed(cs[1..]))
  }

  lemma ReadAt(a: seq<byte>, c: Chunk, b: seq<byte>)
    ensures ReadChunk(a + Print(c) + b, |a|) == Some(c)
  {
    var bytes := a + Print(c) + b;
    assert bytes[|a|..|a| + Width(c)] == Print(c);
    PrintedIsRead(bytes, |a|, c);
  }

  lemma PrintedNext(a: seq<byte>, cs: seq<Chunk>)
    requires cs != []
    ensures a + PrintAll(cs) == (a + Print(cs[0])) + PrintAll(cs[1..])
    ensures ReadChunk(a + PrintAll(cs), |a|) == Some(cs[0])
  {
    Associates(a, Print(cs[0]), PrintAll(cs[1..]));
    ReadAt(a, cs[0], PrintAll(cs[1..]));
  }

  /** Printing and parsing give the chunks back, so at most one list of chunks prints to given bytes. */
  lemma {:induction false} PrintParses(a: seq<byte>, cs: seq<Chunk>)
    ensures Parse(a + PrintAll(cs), |a|) == Listed(cs)
    decreases |cs|
  {
    hide ReadChunk, Print;
    if cs != [] {
      PrintedNext(a, cs);
      PrintParses(a + Print(cs[0]), cs[1..]);
    }
  }

  /** Bytes that parse without a cut are the print of what was parsed. */
  lemma {:induction false} ParsePrints(bytes: seq<byte>, offset: nat, cs: seq<Chunk>)
    requires offset <= |bytes| && Parse(bytes, offset) == Listed(cs)
    ensures bytes[offset..] == PrintAll(cs)
    decreases |cs|
  {
    hide ReadChunk, Print;
    if cs != [] {
      ReadIsPrinted(bytes, offset);
      var end := offset + Width(cs[0]);
      ParsePrints(bytes, end, cs[1..]);
      assert bytes[offset..] == bytes[offset..end] + bytes[end..];
    }
  }

  // ----- Judging chunks one by one -----

  /** What the walk remembers of the chunks behind it. */
  datatype Memory = Memory(count: nat, indexed: bool, palette: bool, image: nat)

  datatype Refusal =
    | NoSignature | TooManyChunks | Truncated | Animated | PaletteMissing | BytesAfterEnd | NoImageData | NoEnd

  function Remember(m: Memory, c: Chunk): Memory {
    if Header(c) then m.(count := m.count + 1, indexed := c.data[9] == INDEXED_COLOUR)
    else if c.kind == PLTE then m.(count := m.count + 1, palette := true)
    else if c.kind == IDAT then m.(count := m.count + 1, image := m.image + |c.data|)
    else m.(count := m.count + 1)
  }

  /** What is wrong with one chunk that is not the end. */
  function Objection(m: Memory, c: Chunk): Option<Refusal> {
    if Apng(c) then Some(Animated)
    else if c.kind == IDAT && m.indexed && !m.palette then Some(PaletteMissing)
    else None
  }

  function Judge(p: Parsed, m: Memory): Option<Refusal> {
    if p.Nil? then Some(NoEnd)
    else if m.count + 1 > MAX_CHUNKS then Some(TooManyChunks)
    else if p.Cut? then Some(Truncated)
    else if Objection(m, p.c).Some? then Objection(m, p.c)
    else if p.c.kind != IEND then Judge(p.rest, Remember(m, p.c))
    else if !p.rest.Nil? then Some(BytesAfterEnd)
    else if m.image == 0 then Some(NoImageData)
    else None
  }

  /** What is accepted was not cut. */
  lemma {:induction false} AcceptedIsWhole(p: Parsed, m: Memory) returns (cs: seq<Chunk>)
    requires Judge(p, m).None?
    ensures p == Listed(cs)
    decreases p
  {
    if p.c.kind == IEND {
      cs := [p.c];
    } else {
      cs := AcceptedIsWhole(p.rest, Remember(m, p.c));
      cs := [p.c] + cs;
    }
  }

  // ----- What the judgement means -----

  predicate Remembers(cs: seq<Chunk>, m: Memory) {
    && m.count == |cs| && m.indexed == Indexed(cs, |cs|)
    && m.palette == Palette(cs, |cs|) && m.image == ImageBytes(cs)
  }

  lemma IndexedStep(cs: seq<Chunk>, c: Chunk)
    ensures Indexed(cs + [c], |cs| + 1) <==>
      if Header(c) then c.data[9] == INDEXED_COLOUR else Indexed(cs, |cs|)
  {
    var ds := cs + [c];
    assert forall k :: 0 <= k < |cs| ==> ds[k] == cs[k];
    assert ds[|cs|] == c;
    if Indexed(ds, |ds|) {
      var h :| 0 <= h < |ds| && Header(ds[h]) && ds[h].data[9] == INDEXED_COLOUR
        && forall k :: h < k < |ds| ==> !Header(ds[k]);
      assert Header(c) ==> h == |cs|;
    }
  }

  lemma CountsStep(cs: seq<Chunk>, c: Chunk)
    ensures Palette(cs + [c], |cs| + 1) <==> Palette(cs, |cs|) || c.kind == PLTE
    ensures ImageBytes(cs + [c]) == ImageBytes(cs) + (if c.kind == IDAT then |c.data| else 0)
  {
    var ds := cs + [c];
    assert ds[..|cs|] == cs;
    assert forall k :: 0 <= k < |cs| ==> ds[k] == cs[k];
    assert ds[|cs|] == c;
  }

  lemma RememberStep(cs: seq<Chunk>, c: Chunk, m: Memory)
    requires Remembers(cs, m)
    ensures Remembers(cs + [c], Remember(m, c))
  {
    IndexedStep(cs, c);
    CountsStep(cs, c);
  }

  lemma SamePrefix(cs: seq<Chunk>, ds: seq<Chunk>, i: nat)
    requires cs <= ds && i <= |cs|
    ensures Indexed(ds, i) == Indexed(cs, i) && Palette(ds, i) == Palette(cs, i)
  {
    assert forall k :: 0 <= k < |cs| ==> cs[k] == ds[k];
  }

  lemma PlainStep(cs: seq<Chunk>, c: Chunk, m: Memory)
    requires Plain(cs) && Remembers(cs, m)
    ensures Plain(cs + [c]) <==> c.kind != IEND && Objection(m, c).None?
  {
    var ds := cs + [c];
    forall i | 0 <= i <= |cs| ensures Indexed(ds, i) == Indexed(cs, i) && Palette(ds, i) == Palette(cs, i) {
      SamePrefix(cs, ds, i);
    }
    assert ds[|cs|] == c;
    assert forall i :: 0 <= i < |cs| ==> ds[i] == cs[i];
  }

  lemma PlainPrefix(cs: seq<Chunk>, n: nat)
    requires Plain(cs) && n <= |cs|
    ensures Plain(cs[..n])
  {
    forall i | 0 <= i < n ensures Indexed(cs[..n], i) == Indexed(cs, i) && Palette(cs[..n], i) == Palette(cs, i) {
      SamePrefix(cs[..n], cs, i);
    }
    assert forall i :: 0 <= i < n ==> cs[..n][i] == cs[i];
  }

  /** An acceptable list that starts with `pre` and is longer than `pre + [c]` has `pre + [c]` plain. */
  lemma MustBePlain(pre: seq<Chunk>, cs: seq<Chunk>)
    requires |cs| > 1 && Acceptable(pre + cs)
    ensures Plain(pre + [cs[0]])
  {
    var all := pre + cs;
    var n := |pre| + 1;
    PlainPrefix(all[..|all| - 1], n);
    assert all[..|all| - 1][..n] == pre + [cs[0]];
  }

  lemma JudgeLast(pre: seq<Chunk>, c: Chunk, m: Memory)
    requires Plain(pre) && Remembers(pre, m)
    ensures Judge(More(c, Nil), m).None? <==> Acceptable(pre + [c])
  {
    hide Indexed, Palette, ImageBytes, Plain;
    assert (pre + [c])[..|pre|] == pre && (pre + [c])[|pre|] == c;
    assert Judge(Nil, Remember(m, c)).Some?;
  }

  lemma LongIsRefused(cs: seq<Chunk>)
    requires |cs| > MAX_CHUNKS
    ensures !Acceptable(cs)
  {
  }

  /** Judging the rest of a list, with its plain beginning remembered, decides whether the list is acceptable. */
  lemma {:induction false} JudgeDecides(pre: seq<Chunk>, cs: seq<Chunk>, m: Memory)
    requires Plain(pre) && Remembers(pre, m)
    ensures Judge(Listed(cs), m).None? <==> Acceptable(pre + cs)
    decreases |cs|
  {
    hide Indexed, Palette, ImageBytes, Acceptable, Plain;
    if cs == [] {
      NotPlainAtEnd(pre);
      assert pre + cs == pre;
    } else if |cs| == 1 {
      JudgeLast(pre, cs[0], m);
      assert cs == [cs[0]] && Listed(cs[1..]) == Nil;
    } else {
      var c := cs[0];
      PlainStep(pre, c, m);
      if m.count + 1 > MAX_CHUNKS {
        LongIsRefused(pre + cs);
      } else if c.kind == IEND || Objection(m, c).Some? {
        if Acceptable(pre + cs) {
          MustBePlain(pre, cs);
        }
        assert Listed(cs[1..]).More?;
      } else {
        RememberStep(pre, c, m);
        assert pre + cs == (pre + [c]) + cs[1..];
        JudgeDecides(pre + [c], cs[1..], Remember(m, c));
      }
    }
  }

  lemma NotPlainAtEnd(cs: seq<Chunk>)
    ensures !(Plain(cs) && Acceptable(cs))
  {
    if cs != [] {
      assert Plain(cs) ==> cs[|cs| - 1].kind != IEND;
    }
  }

  // ----- The check -----

  ghost predicate PrintsTo(cs: seq<Chunk>, bytes: seq<byte>) {
    Acceptable(cs) && bytes == SIGNATURE + PrintAll(cs)
  }

  const START := Memory(0, false, false, 0)

  lemma StartRemembers()
    ensures Plain([]) && Remembers([], START)
  {
  }

  /** The judgement accepts exactly the printed forms of acceptable lists. */
  lemma JudgeAccepts(bytes: seq<byte>)
    requires SIGNATURE <= bytes
    ensures Judge(Parse(bytes, |SIGNATURE|), START).None? <==> exists cs :: PrintsTo(cs, bytes)
  {
    hide Judge, Parse, Acceptable, PrintAll, Plain, Remembers;
    StartRemembers();
    if Judge(Parse(bytes, |SIGNATURE|), START).None? {
      var cs := AcceptedIsWhole(Parse(bytes, |SIGNATURE|), START);
      ParsePrints(bytes, |SIGNATURE|, cs);
      JudgeDecides([], cs, START);
      assert [] + cs == cs;
      assert PrintsTo(cs, bytes);
    }
    forall cs | PrintsTo(cs, bytes) ensures Judge(Parse(bytes, |SIGNATURE|), START).None? {
      PrintParses(SIGNATURE, cs);
      JudgeDecides([], cs, START);
      assert [] + cs == cs;
    }
  }

  lemma {:induction false} ListedIsInjective(cs: seq<Chunk>, ds: seq<Chunk>)
    requires Listed(cs) == Listed(ds)
    ensures cs == ds
  {
    if cs != [] {
      ListedIsInjective(cs[1..], ds[1..]);
    }
  }

  /** An accepted container has one reading. */
  lemma OneReading(bytes: seq<byte>, cs: seq<Chunk>, ds: seq<Chunk>)
    requires PrintsTo(cs, bytes) && PrintsTo(ds, bytes)
    ensures cs == ds
  {
    PrintParses(SIGNATURE, cs);
    PrintParses(SIGNATURE, ds);
    ListedIsInjective(cs, ds);
  }

  const ISIZE_MAX: int := 0x7FFF_FFFF_FFFF_FFFF
  const USIZE_MAX: int := 0xFFFF_FFFF_FFFF_FFFF

  /**
   Cuts out the next chunk. The overflow checks of the 64 bit offsets cannot fail, because no slice is longer
   than `ISIZE_MAX`.
   */
  method NextChunk(bytes: seq<byte>, offset: nat) returns (r: Option<Chunk>)
    requires offset <= |bytes|
    ensures r == ReadChunk(bytes, offset)
  {
    var headerEnd := offset + 8;
    assert |bytes| <= ISIZE_MAX ==> headerEnd <= USIZE_MAX;
    if headerEnd > |bytes| {
      return None;
    }
    var length := ReadBe32(bytes[offset..offset + 4]);
    var kind := ReadBe32(bytes[offset + 4..headerEnd]);
    var chunkEnd := headerEnd + length + 4;
    assert |bytes| <= ISIZE_MAX ==> chunkEnd <= USIZE_MAX;
    if chunkEnd > |bytes| {
      return None;
    }
    return Some(Chunk(kind, bytes[headerEnd..headerEnd + length], ReadBe32(bytes[headerEnd + length..chunkEnd])));
  }

  method Preflight(bytes: seq<byte>) returns (refusal: Option<Refusal>)
    ensures refusal.None? <==> exists cs :: PrintsTo(cs, bytes)
    ensures refusal == if SIGNATURE <= bytes then Judge(Parse(bytes, |SIGNATURE|), START) else Some(NoSignature)
  {
    if |bytes| < |SIGNATURE| || bytes[..|SIGNATURE|] != SIGNATURE {
      assert forall cs :: PrintsTo(cs, bytes) ==> SIGNATURE <= bytes;
      return Some(NoSignature);
    }
    JudgeAccepts(bytes);
    refusal := PreflightChunks(bytes);
  }

  method PreflightChunks(bytes: seq<byte>) returns (refusal: Option<Refusal>)
    requires SIGNATURE <= bytes
    ensures refusal == Judge(Parse(bytes, |SIGNATURE|), START)
  {
    hide ReadChunk, Print;
    var offset := |SIGNATURE|;
    var indexed, seenPlte := false, false;
    var idatBytes, chunkCount := 0, 0;
    while offset < |bytes|
      invariant |SIGNATURE| <= offset <= |bytes| && 0 <= idatBytes <= offset
      invariant Judge(Parse(bytes, offset), Memory(chunkCount, indexed, seenPlte, idatBytes))
        == Judge(Parse(bytes, |SIGNATURE|), START)
    {
      chunkCount := chunkCount + 1;
      if chunkCount > MAX_CHUNKS {
        return Some(TooManyChunks);
      }
      var chunk := NextChunk(bytes, offset);
      if chunk.None? {
        return Some(Truncated);
      }
      var kind, data := chunk.value.kind, chunk.value.data;
      if kind == ACTL || kind == FCTL || kind == FDAT {
        return Some(Animated);
      }
      if kind == IHDR && |data| >= 10 {
        indexed := data[9] == INDEXED_COLOUR;
      } else if kind == PLTE {
        seenPlte := true;
      } else if kind == IDAT {
        if indexed && !seenPlte {
          return Some(PaletteMissing);
        }
        assert |bytes| <= ISIZE_MAX ==> idatBytes + |data| <= USIZE_MAX;
        idatBytes := idatBytes + |data|;
      }
      offset := offset + Width(chunk.value);
      if kind == IEND {
        if offset != |bytes| {
          return Some(BytesAfterEnd);
        }
        if idatBytes == 0 {
          return Some(NoImageData);
        }
        return None;
      }
    }
    return Some(NoEnd);
  }

  // ----- Size limits -----

  const MAX_DIMENSION: nat := 16_384
  const MAX_PIXELS: nat := 33_554_432
  const MAX_FRAME_BYTES: nat := 134_217_728
  const U64_MAX: int := 0xFFFF_FFFF_FFFF_FFFF

  datatype ColorType = Grayscale | Rgb | IndexedColor | GrayscaleAlpha | Rgba
  datatype BitDepth = One | Two | Four | Eight | Sixteen

  function Samples(c: ColorType): nat {
    match c case Grayscale | IndexedColor => 1 case GrayscaleAlpha => 2 case Rgb => 3 case Rgba => 4
  }

  function Bits(d: BitDepth): nat {
    match d case One => 1 case Two => 2 case Four => 4 case Eight => 8 case Sixteen => 16
  }

  lemma Monotone(a: nat, b: nat, c: nat, d: nat)
    requires a <= c && b <= d
    ensures a * b <= c * d
  {
    assert a * b <= c * b <= c * d;
  }

  function RowBytes(width: nat, bits: nat): nat { (width * bits + 7) / 8 }

  /** A pixel of at most 32 bits needs no more than four bytes of its row. */
  lemma SmallPixels(width: nat, height: nat, bits: nat)
    requires 1 <= width && bits <= 32 && width * height <= MAX_PIXELS
    ensures RowBytes(width, bits) * height <= MAX_FRAME_BYTES
  {
    Monotone(width, bits, width, 32);
    Monotone(RowBytes(width, bits), height, 4 * width, height);
    assert 4 * width * height == 4 * (width * height);
  }

  lemma WholeBytes(width: nat, bits: nat)
    requires bits % 8 == 0
    ensures RowBytes(width, bits) == bits / 8 * width
  {
    var k := bits / 8;
    assert width * bits == 8 * (k * width);
    assert (8 * (k * width) + 7) / 8 == k * width;
  }

  /** None of the 64 bit products overflows once the dimensions are within their limit. */
  lemma NoOverflow(width: nat, height: nat, samples: nat, depth: nat)
    requires width <= MAX_DIMENSION && height <= MAX_DIMENSION && samples * depth <= 64
    ensures width * height <= U64_MAX && width * samples * depth == width * (samples * depth) <= U64_MAX - 7
    ensures RowBytes(width, samples * depth) * height <= U64_MAX
  {
    Monotone(width, height, MAX_DIMENSION, MAX_DIMENSION);
    Monotone(width, samples * depth, MAX_DIMENSION, 64);
    Monotone(RowBytes(width, samples * depth), height, 8 * MAX_DIMENSION + 1, MAX_DIMENSION);
  }

  function PixelBits(color: ColorType, depth: BitDepth): (bits: nat)
    ensures bits <= 64 && (bits > 32 ==> bits % 8 == 0)
  {
    Samples(color) * Bits(depth)
  }

  /**
   Accepts by dimensions and pixel count alone, except that pixels of more than 32 bits (16 bit samples in
   colour) must also fit the frame budget.
   */
  method CheckLimits(width: nat, height: nat, color: ColorType, depth: BitDepth) returns (ok: bool)
    requires width < 0x1_0000_0000 && height < 0x1_0000_0000
    ensures ok <==>
      && 1 <= width <= MAX_DIMENSION && 1 <= height <= MAX_DIMENSION && width * height <= MAX_PIXELS
      && (PixelBits(color, depth) > 32 ==> PixelBits(color, depth) / 8 * width * height <= MAX_FRAME_BYTES)
  {
    if width == 0 || height == 0 || width > MAX_DIMENSION || height > MAX_DIMENSION {
      return false;
    }
    ghost var bits := PixelBits(color, depth);
    NoOverflow(width, height, Samples(color), Bits(depth));
    if width * height > MAX_PIXELS {
      return false;
    }
    var rowBits := width * Samples(color) * Bits(depth);
    var rowBytes := (rowBits + 7) / 8;
    assert rowBytes == RowBytes(width, bits);
    if bits <= 32 {
      SmallPixels(width, height, bits);
    } else {
      WholeBytes(width, bits);
    }
    return rowBytes * height <= MAX_FRAME_BYTES;
  }
}
