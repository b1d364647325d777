/**
 The bounds check of a release archive before a ZIP reader sees it.

 The check reads the end record, then walks the central directory entry by entry and each entry's extra
 data field by field. It accepts exactly the byte strings that are some prefix, followed by the printed
 entries, followed by an end record that describes them (sections 4.3.12, 4.3.16 and 4.5.1 of PKWARE
 APPNOTE.TXT).
 */
module ZipPreflight {
  import opened Bytes

  const MAX_ARCHIVE_BYTES: nat := 536_870_912
  const MAX_ENTRIES: nat := 64
  const MAX_DIRECTORY_BYTES: nat := MAX_ENTRIES * (46 + 240)
  const ZIP64_FIELD: nat := 0x0001
  const MARK_32: nat := 0xFFFF_FFFF
  const MARK_16: nat := 0xFFFF

  const ENTRY_SIGNATURE: seq<byte> := [0x50, 0x4B, 0x01, 0x02]
  const END_SIGNATURE: seq<byte> := [0x50, 0x4B, 0x05, 0x06]

  // ----- Extra fields -----

  datatype RawField = Field(id: nat, data: seq<byte>)

  type Field = f: RawField | f.id < 0x1_0000 && |f.data| < 0x1_0000 witness RawField.Field(0, [])

  function FieldWidth(f: Field): nat { 4 + |f.data| }

  function PrintField(f: Field): (s: seq<byte>)
    ensures |s| == FieldWidth(f)
  {
    Le16(f.id) + Le16(|f.data|) + f.data
  }

  function PrintFields(fs: seq<Field>): seq<byte> {
    if fs == [] then [] else PrintField(fs[0]) + PrintFields(fs[1..])
  }

  /** The extra data is fields end to end, none of them for ZIP64. */
  ghost predicate Tiles(fs: seq<Field>, extra: seq<byte>) {
    PrintFields(fs) == extra && forall f :: f in fs ==> f.id != ZIP64_FIELD
  }

  function ReadField(extra: seq<byte>, offset: nat): (r: Option<Field>)
    requires offset <= |extra|
    ensures r.Some? ==> offset + FieldWidth(r.value) <= |extra|
  {
    if |extra| - offset < 4 then None
    else
      var size := ReadLe16(extra[offset + 2..offset + 4]);
      if size > |extra| - (offset + 4) then None
      else Some(Field(ReadLe16(extra[offset..offset + 2]), extra[offset + 4..offset + 4 + size]))
  }

  lemma FieldIsPrinted(extra: seq<byte>, offset: nat)
    requires offset <= |extra| && ReadField(extra, offset).Some?
    ensures var f := ReadField(extra, offset).value; extra[offset..offset + FieldWidth(f)] == PrintField(f)
  {
    var size := ReadLe16(extra[offset + 2..offset + 4]);
    Le16RoundTrip(0, extra[offset..offset + 2]);
    Le16RoundTrip(0, extra[offset + 2..offset + 4]);
    RejoinThree(extra, offset, offset + 2, offset + 4, offset + 4 + size);
  }

  lemma PrintedFieldIsRead(a: seq<byte>, f: Field, b: seq<byte>)
    ensures ReadField(a + PrintField(f) + b, |a|) == Some(f)
  {
    var extra, n := a + PrintField(f) + b, |a|;
    var end := n + FieldWidth(f);
    assert extra[n..end] == PrintField(f);
    ThreeParts(Le16(f.id), Le16(|f.data|), f.data);
    SliceOfSlice(extra, n, end, 0, 2);
    SliceOfSlice(extra, n, end, 2, 4);
    SliceOfSlice(extra, n, end, 4, 4 + |f.data|);
    Le16RoundTrip(f.id, Le16(f.id));
    Le16RoundTrip(|f.data|, Le16(f.id));
  }

  datatype Fields = NoFields | CutField | MoreFields(f: Field, rest: Fields)

  function ParseFields(extra: seq<byte>, offset: nat): Fields
    requires offset <= |extra|
    decreases |extra| - offset
  {
    if offset == |extra| then NoFields
    else
      var r := ReadField(extra, offset);
      if r.None? then CutField else MoreFields(r.value, ParseFields(extra, offset + FieldWidth(r.value)))
  }

  function ListFields(fs: seq<Field>): Fields {
    if fs == [] then NoFields else MoreFields(fs[0], ListFields(fs[1..]))
  }

  lemma {:induction false} FieldsParse(a: seq<byte>, fs: seq<Field>)
    ensures ParseFields(a + PrintFields(fs), |a|) == ListFields(fs)
    decreases |fs|
  {
    hide ReadField, PrintField;
    if fs != [] {
      Associates(a, PrintField(fs[0]), PrintFields(fs[1..]));
      PrintedFieldIsRead(a, fs[0], PrintFields(fs[1..]));
      FieldsParse(a + PrintField(fs[0]), fs[1..]);
    }
  }

  lemma {:induction false} FieldsPrint(extra: seq<byte>, offset: nat, fs: seq<Field>)
    requires offset <= |extra| && ParseFields(extra, offset) == ListFields(fs)
    ensures extra[offset..] == PrintFields(fs)
    decreases |fs|
  {
    hide ReadField, PrintField;
    if fs != [] {
      FieldIsPrinted(extra, offset);
      var end := offset + FieldWidth(fs[0]);
      FieldsPrint(extra, end, fs[1..]);
      assert extra[offset..] == extra[offset..end] + extra[end..];
    }
  }

  datatype ExtraVerdict = Clean | Zip64 | Malformed

  function JudgeFields(p: Fields): ExtraVerdict {
    match p
    case NoFields => Clean
    case CutField => Malformed
    case MoreFields(f, rest) => if f.id == ZIP64_FIELD then Zip64 else JudgeFields(rest)
  }

  lemma {:induction false} CleanIsList(p: Fields) returns (fs: seq<Field>)
    requires JudgeFields(p).Clean?
    ensures p == ListFields(fs)
    decreases p
  {
    if p.NoFields? {
      fs := [];
    } else {
      fs := CleanIsList(p.rest);
      fs := [p.f] + fs;
    }
  }

  lemma {:induction false} ListIsClean(fs: seq<Field>)
    ensures JudgeFields(ListFields(fs)).Clean? <==> forall f :: f in fs ==> f.id != ZIP64_FIELD
  {
    if fs != [] {
      ListIsClean(fs[1..]);
      assert forall f :: f in fs <==> f == fs[0] || f in fs[1..];
    }
  }

  lemma CleanMeansTiled(extra: seq<byte>)
    ensures JudgeFields(ParseFields(extra, 0)).Clean? <==> exists fs :: Tiles(fs, extra)
  {
    hide ParseFields, JudgeFields, ListFields, PrintFields;
    if JudgeFields(ParseFields(extra, 0)).Clean? {
      var fs := CleanIsList(ParseFields(extra, 0));
      FieldsPrint(extra, 0, fs);
      ListIsClean(fs);
      assert Tiles(fs, extra);
    }
    forall fs | Tiles(fs, extra) ensures JudgeFields(ParseFields(extra, 0)).Clean? {
      FieldsParse([], fs);
      assert [] + PrintFields(fs) == extra;
      ListIsClean(fs);
    }
  }

  method CheckExtra(extra: seq<byte>) returns (v: ExtraVerdict)
    ensures v.Clean? <==> exists fs :: Tiles(fs, extra)
    ensures v == JudgeFields(ParseFields(extra, 0))
  {
    hide PrintFields;
    CleanMeansTiled(extra);
    var offset := 0;
    while offset < |extra|
      invariant 0 <= offset <= |extra| && JudgeFields(ParseFields(extra, offset)) == JudgeFields(ParseFields(extra, 0))
    {
      if |extra| - offset < 4 {
        return Malformed;
      }
      var id := ReadLe16(extra[offset..offset + 2]);
      var size := ReadLe16(extra[offset + 2..offset + 4]);
      offset := offset + 4;
      if size > |extra| - offset {
        return Malformed;
      }
      if id == ZIP64_FIELD {
        return Zip64;
      }
      offset := offset + size;
    }
    return Clean;
  }

  // ----- Central-directory entries -----

  datatype RawEntry = Entry(
    head: seq<byte>, compressed: nat, uncompressed: nat, disk: nat, attributes: seq<byte>, local: nat,
    name: seq<byte>, extra: seq<byte>, comment: seq<byte>)

  type Entry = e: RawEntry |
    && |e.head| == 16 && |e.attributes| == 6 && e.disk < 0x1_0000
    && e.compressed < 0x1_0000_0000 && e.uncompressed < 0x1_0000_0000 && e.local < 0x1_0000_0000
    && |e.name| < 0x1_0000 && |e.extra| < 0x1_0000 && |e.comment| < 0x1_0000
    witness RawEntry.Entry(seq(16, _ => 0), 0, 0, 0, seq(6, _ => 0), 0, [], [], [])

  function EntryWidth(e: Entry): nat { 46 + |e.name| + |e.extra| + |e.comment| }

  function Sizes(e: Entry): (s: seq<byte>)
    ensures |s| == 28
  {
    ENTRY_SIGNATURE + e.head + Le32(e.compressed) + Le32(e.uncompressed)
  }

  function Lengths(e: Entry): (s: seq<byte>)
    ensures |s| == 8
  {
    Le16(|e.name|) + Le16(|e.extra|) + Le16(|e.comment|) + Le16(e.disk)
  }

  function Place(e: Entry): (s: seq<byte>)
    ensures |s| == 10
  {
    e.attributes + Le32(e.local)
  }

  function Tail(e: Entry): (s: seq<byte>)
    ensures |s| == EntryWidth(e) - 46
  {
    e.name + e.extra + e.comment
  }

  function PrintEntry(e: Entry): (s: seq<byte>)
    ensures |s| == EntryWidth(e)
  {
    Sizes(e) + Lengths(e) + Place(e) + Tail(e)
  }

  function PrintEntries(es: seq<Entry>): seq<byte> {
    if es == [] then [] else PrintEntry(es[0]) + PrintEntries(es[1..])
  }

  /** The entry at an offset of the directory, when its signature is there and all of it fits. */
  function ReadEntry(central: seq<byte>, o: nat): (r: Option<Entry>)
    requires o <= |central|
    ensures r.Some? ==> o + EntryWidth(r.value) <= |central|
  {
    if |central| - o < 46 || central[o..o + 4] != ENTRY_SIGNATURE then None
    else
      var n := ReadLe16(central[o + 28..o + 30]);
      var x := ReadLe16(central[o + 30..o + 32]);
      var k := ReadLe16(central[o + 32..o + 34]);
      if 46 + n + x + k > |central| - o then None
      else Some(Entry(
        central[o + 4..o + 20], ReadLe32(central[o + 20..o + 24]), ReadLe32(central[o + 24..o + 28]),
        ReadLe16(central[o + 34..o + 36]), central[o + 36..o + 42], ReadLe32(central[o + 42..o + 46]),
        central[o + 46..o + 46 + n], central[o + 46 + n..o + 46 + n + x], central[o + 46 + n + x..o + 46 + n + x + k]))
  }

  lemma SizesPrinted(central: seq<byte>, o: nat)
    requires o <= |central| && ReadEntry(central, o).Some?
    ensures central[o..o + 28] == Sizes(ReadEntry(central, o).value)
  {
    hide Le32, ReadLe32, ReadLe16;
    Le32RoundTrip(0, central[o + 20..o + 24]);
    Le32RoundTrip(0, central[o + 24..o + 28]);
    Rejoin(central, o, o + 4, o + 20, o + 24, o + 28);
  }

  lemma LengthsPrinted(central: seq<byte>, o: nat)
    requires o <= |central| && ReadEntry(central, o).Some?
    ensures central[o + 28..o + 36] == Lengths(ReadEntry(central, o).value)
  {
    hide Le16, ReadLe32, ReadLe16;
    Le16RoundTrip(0, central[o + 28..o + 30]);
    Le16RoundTrip(0, central[o + 30..o + 32]);
    Le16RoundTrip(0, central[o + 32..o + 34]);
    Le16RoundTrip(0, central[o + 34..o + 36]);
    Rejoin(central, o + 28, o + 30, o + 32, o + 34, o + 36);
  }

  lemma PlacePrinted(central: seq<byte>, o: nat)
    requires o <= |central| && ReadEntry(central, o).Some?
    ensures central[o + 36..o + 46] == Place(ReadEntry(central, o).value)
  {
    hide Le32, ReadLe32, ReadLe16;
    Le32RoundTrip(0, central[o + 42..o + 46]);
    RejoinTwo(central, o + 36, o + 42, o + 46);
  }

  lemma TailPrinted(central: seq<byte>, o: nat)
    requires o <= |central| && ReadEntry(central, o).Some?
    ensures var e := ReadEntry(central, o).value; central[o + 46..o + EntryWidth(e)] == Tail(e)
  {
    hide ReadLe32, ReadLe16;
    var e := ReadEntry(central, o).value;
    var a, b, c := o + 46, o + 46 + |e.name|, o + 46 + |e.name| + |e.extra|;
    RejoinThree(central, a, b, c, c + |e.comment|);
  }

  lemma EntryIsPrinted(central: seq<byte>, o: nat)
    requires o <= |central| && ReadEntry(central, o).Some?
    ensures var e := ReadEntry(central, o).value; central[o..o + EntryWidth(e)] == PrintEntry(e)
  {
    hide ReadEntry, Sizes, Lengths, Place, Tail;
    var e := ReadEntry(central, o).value;
    SizesPrinted(central, o);
    LengthsPrinted(central, o);
    PlacePrinted(central, o);
    TailPrinted(central, o);
    Rejoin(central, o, o + 28, o + 36, o + 46, o + EntryWidth(e));
  }

  /** The four pieces of a printed entry stand at their places. */
  lemma PiecesStand(a: seq<byte>, e: Entry, b: seq<byte>)
    ensures var s := a + PrintEntry(e) + b; var o := |a|;
      && s[o..o + 28] == Sizes(e) && s[o + 28..o + 36] == Lengths(e)
      && s[o + 36..o + 46] == Place(e) && s[o + 46..o + EntryWidth(e)] == Tail(e)
  {
    hide Sizes, Lengths, Place, Tail;
    var s, o := a + PrintEntry(e) + b, |a|;
    var end := o + EntryWidth(e);
    assert s[o..end] == PrintEntry(e);
    FourParts(Sizes(e), Lengths(e), Place(e), Tail(e));
    SliceOfSlice(s, o, end, 0, 28);
    SliceOfSlice(s, o, end, 28, 36);
    SliceOfSlice(s, o, end, 36, 46);
    SliceOfSlice(s, o, end, 46, EntryWidth(e));
  }

  lemma SizesRead(s: seq<byte>, o: nat, e: Entry)
    requires o + 28 <= |s| && s[o..o + 28] == Sizes(e)
    ensures s[o..o + 4] == ENTRY_SIGNATURE && s[o + 4..o + 20] == e.head
    ensures ReadLe32(s[o + 20..o + 24]) == e.compressed && ReadLe32(s[o + 24..o + 28]) == e.uncompressed
  {
    hide Le32, ReadLe32;
    FourParts(ENTRY_SIGNATURE, e.head, Le32(e.compressed), Le32(e.uncompressed));
    SliceOfSlice(s, o, o + 28, 0, 4);
    SliceOfSlice(s, o, o + 28, 4, 20);
    SliceOfSlice(s, o, o + 28, 20, 24);
    SliceOfSlice(s, o, o + 28, 24, 28);
    Le32RoundTrip(e.compressed, ENTRY_SIGNATURE);
    Le32RoundTrip(e.uncompressed, ENTRY_SIGNATURE);
  }

  lemma LengthsRead(s: seq<byte>, o: nat, e: Entry)
    requires o + 36 <= |s| && s[o + 28..o + 36] == Lengths(e)
    ensures ReadLe16(s[o + 28..o + 30]) == |e.name| && ReadLe16(s[o + 30..o + 32]) == |e.extra|
    ensures ReadLe16(s[o + 32..o + 34]) == |e.comment| && ReadLe16(s[o + 34..o + 36]) == e.disk
  {
    hide Le16, ReadLe16;
    FourParts(Le16(|e.name|), Le16(|e.extra|), Le16(|e.comment|), Le16(e.disk));
    SliceOfSlice(s, o + 28, o + 36, 0, 2);
    SliceOfSlice(s, o + 28, o + 36, 2, 4);
    SliceOfSlice(s, o + 28, o + 36, 4, 6);
    SliceOfSlice(s, o + 28, o + 36, 6, 8);
    Le16RoundTrip(|e.name|, [0, 0]);
    Le16RoundTrip(|e.extra|, [0, 0]);
    Le16RoundTrip(|e.comment|, [0, 0]);
    Le16RoundTrip(e.disk, [0, 0]);
  }

  lemma RestRead(s: seq<byte>, o: nat, e: Entry)
    requires o + EntryWidth(e) <= |s| && s[o + 36..o + 46] == Place(e) && s[o + 46..o + EntryWidth(e)] == Tail(e)
    ensures s[o + 36..o + 42] == e.attributes && ReadLe32(s[o + 42..o + 46]) == e.local
    ensures var n, x := |e.name|, |e.extra|;
      && s[o + 46..o + 46 + n] == e.name && s[o + 46 + n..o + 46 + n + x] == e.extra
      && s[o + 46 + n + x..o + 46 + n + x + |e.comment|] == e.comment
  {
    hide Le32, ReadLe32;
    TwoParts(e.attributes, Le32(e.local));
    SliceOfSlice(s, o + 36, o + 46, 0, 6);
    SliceOfSlice(s, o + 36, o + 46, 6, 10);
    Le32RoundTrip(e.local, ENTRY_SIGNATURE);
    var end, n, x := o + EntryWidth(e), |e.name|, |e.extra|;
    ThreeParts(e.name, e.extra, e.comment);
    SliceOfSlice(s, o + 46, end, 0, n);
    SliceOfSlice(s, o + 46, end, n, n + x);
    SliceOfSlice(s, o + 46, end, n + x, n + x + |e.comment|);
  }

  lemma PrintedEntryIsRead(a: seq<byte>, e: Entry, b: seq<byte>)
    ensures ReadEntry(a + PrintEntry(e) + b, |a|) == Some(e)
  {
    hide PrintEntry, Sizes, Lengths, Place, Tail, ReadLe16, ReadLe32;
    var s, o := a + PrintEntry(e) + b, |a|;
    PiecesStand(a, e, b);
    SizesRead(s, o, e);
    LengthsRead(s, o, e);
    RestRead(s, o, e);
  }

  // ----- The directory -----

  datatype Entries = NoEntries | BadEntry | MoreEntries(e: Entry, rest: Entries)

  function ParseEntries(central: seq<byte>, o: nat): Entries
    requires o <= |central|
    decreases |central| - o
  {
    if o == |central| then NoEntries
    else
      var r := ReadEntry(central, o);
      if r.None? then BadEntry else MoreEntries(r.value, ParseEntries(central, o + EntryWidth(r.value)))
  }

  function ListEntries(es: seq<Entry>): Entries {
    if es == [] then NoEntries else MoreEntries(es[0], ListEntries(es[1..]))
  }

  lemma {:induction false} EntriesParse(a: seq<byte>, es: seq<Entry>)
    ensures ParseEntries(a + PrintEntries(es), |a|) == ListEntries(es)
    decreases |es|
  {
    hide ReadEntry, PrintEntry;
    if es != [] {
      Associates(a, PrintEntry(es[0]), PrintEntries(es[1..]));
      PrintedEntryIsRead(a, es[0], PrintEntries(es[1..]));
      EntriesParse(a + PrintEntry(es[0]), es[1..]);
    }
  }

  lemma {:induction false} EntriesPrint(central: seq<byte>, o: nat, es: seq<Entry>)
    requires o <= |central| && ParseEntries(central, o) == ListEntries(es)
    ensures central[o..] == PrintEntries(es)
    decreases |es|
  {
    hide ReadEntry, PrintEntry;
    if es != [] {
      EntryIsPrinted(central, o);
      var end := o + EntryWidth(es[0]);
      EntriesPrint(central, end, es[1..]);
      assert central[o..] == central[o..end] + central[end..];
    }
  }

  predicate Marked(e: Entry) {
    e.compressed == MARK_32 || e.uncompressed == MARK_32 || e.disk == MARK_16 || e.local == MARK_32
  }

  /** No ZIP64 marker in the entry or its extra data, and extra data that tiles. */
  ghost predicate Allowed(e: Entry) {
    !Marked(e) && exists fs :: Tiles(fs, e.extra)
  }

  datatype Reason =
    | BadSize | NoEndRecord | HasComment | MultiDisk | HasZip64 | TooManyEntries | DirectoryTooLarge
    | BoundsInconsistent | MalformedEntry | MalformedExtra | CountInconsistent

  datatype Verdict = Accepted(entries: nat) | Refused(reason: Reason)

  function JudgeEntry(e: Entry): Option<Reason> {
    if Marked(e) then Some(HasZip64)
    else
      match JudgeFields(ParseFields(e.extra, 0))
      case Clean => None
      case Zip64 => Some(HasZip64)
      case Malformed => Some(MalformedExtra)
  }

  lemma AllowedIff(e: Entry)
    ensures JudgeEntry(e).None? <==> Allowed(e)
  {
    hide Tiles;
    CleanMeansTiled(e.extra);
  }

  function CountEntries(p: Entries, count: nat): Verdict {
    match p
    case NoEntries => Accepted(count)
    case BadEntry => Refused(MalformedEntry)
    case MoreEntries(e, rest) =>
      if JudgeEntry(e).Some? then Refused(JudgeEntry(e).value)
      else if count + 1 > MAX_ENTRIES then Refused(TooManyEntries)
      else CountEntries(rest, count + 1)
  }

  lemma {:induction false} CountedIsList(p: Entries, count: nat) returns (es: seq<Entry>)
    requires CountEntries(p, count).Accepted?
    ensures p == ListEntries(es)
    decreases p
  {
    hide JudgeEntry;
    if p.NoEntries? {
      es := [];
    } else {
      es := CountedIsList(p.rest, count + 1);
      es := [p.e] + es;
    }
  }

  lemma {:induction false} ListIsCounted(es: seq<Entry>, count: nat)
    requires count <= MAX_ENTRIES
    ensures CountEntries(ListEntries(es), count).Accepted? <==>
      count + |es| <= MAX_ENTRIES && forall e :: e in es ==> Allowed(e)
    ensures CountEntries(ListEntries(es), count).Accepted? ==>
      CountEntries(ListEntries(es), count) == Accepted(count + |es|)
    decreases |es|
  {
    hide JudgeEntry, Allowed;
    if es != [] {
      AllowedIff(es[0]);
      assert forall e :: e in es <==> e == es[0] || e in es[1..];
      if count < MAX_ENTRIES {
        ListIsCounted(es[1..], count + 1);
      }
    }
  }

  /** The directory is the print of n allowed entries, at most 64. */
  ghost predicate Directory(es: seq<Entry>, central: seq<byte>) {
    |es| <= MAX_ENTRIES && PrintEntries(es) == central && forall e :: e in es ==> Allowed(e)
  }

  lemma CountedMeansDirectory(central: seq<byte>, n: nat)
    ensures CountEntries(ParseEntries(central, 0), 0) == Accepted(n) <==>
      exists es :: Directory(es, central) && |es| == n
  {
    hide ParseEntries, CountEntries, ListEntries, PrintEntries, Allowed;
    var v := CountEntries(ParseEntries(central, 0), 0);
    if v == Accepted(n) {
      var es := CountedIsList(ParseEntries(central, 0), 0);
      EntriesPrint(central, 0, es);
      ListIsCounted(es, 0);
      assert Directory(es, central) && |es| == n;
    }
    forall es | Directory(es, central) && |es| == n ensures v == Accepted(n) {
      EntriesParse([], es);
      assert [] + PrintEntries(es) == central;
      ListIsCounted(es, 0);
    }
  }

  /** Unpacks the fixed part of an entry and cuts out its variable part. */
  method NextEntry(central: seq<byte>, offset: nat) returns (r: Option<Entry>)
    requires offset <= |central|
    ensures r == ReadEntry(central, offset)
  {
    hide ReadLe16, ReadLe32;
    if |central| - offset < 46 || central[offset..offset + 4] != ENTRY_SIGNATURE {
      return None;
    }
    var compressed := ReadLe32(central[offset + 20..offset + 24]);
    var uncompressed := ReadLe32(central[offset + 24..offset + 28]);
    var nameLength := ReadLe16(central[offset + 28..offset + 30]);
    var extraLength := ReadLe16(central[offset + 30..offset + 32]);
    var commentLength := ReadLe16(central[offset + 32..offset + 34]);
    var disk := ReadLe16(central[offset + 34..offset + 36]);
    var local := ReadLe32(central[offset + 42..offset + 46]);
    var entrySize := 46 + nameLength + extraLength + commentLength;
    if entrySize > |central| - offset {
      return None;
    }
    var nameStart := offset + 46;
    var extraStart := nameStart + nameLength;
    var commentStart := extraStart + extraLength;
    return Some(Entry(central[offset + 4..offset + 20], compressed, uncompressed, disk,
                      central[offset + 36..offset + 42], local, central[nameStart..extraStart],
                      central[extraStart..commentStart], central[commentStart..commentStart + commentLength]));
  }

  method CheckDirectory(central: seq<byte>) returns (v: Verdict)
    ensures v == CountEntries(ParseEntries(central, 0), 0)
  {
    hide ReadEntry, ParseFields, JudgeFields, Tiles;
    var offset, parsed := 0, 0;
    while offset < |central|
      invariant 0 <= offset <= |central| && 0 <= parsed
      invariant CountEntries(ParseEntries(central, offset), parsed) == CountEntries(ParseEntries(central, 0), 0)
    {
      var entry := NextEntry(central, offset);
      if entry.None? {
        return Refused(MalformedEntry);
      }
      var e := entry.value;
      if e.compressed == MARK_32 || e.uncompressed == MARK_32 || e.disk == MARK_16 || e.local == MARK_32 {
        return Refused(HasZip64);
      }
      var tiled := CheckExtra(e.extra);
      if tiled.Zip64? {
        return Refused(HasZip64);
      } else if tiled.Malformed? {
        return Refused(MalformedExtra);
      }
      parsed := parsed + 1;
      if parsed > MAX_ENTRIES {
        return Refused(TooManyEntries);
      }
      offset := offset + EntryWidth(e);
    }
    return Accepted(parsed);
  }

  // ----- The end record -----

  datatype RawEnd = End(disk: nat, centralDisk: nat, diskEntries: nat, total: nat, size: nat, offset: nat, comment: nat)

  type End = r: RawEnd |
    && r.disk < 0x1_0000 && r.centralDisk < 0x1_0000 && r.diskEntries < 0x1_0000 && r.total < 0x1_0000
    && r.size < 0x1_0000_0000 && r.offset < 0x1_0000_0000 && r.comment < 0x1_0000
    witness RawEnd.End(0, 0, 0, 0, 0, 0, 0)

  function Disks(r: End): (s: seq<byte>)
    ensures |s| == 10
  {
    END_SIGNATURE + Le16(r.disk) + Le16(r.centralDisk) + Le16(r.diskEntries)
  }

  function Totals(r: End): (s: seq<byte>)
    ensures |s| == 12
  {
    Le16(r.total) + Le32(r.size) + Le32(r.offset) + Le16(r.comment)
  }

  function PrintEnd(r: End): (s: seq<byte>)
    ensures |s| == 22
  {
    Disks(r) + Totals(r)
  }

  function ReadEnd(s: seq<byte>): Option<End>
    requires |s| == 22
  {
    if s[..4] != END_SIGNATURE then None
    else Some(End(ReadLe16(s[4..6]), ReadLe16(s[6..8]), ReadLe16(s[8..10]), ReadLe16(s[10..12]),
                  ReadLe32(s[12..16]), ReadLe32(s[16..20]), ReadLe16(s[20..22])))
  }

  lemma EndIsPrinted(s: seq<byte>)
    requires |s| == 22 && ReadEnd(s).Some?
    ensures s == PrintEnd(ReadEnd(s).value)
  {
    hide Le16, Le32, ReadLe16, ReadLe32;
    Le16RoundTrip(0, s[4..6]);
    Le16RoundTrip(0, s[6..8]);
    Le16RoundTrip(0, s[8..10]);
    Le16RoundTrip(0, s[10..12]);
    Le32RoundTrip(0, s[12..16]);
    Le32RoundTrip(0, s[16..20]);
    Le16RoundTrip(0, s[20..22]);
    Rejoin(s, 0, 4, 6, 8, 10);
    Rejoin(s, 10, 12, 16, 20, 22);
    RejoinTwo(s, 0, 10, 22);
  }

  lemma DisksRead(s: seq<byte>, r: End)
    requires |s| == 22 && s[0..10] == Disks(r)
    ensures s[..4] == END_SIGNATURE && ReadLe16(s[4..6]) == r.disk
    ensures ReadLe16(s[6..8]) == r.centralDisk && ReadLe16(s[8..10]) == r.diskEntries
  {
    hide Le16, ReadLe16;
    FourParts(END_SIGNATURE, Le16(r.disk), Le16(r.centralDisk), Le16(r.diskEntries));
    SliceOfSlice(s, 0, 10, 0, 4);
    SliceOfSlice(s, 0, 10, 4, 6);
    SliceOfSlice(s, 0, 10, 6, 8);
    SliceOfSlice(s, 0, 10, 8, 10);
    Le16RoundTrip(r.disk, [0, 0]);
    Le16RoundTrip(r.centralDisk, [0, 0]);
    Le16RoundTrip(r.diskEntries, [0, 0]);
  }

  lemma TotalsRead(s: seq<byte>, r: End)
    requires |s| == 22 && s[10..22] == Totals(r)
    ensures ReadLe16(s[10..12]) == r.total && ReadLe32(s[12..16]) == r.size
    ensures ReadLe32(s[16..20]) == r.offset && ReadLe16(s[20..22]) == r.comment
  {
    hide Le16, Le32, ReadLe16, ReadLe32;
    FourParts(Le16(r.total), Le32(r.size), Le32(r.offset), Le16(r.comment));
    SliceOfSlice(s, 10, 22, 0, 2);
    SliceOfSlice(s, 10, 22, 2, 6);
    SliceOfSlice(s, 10, 22, 6, 10);
    SliceOfSlice(s, 10, 22, 10, 12);
    Le16RoundTrip(r.total, [0, 0]);
    Le32RoundTrip(r.size, END_SIGNATURE);
    Le32RoundTrip(r.offset, END_SIGNATURE);
    Le16RoundTrip(r.comment, [0, 0]);
  }

  lemma PrintedEndIsRead(r: End)
    ensures ReadEnd(PrintEnd(r)) == Some(r)
  {
    hide Disks, Totals, ReadLe16, ReadLe32;
    var s := PrintEnd(r);
    assert s[0..10] == Disks(r) && s[10..22] == Totals(r);
    DisksRead(s, r);
    TotalsRead(s, r);
  }

  // ----- The archive -----

  /** Anything, then the directory of allowed entries, then the end record that describes them. */
  ghost predicate Archive(bytes: seq<byte>, prefix: seq<byte>, es: seq<Entry>) {
    && |bytes| <= MAX_ARCHIVE_BYTES && |prefix| <= MAX_ARCHIVE_BYTES
    && |PrintEntries(es)| <= MAX_DIRECTORY_BYTES && Directory(es, PrintEntries(es))
    && bytes == prefix + PrintEntries(es) + PrintEnd(End(0, 0, |es|, |es|, |PrintEntries(es)|, |prefix|, 0))
  }

  /** What the check demands of the end record of an archive of a given size. */
  function JudgeEnd(r: End, size: nat): Option<Reason> {
    if r.comment != 0 then Some(HasComment)
    else if r.disk != 0 || r.centralDisk != 0 || r.diskEntries != r.total then Some(MultiDisk)
    else if r.total == MARK_16 || r.size == MARK_32 || r.offset == MARK_32 then Some(HasZip64)
    else if r.total > MAX_ENTRIES then Some(TooManyEntries)
    else if r.size > MAX_DIRECTORY_BYTES then Some(DirectoryTooLarge)
    else if r.offset + r.size != size - 22 then Some(BoundsInconsistent)
    else None
  }

  /** The whole check as one expression. */
  function Judge(bytes: seq<byte>): Verdict {
    var size := |bytes|;
    if size < 22 || size > MAX_ARCHIVE_BYTES then Refused(BadSize)
    else
      var end := ReadEnd(bytes[size - 22..]);
      if end.None? then Refused(NoEndRecord)
      else if JudgeEnd(end.value, size).Some? then Refused(JudgeEnd(end.value, size).value)
      else
        var v := CountEntries(ParseEntries(bytes[end.value.offset..end.value.offset + end.value.size], 0), 0);
        if v.Accepted? && v.entries != end.value.total then Refused(CountInconsistent) else v
  }

  lemma AcceptedIsArchive(bytes: seq<byte>) returns (prefix: seq<byte>, es: seq<Entry>)
    requires Judge(bytes).Accepted?
    ensures Archive(bytes, prefix, es) && |es| == Judge(bytes).entries
  {
    hide ReadEnd, PrintEnd, ParseEntries, CountEntries, PrintEntries, Allowed;
    var size := |bytes|;
    var end := ReadEnd(bytes[size - 22..]).value;
    var central := bytes[end.offset..end.offset + end.size];
    CountedMeansDirectory(central, end.total);
    es :| Directory(es, central) && |es| == end.total;
    prefix := bytes[..end.offset];
    EndIsPrinted(bytes[size - 22..]);
    assert bytes == prefix + central + bytes[size - 22..];
  }

  lemma ArchiveIsAccepted(bytes: seq<byte>, prefix: seq<byte>, es: seq<Entry>)
    requires Archive(bytes, prefix, es)
    ensures Judge(bytes) == Accepted(|es|)
  {
    hide ReadEnd, PrintEnd, ParseEntries, CountEntries, PrintEntries, Allowed;
    var central := PrintEntries(es);
    var end := End(0, 0, |es|, |es|, |central|, |prefix|, 0);
    assert bytes[|bytes| - 22..] == PrintEnd(end);
    PrintedEndIsRead(end);
    assert bytes[|prefix|..|prefix| + |central|] == central;
    CountedMeansDirectory(central, |es|);
  }

  /** The check accepts, with n entries, exactly the archives of n entries. */
  lemma JudgeAccepts(bytes: seq<byte>, n: nat)
    ensures Judge(bytes) == Accepted(n) <==> exists prefix, es :: Archive(bytes, prefix, es) && |es| == n
  {
    hide Judge, Archive;
    if Judge(bytes) == Accepted(n) {
      var prefix, es := AcceptedIsArchive(bytes);
    }
    forall prefix, es | Archive(bytes, prefix, es) && |es| == n ensures Judge(bytes) == Accepted(n) {
      ArchiveIsAccepted(bytes, prefix, es);
    }
  }

  method Preflight(bytes: seq<byte>) returns (v: Verdict)
    ensures forall n :: v == Accepted(n) <==> exists prefix, es :: Archive(bytes, prefix, es) && |es| == n
    ensures v == Judge(bytes)
  {
    hide ReadEnd, ParseEntries, CountEntries, Archive;
    forall n: nat
      ensures Judge(bytes) == Accepted(n) <==> exists prefix, es :: Archive(bytes, prefix, es) && |es| == n
    {
      JudgeAccepts(bytes, n);
    }
    var size := |bytes|;
    if size < 22 || size > MAX_ARCHIVE_BYTES {
      return Refused(BadSize);
    }
    var record := ReadEnd(bytes[size - 22..]);
    if record.None? {
      return Refused(NoEndRecord);
    }
    var end := record.value;
    if end.comment != 0 {
      return Refused(HasComment);
    }
    if end.disk != 0 || end.centralDisk != 0 || end.diskEntries != end.total {
      return Refused(MultiDisk);
    }
    if end.total == MARK_16 || end.size == MARK_32 || end.offset == MARK_32 {
      return Refused(HasZip64);
    }
    if end.total > MAX_ENTRIES {
      return Refused(TooManyEntries);
    }
    if end.size > MAX_DIRECTORY_BYTES {
      return Refused(DirectoryTooLarge);
    }
    if end.offset + end.size != size - 22 {
      return Refused(BoundsInconsistent);
    }
    v := CheckDirectory(bytes[end.offset..end.offset + end.size]);
    if v.Accepted? && v.entries != end.total {
      return Refused(CountInconsistent);
    }
  }

  // ----- One reading -----

  lemma {:induction false} ListEntriesIsInjective(es: seq<Entry>, ds: seq<Entry>)
    requires ListEntries(es) == ListEntries(ds)
    ensures es == ds
  {
    if es != [] {
      ListEntriesIsInjective(es[1..], ds[1..]);
    }
  }

  /** The bytes of an archive determine its prefix and its entries. */
  lemma OneReading(bytes: seq<byte>, prefix: seq<byte>, es: seq<Entry>, other: seq<byte>, ds: seq<Entry>)
    requires Archive(bytes, prefix, es) && Archive(bytes, other, ds)
    ensures prefix == other && es == ds
  {
    hide ReadEnd, PrintEnd, ParseEntries, ListEntries, PrintEntries, Allowed;
    var end := End(0, 0, |es|, |es|, |PrintEntries(es)|, |prefix|, 0);
    var end' := End(0, 0, |ds|, |ds|, |PrintEntries(ds)|, |other|, 0);
    assert bytes[|bytes| - 22..] == PrintEnd(end) == PrintEnd(end');
    PrintedEndIsRead(end);
    PrintedEndIsRead(end');
    assert prefix == bytes[..|prefix|] == other;
    var central := bytes[|prefix|..|bytes| - 22];
    assert central == PrintEntries(es) == PrintEntries(ds);
    EntriesParse([], es);
    EntriesParse([], ds);
    assert [] + PrintEntries(es) == [] + PrintEntries(ds);
    ListEntriesIsInjective(es, ds);
  }

  lemma {:induction false} ListFieldsIsInjective(fs: seq<Field>, gs: seq<Field>)
    requires ListFields(fs) == ListFields(gs)
    ensures fs == gs
  {
    if fs != [] {
      ListFieldsIsInjective(fs[1..], gs[1..]);
    }
  }

  lemma OneTiling(extra: seq<byte>, fs: seq<Field>, gs: seq<Field>)
    requires Tiles(fs, extra) && Tiles(gs, extra)
    ensures fs == gs
  {
    hide ParseFields, ListFields, PrintFields;
    FieldsParse([], fs);
    FieldsParse([], gs);
    assert [] + PrintFields(fs) == [] + PrintFields(gs);
    ListFieldsIsInjective(fs, gs);
  }
}
