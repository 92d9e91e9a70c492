/** Parsing a list.bin undoes encoding one, whole or cut short. */
module ListBinRoundTrip {
  import opened Wrappers
  import opened Varint
  import opened ListBin

  /** Field numbers of protobuf messages are below 2^29. */
  const FIELD_NUMBERS := 0x2000_0000

  // ---- Writing fields ----

  function BytesField(num: nat, body: Bytes): Field {
    Field(Encode(8 * num + 2), Encode(|body|), body)
  }

  function VarintField(num: nat, value: nat): Field {
    Field(Encode(8 * num), [], Encode(value))
  }

  lemma {:induction false} BytesFieldIs(num: nat, body: Bytes)
    requires num < FIELD_NUMBERS && |body| < TWO_63
    ensures var f := BytesField(num, body); f.WellFormed() && f.Num() == num && f.Wire() == 2 && f.body == body
  {
    hide Encode, Payload, IsVarint;
    EncodeIsVarint(8 * num + 2);
    EncodeIsVarint(|body|);
  }

  lemma VarintFieldIs(num: nat, value: nat)
    requires num < FIELD_NUMBERS && value < TWO_64
    ensures var f := VarintField(num, value);
            f.WellFormed() && f.Num() == num && f.Wire() == 0 && SizeValue(f) == ToInt64(value)
  {
    hide Encode, Payload, IsVarint;
    EncodeIsVarint(8 * num);
    EncodeIsVarint(value);
  }

  // ---- Writing an entry ----

  /** The field numbered n occurs once, as bytes, and says text; or it is left out and text is empty. */
  ghost predicate Says(fs: seq<Field>, n: int, text: Bytes) {
    || (text == [] && forall f :: f in fs ==> f.Num() != n)
    || exists i: nat :: OnlyAt(fs, n, i) && fs[i].Wire() == 2 && fs[i].body == text
  }

  ghost predicate OnlyAt(fs: seq<Field>, n: int, i: nat) {
    i < |fs| && fs[i].Num() == n && forall j :: 0 <= j < |fs| && j != i ==> fs[j].Num() != n
  }

  /** The size field occurs once, as a varint, or it is left out and the size is 0. */
  ghost predicate SaysSize(fs: seq<Field>, size: int) {
    || (size == 0 && forall f :: f in fs ==> f.Num() != SIZE)
    || exists i: nat :: OnlyAt(fs, SIZE, i) && fs[i].Wire() == 0 && SizeValue(fs[i]) == size
  }

  /** An encoding of an entry: known fields in any order, each at most once, among any complete unknown fields. */
  ghost predicate Encodes(fs: seq<Field>, id: Bytes, path: Bytes, size: int, md5: Bytes) {
    && AllWellFormed(fs)
    && id != [] && path != []
    && Says(fs, OBJECT_ID, id) && Says(fs, PATH, path) && Says(fs, MD5, md5) && SaysSize(fs, size)
  }

  /** Sizes below 256 are dropped by the parser. */
  function KeptSize(size: int): int {
    if size >= MIN_SIZE then size else 0
  }

  lemma {:induction false} LastBodyOnly(fs: seq<Field>, n: int, i: nat)
    requires OnlyAt(fs, n, i)
    ensures LastBody(fs, n) == fs[i].body
  {
    var init := fs[..|fs| - 1];
    if i < |fs| - 1 {
      assert OnlyAt(init, n, i);
      LastBodyOnly(init, n, i);
    }
  }

  lemma {:induction false} LastBodyNone(fs: seq<Field>, n: int)
    requires forall f :: f in fs ==> f.Num() != n
    ensures LastBody(fs, n) == []
  {
    if fs != [] {
      LastBodyNone(fs[..|fs| - 1], n);
    }
  }

  lemma {:induction false} LastBodySays(fs: seq<Field>, n: int, text: Bytes)
    requires Says(fs, n, text)
    ensures LastBody(fs, n) == text
    ensures forall f :: f in fs && f.Num() == n ==> f.Wire() == 2 && f.body == text
  {
    hide Field.Key, Field.Wire;
    if text == [] && forall f :: f in fs ==> f.Num() != n {
      LastBodyNone(fs, n);
    } else {
      var i: nat :| OnlyAt(fs, n, i) && fs[i].Wire() == 2 && fs[i].body == text;
      LastBodyOnly(fs, n, i);
    }
  }

  lemma {:induction false} LastSizeNone(fs: seq<Field>)
    requires forall f :: f in fs ==> f.Num() != SIZE
    ensures LastSize(fs) == 0
  {
    hide Payload, ToInt64;
    if fs != [] {
      LastSizeNone(fs[..|fs| - 1]);
    }
  }

  lemma {:induction false} LastSizeOnly(fs: seq<Field>, i: nat)
    requires OnlyAt(fs, SIZE, i)
    ensures LastSize(fs) == KeptSize(SizeValue(fs[i]))
  {
    hide Payload, ToInt64, Field.Key;
    var init := fs[..|fs| - 1];
    if i < |fs| - 1 {
      assert OnlyAt(init, SIZE, i);
      LastSizeOnly(init, i);
    } else {
      LastSizeNone(init);
    }
  }

  lemma LastSizeSays(fs: seq<Field>, size: int)
    requires SaysSize(fs, size)
    ensures LastSize(fs) == KeptSize(size)
    ensures forall f :: f in fs && f.Num() == SIZE ==> f.Wire() == 0
  {
    hide Field.Key, Field.Wire, Payload, ToInt64, LastSize;
    if size == 0 && forall f :: f in fs ==> f.Num() != SIZE {
      LastSizeNone(fs);
    } else {
      var i: nat :| OnlyAt(fs, SIZE, i) && fs[i].Wire() == 0 && SizeValue(fs[i]) == size;
      LastSizeOnly(fs, i);
    }
  }

  /** Reading an encoded entry gives the entry back. */
  lemma {:induction false} EntryRoundTrip(fs: seq<Field>, id: Bytes, path: Bytes, size: int, md5: Bytes)
    requires Encodes(fs, id, path, size, md5)
    ensures EntryOf(Concat(fs)) == Some(NamedEntry(id, Entry(path, KeptSize(size), md5)))
  {
    hide Field.Num, Field.Wire, Field.WellFormed, Field.Flat, FieldAt, Says, SaysSize, LastBody, LastSize, Concat;
    NothingLeft();
    SplitConcat(fs, []);
    assert Concat(fs) + [] == Concat(fs);
    LastBodySays(fs, OBJECT_ID, id);
    LastBodySays(fs, PATH, path);
    LastBodySays(fs, MD5, md5);
    LastSizeSays(fs, size);
  }

  lemma NothingLeft()
    ensures FieldAt([]).None?
  {
  }

  /** The plain encoding, md5 and size included only when given. */
  function EntryFields(id: Bytes, path: Bytes, size: nat, md5: Bytes): seq<Field> {
    [BytesField(PATH, path)]
    + (if size == 0 then [] else [VarintField(SIZE, size)])
    + (if md5 == [] then [] else [BytesField(MD5, md5)])
    + [BytesField(OBJECT_ID, id)]
  }

  lemma {:induction false} EntryFieldsEncode(id: Bytes, path: Bytes, size: nat, md5: Bytes)
    requires id != [] && path != []
    requires |id| < TWO_63 && |path| < TWO_63 && |md5| < TWO_63 && size < TWO_63
    ensures Encodes(EntryFields(id, path, size, md5), id, path, size, md5)
  {
    hide Field.Num, Field.Wire, Field.WellFormed, BytesField, VarintField, SizeValue;
    BytesFieldIs(PATH, path);
    VarintFieldIs(SIZE, size);
    BytesFieldIs(MD5, md5);
    BytesFieldIs(OBJECT_ID, id);
    var fs := EntryFields(id, path, size, md5);
    assert OnlyAt(fs, PATH, 0);
    assert OnlyAt(fs, OBJECT_ID, |fs| - 1);
    if size != 0 {
      assert OnlyAt(fs, SIZE, 1);
    }
    if md5 != [] {
      assert OnlyAt(fs, MD5, |fs| - 2);
    }
  }

  // ---- Writing a file ----

  /** A top-level field: a length-delimited record holding one encoded entry, or a field that is no entry. */
  datatype Item =
    | Record(num: nat, fields: seq<Field>, id: Bytes, path: Bytes, size: int, md5: Bytes)
    | Unknown(field: Field)
  {
    ghost predicate Valid() {
      match this
      case Record(num, fields, id, path, size, md5) =>
        num < FIELD_NUMBERS && |Concat(fields)| < TWO_63 && Encodes(fields, id, path, size, md5)
      case Unknown(f) => f.WellFormed() && (f.Wire() == 2 ==> EntryOf(f.body).None?)
    }

    function Written(): Field {
      match this
      case Record(num, fields, _, _, _, _) => BytesField(num, Concat(fields))
      case Unknown(f) => f
    }
  }

  function File(items: seq<Item>): seq<Field> {
    seq(|items|, i requires 0 <= i < |items| => items[i].Written())
  }

  /** The entries by object id, the last one of an id winning. */
  function LastWins(items: seq<Item>): Index {
    if items == [] then map[]
    else
      var x, idx := items[|items| - 1], LastWins(items[..|items| - 1]);
      match x
      case Record(_, _, id, path, size, md5) => idx[id := Entry(path, KeptSize(size), md5)]
      case Unknown(_) => idx
  }

  ghost predicate AllValid(items: seq<Item>) {
    forall x :: x in items ==> x.Valid()
  }

  lemma ItemIs(x: Item)
    requires x.Valid()
    ensures x.Written().WellFormed()
    ensures x.Record? ==> x.Written().Wire() == 2 &&
                          EntryOf(x.Written().body) == Some(NamedEntry(x.id, Entry(x.path, KeptSize(x.size), x.md5)))
    ensures x.Unknown? && x.Written().Wire() == 2 ==> EntryOf(x.Written().body).None?
  {
    hide Field.Num, Field.Wire, Field.WellFormed, BytesField, EntryOf, Encodes, Concat;
    if x.Record? {
      BytesFieldIs(x.num, Concat(x.fields));
      EntryRoundTrip(x.fields, x.id, x.path, x.size, x.md5);
    }
  }

  lemma {:induction false} IndexOfFile(items: seq<Item>)
    requires AllValid(items)
    ensures IndexOfFields(File(items)) == LastWins(items)
  {
    hide Item.Valid, Item.Written, EntryOf, Field.Wire;
    if items != [] {
      var init := items[..|items| - 1];
      IndexOfFile(init);
      ItemIs(items[|items| - 1]);
      assert File(items)[..|items| - 1] == File(init);
    }
  }

  lemma FileWellFormed(items: seq<Item>)
    requires AllValid(items)
    ensures AllWellFormed(File(items))
  {
    hide Item.Valid, Item.Written, Field.WellFormed;
    forall f | f in File(items) ensures f.WellFormed() {
      var i :| 0 <= i < |items| && f == items[i].Written();
      ItemIs(items[i]);
    }
  }

  /** Parsing undoes encoding: a file gives exactly its last-wins map. */
  lemma FileRoundTrip(items: seq<Item>)
    requires AllValid(items)
    ensures IndexOf(Concat(File(items))) == LastWins(items)
  {
    hide Item.Valid, Item.Written, Field.WellFormed, FieldAt, Field.Flat, Concat;
    FileWellFormed(items);
    NothingLeft();
    SplitConcat(File(items), []);
    assert Concat(File(items)) + [] == Concat(File(items));
    IndexOfFile(items);
  }

  /** A file cut after any k bytes gives the map of the records that lie wholly before the cut. */
  lemma CutFile(items: seq<Item>, k: nat)
    requires AllValid(items) && k <= |Concat(File(items))|
    ensures IndexOf(Concat(File(items))[..k]) == LastWins(items[..Whole(File(items), k)])
  {
    hide Item.Valid, Item.Written, Field.WellFormed, FieldAt, Field.Flat, Concat, Split;
    FileWellFormed(items);
    SplitCut(File(items), k);
    var m := Whole(File(items), k);
    assert File(items)[..m] == File(items[..m]);
    IndexOfFile(items[..m]);
  }

  /** What "wholly before the cut" says: m fields end by byte k, the next one does not. */
  lemma {:induction false} WholeMeans(fs: seq<Field>, k: nat)
    requires k <= |Concat(fs)|
    ensures var m := Whole(fs, k);
            |Concat(fs[..m])| <= k && (m < |fs| ==> |Concat(fs[..m + 1])| > k)
  {
    hide Field.Flat;
    var m := Whole(fs, k);
    if fs != [] && k >= |fs[0].Flat()| {
      WholeMeans(fs[1..], k - |fs[0].Flat()|);
      assert fs[..m][1..] == fs[1..][..m - 1];
      if m < |fs| {
        assert fs[..m + 1][1..] == fs[1..][..m];
      }
    } else if fs != [] {
      assert fs[..1] == [fs[0]] && [fs[0]][1..] == [];
    }
  }

  /** The parser's answer on any bytes at all: the map of the complete fields it begins with. */
  lemma {:induction false} AnyInput(s: Bytes)
    ensures exists fs, rest ::
      s == Concat(fs) + rest && AllWellFormed(fs) && FieldAt(rest).None? && IndexOf(s) == IndexOfFields(fs)
  {
    hide FieldAt, Field.WellFormed, Concat;
    SplitSound(s);
    var p := Split(s);
    assert s == Concat(p.fields) + p.rest && IndexOf(s) == IndexOfFields(p.fields);
  }

  // ---- The format in numbers ----

  /** Fields of the four numbers, in order, are an encoding of what their bodies say. */
  lemma {:induction false} FourFields(fs: seq<Field>, id: Bytes, path: Bytes, size: int, md5: Bytes)
    requires path != [] && id != []
    requires AllWellFormed(fs) && |fs| == 4
    requires fs[0].Num() == 3 && fs[0].Wire() == 2 && fs[0].body == path
    requires fs[1].Num() == 4 && fs[1].Wire() == 0 && SizeValue(fs[1]) == size
    requires fs[2].Num() == 10 && fs[2].Wire() == 2 && fs[2].body == md5
    requires fs[3].Num() == 11 && fs[3].Wire() == 2 && fs[3].body == id
    ensures Encodes(fs, id, path, size, md5)
  {
    hide Field.Num, Field.Wire, Field.WellFormed, SizeValue;
    assert OnlyAt(fs, 3, 0) && OnlyAt(fs, 4, 1) && OnlyAt(fs, 10, 2) && OnlyAt(fs, 11, 3);
  }

  /** An entry has its path in field 3, its size in field 4, its digest in field 10 and its object id in field 11, and
      a size counts from 256 bytes on. */
  lemma {:induction false} FieldNumbers(path: Bytes, size: nat, md5: Bytes, id: Bytes)
    requires path != [] && id != []
    requires |id| < TWO_63 && |path| < TWO_63 && |md5| < TWO_63 && size < TWO_63
    ensures EntryOf(Concat([BytesField(3, path), VarintField(4, size), BytesField(10, md5), BytesField(11, id)])) ==
            Some(NamedEntry(id, Entry(path, if size >= 256 then size else 0, md5)))
  {
    hide Field.Num, Field.Wire, Field.WellFormed, BytesField, VarintField, SizeValue, Encodes, EntryOf, Concat;
    var fs := [BytesField(3, path), VarintField(4, size), BytesField(10, md5), BytesField(11, id)];
    BytesFieldIs(3, path);
    VarintFieldIs(4, size);
    BytesFieldIs(10, md5);
    BytesFieldIs(11, id);
    FourFields(fs, id, path, size, md5);
    EntryRoundTrip(fs, id, path, size, md5);
  }

  /** One byte below 128 is a varint of its own value. */
  lemma OneByte(b: Byte)
    requires b < 128
    ensures IsVarint([b]) && Payload([b]) == b && ToInt64(b) == b
  {
    assert [b][1..] == [];
  }

  /** The two bytes AC 02 spell 300. */
  lemma ThreeHundred()
    ensures IsVarint([0xAC, 0x02]) && ToInt64(Payload([0xAC, 0x02])) == 300
  {
    assert SizeFrom([0xAC, 0x02], 1) == 2;
    assert [0xAC, 0x02][1..] == [0x02];
    OneByte(0x02);
  }

  /** A field whose tag is one byte: the upper five bits are its number, the lower three its wire type. */
  lemma ShortTag(f: Field, t: Byte)
    requires f.tag == [t] && t < 128
    ensures IsVarint(f.tag) && f.Num() == t / 8 && f.Wire() == t % 8
  {
    OneByte(t);
  }

  /** A short text field: tag, length, text. */
  lemma ShortText(f: Field, t: Byte, l: Byte)
    requires f.tag == [t] && f.len == [l] && t < 128 && t % 8 == 2 && l < 128 && l == |f.body|
    ensures f.WellFormed() && f.Num() == t / 8 && f.Wire() == 2 && f.Flat() == [t, l] + f.body
  {
    hide IsVarint, Payload, ToInt64, Field.Num, Field.Wire;
    ShortTag(f, t);
    OneByte(l);
  }

  lemma ConcatFour(a: Field, b: Field, c: Field, d: Field)
    ensures Concat([a, b, c, d]) == a.Flat() + (b.Flat() + (c.Flat() + d.Flat()))
  {
    hide Field.Flat;
    assert [a, b, c, d][1..] == [b, c, d] && [b, c, d][1..] == [c, d] && [c, d][1..] == [d] && [d][1..] == [];
    assert Concat([d]) == d.Flat() + [] == d.Flat();
    assert Concat([c, d]) == c.Flat() + d.Flat();
    assert Concat([b, c, d]) == b.Flat() + (c.Flat() + d.Flat());
  }

  lemma ConcatThree(a: Field, b: Field, c: Field)
    ensures Concat([a, b, c]) == a.Flat() + (b.Flat() + c.Flat())
  {
    hide Field.Flat;
    assert [a, b, c][1..] == [b, c] && [b, c][1..] == [c] && [c][1..] == [];
    assert Concat([c]) == c.Flat() + [] == c.Flat();
    assert Concat([b, c]) == b.Flat() + c.Flat();
  }

  /** The bytes of an entry with path "p", size 300, digest "m" and object id "x". */
  const SAMPLE_ENTRY: Bytes := [0x1A, 1, 0x70, 0x20, 0xAC, 0x02, 0x52, 1, 0x6D, 0x5A, 1, 0x78]

  lemma SampleSize(f: Field)
    requires f == Field([0x20], [], [0xAC, 0x02])
    ensures f.WellFormed() && f.Num() == 4 && f.Wire() == 0 && SizeValue(f) == 300
    ensures f.Flat() == [0x20, 0xAC, 0x02]
  {
    hide IsVarint, Payload, ToInt64, Field.Num, Field.Wire;
    ShortTag(f, 0x20);
    ThreeHundred();
  }

  lemma SampleEntry()
    ensures EntryOf(SAMPLE_ENTRY) == Some(NamedEntry([0x78], Entry([0x70], 300, [0x6D])))
  {
    hide Field.Num, Field.Wire, Field.WellFormed, Field.Flat, SizeValue, Encodes, EntryOf, Concat;
    var path, md5 := Field([0x1A], [1], [0x70]), Field([0x52], [1], [0x6D]);
    var size, id := Field([0x20], [], [0xAC, 0x02]), Field([0x5A], [1], [0x78]);
    ShortText(path, 0x1A, 1);
    SampleSize(size);
    ShortText(md5, 0x52, 1);
    ShortText(id, 0x5A, 1);
    var fs := [path, size, md5, id];
    FourFields(fs, [0x78], [0x70], 300, [0x6D]);
    EntryRoundTrip(fs, [0x78], [0x70], 300, [0x6D]);
    ConcatFour(path, size, md5, id);
    assert Concat(fs) == SAMPLE_ENTRY;
  }

  /** A file of one record in bytes, between a field of four fixed bytes and one of eight. */
  lemma SampleFile()
    ensures IndexOf([0x15, 1, 2, 3, 4] + ([0x0A, 12] + SAMPLE_ENTRY + [0x19, 1, 2, 3, 4, 5, 6, 7, 8])) ==
            map[[0x78] := Entry([0x70], 300, [0x6D])]
  {
    hide Field.Num, Field.Wire, Field.WellFormed, Field.Flat, EntryOf, Concat, FieldAt;
    var four, eight := Field([0x15], [], [1, 2, 3, 4]), Field([0x19], [], [1, 2, 3, 4, 5, 6, 7, 8]);
    var entry := Field([0x0A], [12], SAMPLE_ENTRY);
    FixedField(four, 0x15);
    ShortText(entry, 0x0A, 12);
    FixedField(eight, 0x19);
    var fs := [four, entry, eight];
    NothingLeft();
    SplitConcat(fs, []);
    assert Concat(fs) + [] == Concat(fs);
    ConcatThree(four, entry, eight);
    assert Concat(fs) == [0x15, 1, 2, 3, 4] + ([0x0A, 12] + SAMPLE_ENTRY + [0x19, 1, 2, 3, 4, 5, 6, 7, 8]);
    SampleEntry();
    assert fs[..2] == [four, entry] && [four, entry][..1] == [four] && [four][..0] == [];
    assert IndexOfFields([four]) == map[];
    assert IndexOfFields([four, entry]) == map[[0x78] := Entry([0x70], 300, [0x6D])];
  }

  lemma FixedField(f: Field, t: Byte)
    requires f.tag == [t] && t < 128 && f.len == []
    requires (t % 8 == 5 && |f.body| == 4) || (t % 8 == 1 && |f.body| == 8)
    ensures f.WellFormed() && f.Num() == t / 8 && f.Wire() == t % 8 && f.Flat() == [t] + f.body
  {
    hide IsVarint, Payload, ToInt64, Field.Num, Field.Wire;
    ShortTag(f, t);
  }
}
