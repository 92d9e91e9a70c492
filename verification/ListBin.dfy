/** The hand-written protobuf reader of listbin.go: list.bin is a message whose length-delimited
    fields hold one asset entry each. Strings are byte strings, as in Go. */
module ListBin {
  import opened Wrappers
  import opened Varint

  type Bytes = seq<Byte>

  const PATH := 3
  const SIZE := 4
  const MD5 := 10
  const OBJECT_ID := 11

  const MIN_SIZE := 256

  datatype Entry = Entry(path: Bytes, size: int, md5: Bytes)
  datatype NamedEntry = NamedEntry(id: Bytes, entry: Entry)
  type Index = map<Bytes, Entry>

  // ---- Slices ----

  lemma Parts<T>(s: seq<T>, n: nat, l: nat, v: nat)
    requires n <= |s| && l <= v <= |s| - n
    ensures s[..n] + s[n..][..l] + s[n..][l..v] == s[..n + v]
    ensures s[..n + v] + s[n + v..] == s
  {
  }

  lemma Assoc<T>(a: seq<T>, b: seq<T>, c: seq<T>)
    ensures a + b + c == a + (b + c)
  {
  }

  lemma DropPrefix<T>(a: seq<T>, b: seq<T>)
    ensures (a + b)[|a|..] == b && (a + b)[..|a|] == a
  {
  }

  lemma Cut<T>(a: seq<T>, b: seq<T>, k: nat)
    requires k <= |a| + |b|
    ensures (a + b)[..k] == if k < |a| then a[..k] else a + b[..k - |a|]
  {
  }

  lemma DropDrop<T>(s: seq<T>, i: nat, n: nat)
    requires i + n <= |s|
    ensures s[i..][n..] == s[i + n..]
  {
  }

  lemma DropTake<T>(s: seq<T>, i: nat, l: nat, h: nat)
    requires l <= h && i + h <= |s|
    ensures s[i..][l..h] == s[i + l..i + h]
  {
  }

  // ---- The wire format ----

  /** One field as it lies in the file: the spelling of its tag, of its length (wire type 2 only), its body. */
  datatype Field = Field(tag: Bytes, len: Bytes, body: Bytes) {
    function Key(): int { ToInt64(Payload(tag)) }
    function Num(): int { Key() / 8 }
    function Wire(): nat { Key() % 8 }
    function Flat(): Bytes { tag + len + body }

    predicate WellFormed() {
      && IsVarint(tag)
      && (Wire() == 0 ==> len == [] && IsVarint(body))
      && (Wire() == 1 ==> len == [] && |body| == 8)
      && (Wire() == 2 ==> IsVarint(len) && ToInt64(Payload(len)) == |body|)
      && (Wire() == 5 ==> len == [] && |body| == 4)
      && Wire() in {0, 1, 2, 5}
    }
  }

  function Concat(fs: seq<Field>): Bytes {
    if fs == [] then [] else fs[0].Flat() + Concat(fs[1..])
  }

  ghost predicate AllWellFormed(fs: seq<Field>) {
    forall f :: f in fs ==> f.WellFormed()
  }

  /** Bytes the value of a field takes at the start of s. */
  function ValueSize(wire: int, s: Bytes): (k: Option<nat>)
    ensures k.Some? ==> k.value <= |s|
  {
    if wire == 0 then
      var r := Decode(s);
      if r.size == 0 then None else Some(r.size)
    else if wire == 1 then
      if 8 > |s| then None else Some(8)
    else if wire == 2 then
      var r := Decode(s);
      if r.size == 0 || r.value < 0 || r.size + r.value > |s| then None else Some(r.size + r.value)
    else if wire == 5 then
      if 4 > |s| then None else Some(4)
    else None
  }

  /** Bytes of the length prefix at the start of s: wire type 2 has one. */
  function LengthSize(wire: int, s: Bytes): (l: nat)
    ensures ValueSize(wire, s).Some? ==> l <= ValueSize(wire, s).value
  {
    if wire == 2 then Decode(s).size else 0
  }

  /** The complete field at the start of s, if there is one. */
  function FieldAt(s: Bytes): (f: Option<Field>)
    ensures f.Some? ==> 0 < |f.value.Flat()| <= |s|
  {
    var t := Decode(s);
    if t.size == 0 then None
    else
      var after := s[t.size..];
      var v := ValueSize(t.value % 8, after);
      if v.None? then None
      else
        var l := LengthSize(t.value % 8, after);
        Some(Field(s[..t.size], after[..l], after[l..v.value]))
  }

  datatype Pieces = Pieces(fields: seq<Field>, rest: Bytes)

  /** Every byte string is a run of complete fields and a rest that starts no complete field. */
  function Split(s: Bytes): (p: Pieces)
    decreases |s|
  {
    var f := FieldAt(s);
    if f.None? then Pieces([], s)
    else
      var p := Split(s[|f.value.Flat()|..]);
      Pieces([f.value] + p.fields, p.rest)
  }

  lemma {:induction false} FieldAtIsWellFormed(s: Bytes)
    requires FieldAt(s).Some?
    ensures FieldAt(s).value.WellFormed()
  {
    var t := Decode(s);
    var f := FieldAt(s).value;
    SizeIs(f.tag, 0, |f.tag|);
    assert f.tag[..|f.tag|] == f.tag;
    var after := s[t.size..];
    var r := Decode(after);
    if f.Wire() == 0 {
      assert f.body == after[..r.size];
      SizeIs(f.body, 0, |f.body|);
    } else if f.Wire() == 2 {
      assert f.len == after[..r.size];
      SizeIs(f.len, 0, |f.len|);
    }
  }

  lemma {:induction false} FieldAtIsPrefix(s: Bytes)
    requires FieldAt(s).Some?
    ensures FieldAt(s).value.Flat() + s[|FieldAt(s).value.Flat()|..] == s
  {
    hide Decode, ValueSize, LengthSize;
    var t := Decode(s);
    var after := s[t.size..];
    Parts(s, t.size, LengthSize(t.value % 8, after), ValueSize(t.value % 8, after).value);
  }

  /** Splitting loses nothing and finds only complete fields. */
  lemma {:induction false} SplitSound(s: Bytes)
    ensures var p := Split(s); Concat(p.fields) + p.rest == s && AllWellFormed(p.fields) && FieldAt(p.rest).None?
    decreases |s|
  {
    hide FieldAt, Field.WellFormed, Field.Flat;
    if FieldAt(s).Some? {
      var f := FieldAt(s).value;
      var tail := s[|f.Flat()|..];
      SplitSound(tail);
      FieldAtIsWellFormed(s);
      FieldAtIsPrefix(s);
      Assoc(f.Flat(), Concat(Split(tail).fields), Split(tail).rest);
      assert Split(s).fields[1..] == Split(tail).fields;
    }
  }

  lemma {:induction false} FieldAtFlat(f: Field, rest: Bytes)
    requires f.WellFormed()
    ensures FieldAt(f.Flat() + rest) == Some(f)
    ensures (f.Flat() + rest)[|f.Flat()|..] == rest
  {
    hide Decode, Payload, ToInt64, SizeFrom;
    var s := f.Flat() + rest;
    var after := f.len + (f.body + rest);
    Assoc(f.tag, f.len, f.body);
    Assoc(f.tag, f.len + f.body, rest);
    Assoc(f.len, f.body, rest);
    assert s == f.tag + after;
    DecodeVarint(f.tag, after);
    DropPrefix(f.tag, after);
    ValueSizeFlat(f, rest);
    DropPrefix(f.len, f.body + rest);
    DropPrefix(f.len + f.body, rest);
    assert after == f.len + f.body + rest;
    DropTake(after, |f.len|, 0, |f.body|);
    DropPrefix(f.body, rest);
    DropPrefix(f.Flat(), rest);
  }

  lemma {:induction false} ValueSizeFlat(f: Field, rest: Bytes)
    requires f.WellFormed()
    ensures ValueSize(f.Wire(), f.len + (f.body + rest)) == Some(|f.len| + |f.body|)
    ensures LengthSize(f.Wire(), f.len + (f.body + rest)) == |f.len|
  {
    hide Decode, Payload, ToInt64, SizeFrom;
    if f.Wire() == 0 {
      assert f.len + (f.body + rest) == f.body + rest;
      DecodeVarint(f.body, rest);
    } else if f.Wire() == 2 {
      DecodeVarint(f.len, f.body + rest);
    }
  }

  /** A field cut short starts no complete field. */
  lemma FieldAtCut(f: Field, k: nat)
    requires f.WellFormed() && k < |f.Flat()|
    ensures FieldAt(f.Flat()[..k]).None?
  {
    hide Decode, Payload, ToInt64, SizeFrom;
    Assoc(f.tag, f.len, f.body);
    Cut(f.tag, f.len + f.body, k);
    if k < |f.tag| {
      CutVarint(f.tag, k);
    } else {
      var after := (f.len + f.body)[..k - |f.tag|];
      DecodeVarint(f.tag, after);
      DropPrefix(f.tag, after);
      ValueSizeCut(f, k - |f.tag|);
    }
  }

  lemma ValueSizeCut(f: Field, k: nat)
    requires f.WellFormed() && k < |f.len| + |f.body|
    ensures ValueSize(f.Wire(), (f.len + f.body)[..k]).None?
  {
    hide Decode, Payload, ToInt64, SizeFrom;
    Cut(f.len, f.body, k);
    if f.Wire() == 0 {
      assert f.len + f.body == f.body;
      CutVarint(f.body, k);
    } else if f.Wire() == 2 {
      if k < |f.len| {
        CutVarint(f.len, k);
      } else {
        DecodeVarint(f.len, f.body[..k - |f.len|]);
      }
    }
  }

  /** Splitting undoes concatenation. */
  lemma {:induction false} SplitConcat(fs: seq<Field>, rest: Bytes)
    requires AllWellFormed(fs) && FieldAt(rest).None?
    ensures Split(Concat(fs) + rest) == Pieces(fs, rest)
  {
    hide FieldAt, Field.Flat, Field.WellFormed;
    if fs == [] {
      assert Concat(fs) + rest == rest;
    } else {
      Assoc(fs[0].Flat(), Concat(fs[1..]), rest);
      FieldAtFlat(fs[0], Concat(fs[1..]) + rest);
      SplitConcat(fs[1..], rest);
    }
  }

  /** How many of the leading fields end within the first k bytes. */
  function Whole(fs: seq<Field>, k: nat): (m: nat)
    ensures m <= |fs|
  {
    if fs == [] || k < |fs[0].Flat()| then 0 else 1 + Whole(fs[1..], k - |fs[0].Flat()|)
  }

  lemma {:induction false} SplitCut(fs: seq<Field>, k: nat)
    requires AllWellFormed(fs) && k <= |Concat(fs)|
    ensures Split(Concat(fs)[..k]).fields == fs[..Whole(fs, k)]
  {
    hide FieldAt, Field.Flat, Field.WellFormed;
    if fs == [] {
      assert Concat(fs)[..k] == [];
    } else {
      var f, k' := fs[0], k - |fs[0].Flat()|;
      Cut(f.Flat(), Concat(fs[1..]), k);
      if k < |f.Flat()| {
        FieldAtCut(f, k);
      } else {
        FieldAtFlat(f, Concat(fs[1..])[..k']);
        SplitCut(fs[1..], k');
        Cut([f], fs[1..], Whole(fs, k));
      }
    }
  }

  // ---- What an entry means ----

  predicate Accepts(f: Field) {
    && (f.Num() in {PATH, MD5} ==> f.Wire() == 2)
    && (f.Num() == SIZE ==> f.Wire() == 0)
    && (f.Num() == OBJECT_ID ==> f.Wire() == 2 && f.body != [])
  }

  /** Body of the last field numbered n, empty when there is none. */
  function LastBody(fs: seq<Field>, n: int): Bytes {
    if fs == [] then []
    else if fs[|fs| - 1].Num() == n then fs[|fs| - 1].body
    else LastBody(fs[..|fs| - 1], n)
  }

  function SizeValue(f: Field): int {
    ToInt64(Payload(f.body))
  }

  /** The last size of at least 256 bytes, 0 when there is none. */
  function LastSize(fs: seq<Field>): int {
    if fs == [] then 0
    else
      var f := fs[|fs| - 1];
      if f.Num() == SIZE && SizeValue(f) >= MIN_SIZE then SizeValue(f) else LastSize(fs[..|fs| - 1])
  }

  ghost predicate AllAccepted(fs: seq<Field>) {
    forall f :: f in fs ==> Accepts(f)
  }

  /** What the fields say, in the order object id, path, size, digest. */
  function Gathered(fs: seq<Field>): NamedEntry {
    NamedEntry(LastBody(fs, OBJECT_ID), Entry(LastBody(fs, PATH), LastSize(fs), LastBody(fs, MD5)))
  }

  ghost function EntryOfFields(fs: seq<Field>): Option<NamedEntry> {
    var e := Gathered(fs);
    if !AllAccepted(fs) || e.id == [] || e.entry.path == [] then None else Some(e)
  }

  /** An entry must be read to its last byte. */
  ghost function EntryOf(s: Bytes): Option<NamedEntry> {
    var p := Split(s);
    if p.rest != [] then None else EntryOfFields(p.fields)
  }

  /** Entries of a file in order, a later entry replacing an earlier one with the same object id. */
  ghost function IndexOfFields(fs: seq<Field>): Index {
    if fs == [] then map[]
    else
      var f, idx := fs[|fs| - 1], IndexOfFields(fs[..|fs| - 1]);
      var e := if f.Wire() == 2 then EntryOf(f.body) else None;
      if e.Some? then idx[e.value.id := e.value.entry] else idx
  }

  ghost function IndexOf(s: Bytes): Index {
    IndexOfFields(Split(s).fields)
  }

  // ---- The code ----

  method SkipProtoField(wireType: int, data: Bytes, offset: nat) returns (next: nat, ok: bool)
    requires offset <= |data|
    ensures ok <==> ValueSize(wireType, data[offset..]).Some?
    ensures next == if ok then offset + ValueSize(wireType, data[offset..]).value else 0
  {
    if wireType == 0 {
      var _, n := ReadVarint(data[offset..]);
      if n == 0 {
        return 0, false;
      }
      return offset + n, true;
    } else if wireType == 1 {
      if offset + 8 > |data| {
        return 0, false;
      }
      return offset + 8, true;
    } else if wireType == 2 {
      var length, n := ReadVarint(data[offset..]);
      if n == 0 || length < 0 || offset + n + length > |data| {
        return 0, false;
      }
      return offset + n + length, true;
    } else if wireType == 5 {
      if offset + 4 > |data| {
        return 0, false;
      }
      return offset + 4, true;
    } else {
      return 0, false;
    }
  }

  /** The loop has consumed the fields fs and stands at offset i. */
  ghost predicate Consumed(data: Bytes, fs: seq<Field>, i: nat) {
    && i <= |data|
    && Split(data) == Pieces(fs + Split(data[i..]).fields, Split(data[i..]).rest)
  }

  lemma {:induction false} Start(data: Bytes)
    ensures Consumed(data, [], 0)
  {
    assert data[0..] == data;
  }

  lemma {:induction false} Consume(data: Bytes, fs: seq<Field>, i: nat, f: Field)
    requires Consumed(data, fs, i) && i < |data| && FieldAt(data[i..]) == Some(f)
    ensures Consumed(data, fs + [f], i + |f.Flat()|) && f in Split(data).fields
  {
    hide FieldAt, Field.Flat;
    DropDrop(data, i, |f.Flat()|);
    Assoc(fs, [f], Split(data[i + |f.Flat()|..]).fields);
  }

  lemma {:induction false} Finished(data: Bytes, fs: seq<Field>, i: nat)
    requires Consumed(data, fs, i)
    requires i == |data| || FieldAt(data[i..]).None?
    ensures Split(data) == Pieces(fs, data[i..])
  {
    assert fs + [] == fs;
  }

  /** The loop stands at something that is no complete field of the accepted form. */
  lemma {:induction false} StuckEntry(data: Bytes, fs: seq<Field>, i: nat)
    requires Consumed(data, fs, i) && i < |data|
    requires FieldAt(data[i..]).Some? ==> !Accepts(FieldAt(data[i..]).value)
    ensures EntryOf(data) == None
  {
    hide FieldAt, Accepts, LastBody, LastSize;
    if FieldAt(data[i..]).Some? {
      Consume(data, fs, i, FieldAt(data[i..]).value);
    } else {
      Finished(data, fs, i);
    }
  }

  lemma Gather(fs: seq<Field>, f: Field)
    ensures var g, h := Gathered(fs), Gathered(fs + [f]);
            && h.id == (if f.Num() == OBJECT_ID then f.body else g.id)
            && h.entry.path == (if f.Num() == PATH then f.body else g.entry.path)
            && h.entry.md5 == (if f.Num() == MD5 then f.body else g.entry.md5)
            && h.entry.size == (if f.Num() == SIZE && SizeValue(f) >= MIN_SIZE then SizeValue(f) else g.entry.size)
  {
    hide Payload, ToInt64, Field.Key;
    assert (fs + [f])[..|fs|] == fs;
  }

  /** What reading a tag at offset i tells about the field there. */
  lemma {:induction false} TagRead(data: Bytes, i: nat, tag: int, n: nat)
    requires i <= |data| && Decode(data[i..]) == Read(tag, n) && n != 0
    ensures i + n <= |data|
    ensures FieldAt(data[i..]).Some? <==> ValueSize(tag % 8, data[i + n..]).Some?
    ensures FieldAt(data[i..]).Some? ==>
              var f, l, v := FieldAt(data[i..]).value, LengthSize(tag % 8, data[i + n..]), ValueSize(tag % 8, data[i + n..]).value;
              && f.Num() == tag / 8 && f.Wire() == tag % 8
              && |f.Flat()| == n + v
              && f.body == data[i + n + l..i + n + v]
  {
    hide Payload, SizeFrom, ValueSize, LengthSize;
    assert Decode(data[i..]).size == n;
    DropDrop(data, i, n);
    var v := ValueSize(tag % 8, data[i + n..]);
    if v.Some? {
      DropTake(data, i + n, LengthSize(tag % 8, data[i + n..]), v.value);
    }
  }

  method ParseListBinEntry(data: Bytes) returns (objectId: Bytes, entry: Entry, ok: bool)
    ensures ok <==> EntryOf(data).Some?
    ensures ok ==> EntryOf(data) == Some(NamedEntry(objectId, entry))
    ensures !ok ==> objectId == [] && entry == Entry([], 0, [])
  {
    hide FieldAt, Field.Flat, Field.Key, Split, Consumed, Decode, EntryOf, EntryOfFields, Gathered;
    objectId, entry := [], Entry([], 0, []);
    var i := 0;
    ghost var fs: seq<Field> := [];
    Start(data);
    NothingGathered();
    while i < |data|
      invariant i <= |data| && Consumed(data, fs, i) && AllAccepted(fs)
      invariant NamedEntry(objectId, entry) == Gathered(fs)
      decreases |data| - i
    {
      ghost var start, found := i, FieldAt(data[i..]);
      var tag, n := ReadVarint(data[i..]);
      if n == 0 {
        NoTag(data[i..]);
        StuckEntry(data, fs, start);
        return [], Entry([], 0, []), false;
      }
      TagRead(data, i, tag, n);
      i := i + n;
      var fieldNum := tag / 8;
      var wireType := tag % 8;
      if fieldNum == PATH || fieldNum == MD5 || fieldNum == OBJECT_ID {
        if wireType != 2 {
          StuckEntry(data, fs, start);
          return [], Entry([], 0, []), false;
        }
        var length, vn := ReadVarint(data[i..]);
        if vn == 0 || length < 0 || (fieldNum == OBJECT_ID && length <= 0) || i + vn + length > |data| {
          StuckEntry(data, fs, start);
          return [], Entry([], 0, []), false;
        }
        var text := data[i + vn..i + vn + length];
        if fieldNum == PATH {
          entry := entry.(path := text);
        } else if fieldNum == MD5 {
          entry := entry.(md5 := text);
        } else {
          objectId := text;
        }
        i := i + vn + length;
      } else if fieldNum == SIZE {
        if wireType != 0 {
          StuckEntry(data, fs, start);
          return [], Entry([], 0, []), false;
        }
        var size, vn := ReadVarint(data[i..]);
        if vn == 0 {
          StuckEntry(data, fs, start);
          return [], Entry([], 0, []), false;
        }
        VarintBody(data, i, size, vn);
        if size >= MIN_SIZE {
          entry := entry.(size := size);
        }
        i := i + vn;
      } else {
        var next, skipped := SkipProtoField(wireType, data, i);
        if !skipped {
          StuckEntry(data, fs, start);
          return [], Entry([], 0, []), false;
        }
        i := next;
      }
      Consume(data, fs, start, found.value);
      Gather(fs, found.value);
      fs := fs + [found.value];
    }
    Finished(data, fs, i);
    EntryComplete(data, fs);
    if objectId == [] || entry.path == [] {
      return [], Entry([], 0, []), false;
    }
    ok := true;
  }

  lemma NothingGathered()
    ensures Gathered([]) == NamedEntry([], Entry([], 0, []))
  {
  }

  lemma {:induction false} NoTag(s: Bytes)
    requires Decode(s).size == 0
    ensures FieldAt(s).None?
  {
  }

  lemma {:induction false} VarintBody(data: Bytes, i: nat, value: int, n: nat)
    requires i <= |data| && Decode(data[i..]) == Read(value, n) && n != 0
    ensures i + n <= |data| && ToInt64(Payload(data[i..i + n])) == value
  {
    hide Payload, ToInt64;
    assert Decode(data[i..]).size == n;
    DropTake(data, i, 0, n);
  }

  lemma {:induction false} EntryComplete(data: Bytes, fs: seq<Field>)
    requires Split(data) == Pieces(fs, []) && AllAccepted(fs)
    ensures var e := Gathered(fs);
            EntryOf(data) == if e.id == [] || e.entry.path == [] then None else Some(e)
  {
  }

  method ParseListBin(data: Bytes) returns (idx: Index)
    ensures idx == IndexOf(data)
  {
    hide FieldAt, Field.Flat, Field.Key, Split, Consumed, Decode, EntryOf, IndexOfFields;
    idx := map[];
    var i := 0;
    ghost var fs: seq<Field> := [];
    Start(data);
    ghost var at := 0;
    EmptyIndex();
    while i < |data|
      invariant at == i <= |data| && Consumed(data, fs, at)
      invariant idx == IndexOfFields(fs)
      decreases |data| - i
    {
      ghost var found := FieldAt(data[at..]);
      var tag, n := ReadVarint(data[i..]);
      if n == 0 {
        NoTag(data[i..]);
        break;
      }
      TagRead(data, i, tag, n);
      i := i + n;
      var wireType := tag % 8;
      var taken := false;
      if wireType == 2 {
        var length, vn := ReadVarint(data[i..]);
        if vn == 0 || length < 0 || i + vn + length > |data| {
          break;
        }
        var entryBytes := data[i + vn..i + vn + length];
        var objectId, entry, ok := ParseListBinEntry(entryBytes);
        if ok {
          idx := idx[objectId := entry];
          i := i + vn + length;
          taken := true;
        }
      }
      if !taken {
        var next, ok := SkipProtoField(wireType, data, i);
        if !ok {
          break;
        }
        i := next;
      }
      Consume(data, fs, at, found.value);
      IndexSnoc(fs, found.value);
      fs := fs + [found.value];
      at := i;
    }
    Finished(data, fs, at);
  }

  lemma EmptyIndex()
    ensures IndexOfFields([]) == map[]
  {
  }

  lemma IndexSnoc(fs: seq<Field>, f: Field)
    ensures var e := if f.Wire() == 2 then EntryOf(f.body) else None;
            IndexOfFields(fs + [f]) ==
              if e.Some? then IndexOfFields(fs)[e.value.id := e.value.entry] else IndexOfFields(fs)
  {
    hide EntryOf, Field.Key;
    assert (fs + [f])[..|fs|] == fs;
  }
}
