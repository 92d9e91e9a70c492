/** Base 128 varints as listbin.go reads them: at most ten bytes, seven payload bits each,
    least significant group first, assembled in a 64-bit two's complement integer. */
module Varint {

  type Byte = b: int | 0 <= b < 256

  const MAX_BYTES := 10
  const TWO_63 := 0x8000_0000_0000_0000
  const TWO_64 := 0x1_0000_0000_0000_0000

  /** Result of a read; size 0 stands for "no varint here". */
  datatype Read = Read(value: int, size: nat)

  /** 128^k, the weight of byte k. */
  function Weight(k: nat): (w: nat)
    ensures w > 0
  {
    if k == 0 then 1 else 128 * Weight(k - 1)
  }

  /** The natural number spelled by the payload bits of s. */
  function Payload(s: seq<Byte>): (v: nat)
  {
    if s == [] then 0 else s[0] % 128 + 128 * Payload(s[1..])
  }

  /** Reinterpretation of a natural number as int64. */
  function ToInt64(v: nat): int {
    var m := v % TWO_64;
    if m < TWO_63 then m else m - TWO_64
  }

  /** Length of the varint at the start of s, or 0 when s ends, or ten bytes pass, before a final byte. */
  function SizeFrom(s: seq<Byte>, k: nat): (n: nat)
    requires k <= |s|
    ensures n == 0 || (k < n <= |s| && n <= MAX_BYTES && s[n - 1] < 128)
    ensures n == 0 ==> forall j :: k <= j < |s| && j < MAX_BYTES ==> s[j] >= 128
    ensures n != 0 ==> forall j :: k <= j < n - 1 ==> s[j] >= 128
    decreases |s| - k
  {
    if k == |s| || k >= MAX_BYTES then 0
    else if s[k] < 128 then k + 1
    else SizeFrom(s, k + 1)
  }

  function Decode(s: seq<Byte>): (r: Read)
    ensures r.size <= |s| && r.size <= MAX_BYTES
  {
    var n := SizeFrom(s, 0);
    if n == 0 then Read(0, 0) else Read(ToInt64(Payload(s[..n])), n)
  }

  /** Exactly one varint, in any (also a padded) spelling. */
  predicate IsVarint(s: seq<Byte>) {
    |s| > 0 && SizeFrom(s, 0) == |s|
  }

  // ---- The loop ----

  lemma {:induction false} PayloadSnoc(s: seq<Byte>, b: Byte)
    ensures Payload(s + [b]) == Payload(s) + b % 128 * Weight(|s|)
  {
    if s == [] {
      assert s + [b] == [b] && [b][1..] == [];
    } else {
      assert (s + [b])[0] == s[0] && (s + [b])[1..] == s[1..] + [b];
      PayloadSnoc(s[1..], b);
    }
  }

  lemma {:induction false} PayloadBound(s: seq<Byte>)
    ensures Payload(s) < Weight(|s|)
  {
    if s != [] {
      PayloadBound(s[1..]);
    }
  }

  lemma WeightOfTopByte()
    ensures Weight(9) == TWO_63
  {
    assert Weight(3) == 128 * 128 * 128;
    assert Weight(6) == Weight(3) * 128 * 128 * 128;
    assert Weight(9) == Weight(6) * 128 * 128 * 128;
  }

  lemma WeightMonotone(i: nat, j: nat)
    requires i <= j
    ensures Weight(i) <= Weight(j)
  {
  }

  /** The tenth byte keeps one bit: it becomes the sign. */
  lemma TopByte(low: nat, b: Byte)
    requires low < TWO_63
    ensures ToInt64(low + b % 128 * TWO_63) == low - b % 2 * TWO_63
  {
    var q := b % 128 / 2;
    assert b % 128 == 2 * q + b % 2;
    var v := low + b % 128 * TWO_63;
    assert v == (low + b % 2 * TWO_63) + q * TWO_64;
    assert v % TWO_64 == low + b % 2 * TWO_63;
  }

  /** Adding byte i's group; the tenth byte's sets the sign. */
  lemma {:induction false} NextGroup(b: seq<Byte>, i: nat)
    requires i < |b| && i < MAX_BYTES
    ensures i < 9 ==>
      Payload(b[..i + 1]) == Payload(b[..i]) + b[i] % 128 * Weight(i) == ToInt64(Payload(b[..i + 1]))
    ensures i == 9 ==> ToInt64(Payload(b[..i + 1])) == Payload(b[..i]) - b[i] % 2 * TWO_63
  {
    hide Payload;
    WeightOfTopByte();
    assert b[..i + 1] == b[..i] + [b[i]];
    PayloadSnoc(b[..i], b[i]);
    PayloadBound(b[..i]);
    if i < 9 {
      PayloadBound(b[..i + 1]);
      WeightMonotone(i + 1, 9);
    } else {
      TopByte(Payload(b[..i]), b[i]);
    }
  }

  /** listbin.go's loop. "value |= int(b&0x7f) << (7*i)" adds, because the bit groups are disjoint;
      at i = 9 the shift by 63 keeps the lowest bit only, and that bit is the sign. */
  method ReadVarint(b: seq<Byte>) returns (value: int, n: nat)
    ensures Read(value, n) == Decode(b)
  {
    value, n := 0, 0;
    var i := 0;
    while i < |b| && i < MAX_BYTES
      invariant i <= |b| && i <= MAX_BYTES
      invariant SizeFrom(b, i) == SizeFrom(b, 0)
      invariant i < MAX_BYTES ==> value == Payload(b[..i])
      decreases |b| - i
    {
      hide Payload, ToInt64, Weight;
      NextGroup(b, i);
      if i < 9 {
        value := value + b[i] % 128 * Weight(i);
      } else {
        value := value - b[i] % 2 * TWO_63;
      }
      n := i + 1;
      if b[i] < 128 {
        return;
      }
      i := i + 1;
    }
    return 0, 0;
  }

  // ---- Encoding ----

  function Encode(v: nat): (s: seq<Byte>)
    ensures |s| > 0
  {
    if v < 128 then [v] else [v % 128 + 128] + Encode(v / 128)
  }

  lemma {:induction false} EncodeSpells(v: nat)
    ensures Payload(Encode(v)) == v
    ensures Encode(v)[|Encode(v)| - 1] < 128
    ensures forall j :: 0 <= j < |Encode(v)| - 1 ==> Encode(v)[j] >= 128
  {
    if v >= 128 {
      EncodeSpells(v / 128);
      assert Encode(v)[1..] == Encode(v / 128);
    }
  }

  lemma {:induction false} EncodeLength(v: nat, k: nat)
    requires v < Weight(k) && k > 0
    ensures |Encode(v)| <= k
  {
    if v >= 128 {
      EncodeLength(v / 128, k - 1);
    }
  }

  lemma {:induction false} SizeIs(s: seq<Byte>, k: nat, n: nat)
    requires k < n <= |s| && n <= MAX_BYTES
    requires s[n - 1] < 128 && forall j :: k <= j < n - 1 ==> s[j] >= 128
    ensures SizeFrom(s, k) == n
    decreases n - k
  {
    if k < n - 1 {
      SizeIs(s, k + 1, n);
    }
  }

  lemma EncodeIsVarint(v: nat)
    requires v < TWO_64
    ensures IsVarint(Encode(v))
    ensures Payload(Encode(v)) == v
  {
    WeightOfTopByte();
    assert Weight(10) == 128 * Weight(9);
    EncodeSpells(v);
    EncodeLength(v, 10);
    SizeIs(Encode(v), 0, |Encode(v)|);
  }

  /** Reading undoes writing, whatever follows; values from 2^63 come back as negative int64s. */
  lemma {:induction false} DecodeVarint(s: seq<Byte>, rest: seq<Byte>)
    requires IsVarint(s)
    ensures Decode(s + rest) == Read(ToInt64(Payload(s)), |s|)
  {
    SizeIs(s + rest, 0, |s|);
    assert (s + rest)[..|s|] == s;
  }

  lemma {:induction false} RoundTrip(v: nat, rest: seq<Byte>)
    requires v < TWO_64
    ensures Decode(Encode(v) + rest) == Read(ToInt64(v), |Encode(v)|)
  {
    EncodeIsVarint(v);
    DecodeVarint(Encode(v), rest);
  }

  /** No proper prefix of a varint reads as a varint. */
  lemma {:induction false} CutVarint(s: seq<Byte>, k: nat)
    requires IsVarint(s) && k < |s|
    ensures Decode(s[..k]).size == 0
  {
  }
}
