/** Composite map keys (store/mapkey.go): int64 values in decimal, joined by colons. */
module MapKey {
  import opened Wrappers

  const TWO63 := 0x8000_0000_0000_0000

  predicate Int64(v: int) {
    -TWO63 <= v < TWO63
  }

  // ---- Decimal, as strconv writes and reads it ----

  function Digit(d: int): (c: char)
    requires 0 <= d < 10
    ensures IsDigit(c) && c as int - '0' as int == d
  {
    ('0' as int + d) as char
  }

  predicate IsDigit(c: char) {
    '0' <= c <= '9'
  }

  predicate Digits(s: string) {
    s != [] && forall c :: c in s ==> IsDigit(c)
  }

  function FormatNat(n: nat): (s: string)
    ensures Digits(s)
  {
    if n < 10 then [Digit(n)] else FormatNat(n / 10) + [Digit(n % 10)]
  }

  function Format(v: int): string {
    if v < 0 then "-" + FormatNat(-v) else FormatNat(v)
  }

  function ValueOf(s: string): nat
    requires forall c :: c in s ==> IsDigit(c)
  {
    if s == [] then 0
    else assert s[|s| - 1] in s && IsDigit(s[|s| - 1]); ValueOf(s[..|s| - 1]) * 10 + (s[|s| - 1] as int - '0' as int)
  }

  /** An optional sign, then digits; None on a syntax or range error. */
  function Parse(s: string): Option<int> {
    var signed := s != [] && (s[0] == '+' || s[0] == '-');
    var body := if signed then s[1..] else s;
    if !Digits(body) then None
    else
      var v: int := if signed && s[0] == '-' then 0 - ValueOf(body) else ValueOf(body);
      if Int64(v) then Some(v) else None
  }

  lemma {:induction false} ValueOfFormat(n: nat)
    ensures ValueOf(FormatNat(n)) == n
  {
    if n >= 10 {
      ValueOfFormat(n / 10);
      assert FormatNat(n)[..|FormatNat(n)| - 1] == FormatNat(n / 10);
    }
  }

  lemma ParseFormat(v: int)
    requires Int64(v)
    ensures Parse(Format(v)) == Some(v)
  {
    if v < 0 {
      ValueOfFormat(-v);
      assert Format(v)[1..] == FormatNat(-v);
    } else {
      ValueOfFormat(v);
      assert FormatNat(v)[0] in FormatNat(v);
    }
  }

  /** No plus sign, no leading zero, no minus zero. */
  predicate Canonical(s: string) {
    || s == "0"
    || (s != [] && s[0] != '0' && s[0] != '-' && s[0] != '+')
    || (|s| > 1 && s[0] == '-' && s[1] != '0')
  }

  lemma {:induction false} LeadingDigit(n: nat)
    ensures n > 0 ==> FormatNat(n)[0] != '0'
  {
    if n >= 10 {
      LeadingDigit(n / 10);
    }
  }

  lemma {:induction false} FormatValue(s: string)
    requires Digits(s) && s[0] != '0'
    ensures ValueOf(s) > 0 && FormatNat(ValueOf(s)) == s
  {
    var n := |s| - 1;
    assert s == s[..n] + [s[n]] && s[n] in s;
    if n == 0 {
      assert ValueOf(s[..0]) == 0;
    } else {
      assert forall c :: c in s[..n] ==> c in s;
      FormatValue(s[..n]);
      var v := ValueOf(s[..n]);
      assert ValueOf(s) / 10 == v && ValueOf(s) % 10 == s[n] as int - '0' as int;
    }
  }

  /** A number reads back as it was written exactly when it was written canonically. */
  lemma FormatParse(s: string)
    requires Parse(s).Some?
    ensures Format(Parse(s).value) == s <==> Canonical(s)
  {
    var signed := s[0] == '+' || s[0] == '-';
    var body := if signed then s[1..] else s;
    var v: int := ValueOf(body);
    LeadingDigit(v);
    assert body[0] in body;
    if body[0] != '0' {
      FormatValue(body);
    } else if body == "0" {
      assert ValueOf(body[..0]) == 0;
    }
    if s[0] == '+' {
      assert Format(v)[0] in Format(v);
    } else if s[0] == '-' {
      assert v > 0 ==> Format(-v)[1..] == FormatNat(v);
    }
  }

  // ---- Splitting and joining ----

  /** strings.Split on a colon. */
  function Split(s: string): (parts: seq<string>)
    ensures parts != []
  {
    if s == [] then [[]]
    else
      var n := |s| - 1;
      var before := Split(s[..n]);
      if s[n] == ':' then before + [[]] else before[|before| - 1 := before[|before| - 1] + [s[n]]]
  }

  function Join(parts: seq<string>): string
    requires parts != []
  {
    if |parts| == 1 then parts[0] else Join(parts[..|parts| - 1]) + ":" + parts[|parts| - 1]
  }

  lemma {:induction false} SplitLast(s: string, part: string)
    requires ':' !in part
    ensures Split(s + ":" + part) == Split(s) + [part]
  {
    if part == [] {
      assert (s + ":" + part)[..|s|] == s;
    } else {
      var n := |part| - 1;
      assert part == part[..n] + [part[n]];
      assert part[n] in part;
      SplitLast(s, part[..n]);
      assert (s + ":" + part)[..|s + ":" + part| - 1] == s + ":" + part[..n];
    }
  }

  lemma {:induction false} SplitWhole(part: string)
    requires ':' !in part
    ensures Split(part) == [part]
  {
    if part != [] {
      assert part[|part| - 1] in part;
      SplitWhole(part[..|part| - 1]);
      assert part == part[..|part| - 1] + [part[|part| - 1]];
    }
  }

  lemma {:induction false} SplitJoin(parts: seq<string>)
    requires parts != [] && forall p :: p in parts ==> ':' !in p
    ensures Split(Join(parts)) == parts
  {
    var n := |parts| - 1;
    assert parts[n] in parts;
    if n == 0 {
      SplitWhole(parts[0]);
    } else {
      assert forall p :: p in parts[..n] ==> p in parts;
      SplitJoin(parts[..n]);
      SplitLast(Join(parts[..n]), parts[n]);
      assert parts == parts[..n] + [parts[n]];
    }
  }

  lemma {:induction false} JoinSplit(s: string)
    ensures Join(Split(s)) == s
  {
    if s != [] {
      var n := |s| - 1;
      JoinSplit(s[..n]);
      var before := Split(s[..n]);
      if s[n] == ':' {
        assert (before + [[]])[..|before|] == before;
      } else {
        var k := |before| - 1;
        assert before[k := before[k] + [s[n]]][..k] == before[..k];
      }
      assert s == s[..n] + [s[n]];
    }
  }

  // ---- Keys ----

  function Formats(vals: seq<int>): seq<string> {
    seq(|vals|, i requires 0 <= i < |vals| => Format(vals[i]))
  }

  /** Indexing an empty list panics. */
  method MarshalKey(vals: seq<int>) returns (b: string)
    requires vals != []
    ensures b == Join(Formats(vals))
  {
    b := Format(vals[0]);
    for i := 1 to |vals|
      invariant b == Join(Formats(vals[..i]))
    {
      b := b + ":";
      b := b + Format(vals[i]);
      assert Formats(vals[..i + 1])[..i] == Formats(vals[..i]);
    }
    assert vals[..|vals|] == vals;
  }

  /** The n values of a key; None when there are not n parts or one is not an int64. */
  function Unmarshaled(text: string, n: int): Option<seq<int>> {
    if |Split(text)| == n && Readable(Split(text)) then Some(Values(Split(text))) else None
  }

  predicate Readable(parts: seq<string>) {
    forall i :: 0 <= i < |parts| ==> Parse(parts[i]).Some?
  }

  function Values(parts: seq<string>): seq<int>
    requires Readable(parts)
  {
    seq(|parts|, i requires 0 <= i < |parts| => Parse(parts[i]).value)
  }

  method UnmarshalKey(text: string, n: nat) returns (vals: Option<seq<int>>)
    ensures vals == Unmarshaled(text, n)
  {
    var parts := Split(text);
    if |parts| != n {
      return None;
    }
    var out := [];
    for i := 0 to |parts|
      invariant |out| == i
      invariant forall k :: 0 <= k < i ==> Parse(parts[k]) == Some(out[k])
    {
      var v := Parse(parts[i]);
      if v.None? {
        return None;
      }
      out := out + [v.value];
    }
    assert out == Values(parts);
    vals := Some(out);
  }

  lemma FormatNoColon(v: int)
    ensures ':' !in Format(v)
  {
    var s := FormatNat(if v < 0 then -v else v);
    assert forall c :: c in s ==> IsDigit(c);
    assert v < 0 ==> Format(v) == "-" + s;
  }

  lemma SplitKey(vals: seq<int>)
    requires vals != []
    ensures Split(Join(Formats(vals))) == Formats(vals)
  {
    forall p | p in Formats(vals) ensures ':' !in p {
      var i :| 0 <= i < |vals| && p == Format(vals[i]);
      FormatNoColon(vals[i]);
    }
    SplitJoin(Formats(vals));
  }

  /** Reading a key with its own arity gives the values back; with any other arity it is refused. */
  lemma KeyRoundTrip(vals: seq<int>, n: nat)
    requires vals != [] && forall v :: v in vals ==> Int64(v)
    ensures Unmarshaled(Join(Formats(vals)), n) == if n == |vals| then Some(vals) else None
  {
    SplitKey(vals);
    forall i | 0 <= i < |vals| ensures Parse(Formats(vals)[i]) == Some(vals[i]) {
      assert vals[i] in vals;
      ParseFormat(vals[i]);
    }
    assert Values(Formats(vals)) == vals;
  }

  /** Two lists of values with the same key are the same list, even of different arities. */
  lemma KeysDiffer(a: seq<int>, b: seq<int>)
    requires a != [] && b != [] && Join(Formats(a)) == Join(Formats(b))
    requires (forall v :: v in a ==> Int64(v)) && forall v :: v in b ==> Int64(v)
    ensures a == b
  {
    KeyRoundTrip(a, |a|);
    KeyRoundTrip(b, |a|);
  }

  /** A text that reads as a key is what its values are written as exactly when each part is canonical. */
  lemma KeyTextRoundTrip(text: string, n: nat)
    requires Unmarshaled(text, n).Some?
    ensures Unmarshaled(text, n).value != []
    ensures Join(Formats(Unmarshaled(text, n).value)) == text <==> forall i :: 0 <= i < |Split(text)| ==> Canonical(Split(text)[i])
  {
    var parts, vals := Split(text), Unmarshaled(text, n).value;
    JoinSplit(text);
    forall i | 0 <= i < |parts| ensures Formats(vals)[i] == parts[i] <==> Canonical(parts[i]) {
      FormatParse(parts[i]);
    }
    if Join(Formats(vals)) == text {
      SplitKey(vals);
    } else {
      assert Formats(vals) != parts;
    }
  }

  /** The key of the values 12, -3 and 0, as it is written. */
  lemma KeyAsWritten()
    ensures Join(Formats([12, -3, 0])) == "12:-3:0"
  {
    assert FormatNat(1) == "1" && FormatNat(12) == "12" && FormatNat(3) == "3" && FormatNat(0) == "0";
    var parts := Formats([12, -3, 0]);
    assert Format(-3) == "-" + "3" == "-3";
    assert parts == ["12", "-3", "0"];
    assert parts[..2] == ["12", "-3"] && parts[..2][..1] == ["12"];
    assert Join(["12", "-3"]) == "12:-3";
  }
}
