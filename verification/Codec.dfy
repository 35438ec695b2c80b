/** The protobuf wire codec: varints, the field writer, and the decoder that groups by field number. */
module Codec {
  import opened Wrappers

  type byte = b: int | 0 <= b < 256

  type bytes = seq<byte>

  const TWO_64: nat := 0x1_0000_0000_0000_0000

  /** A double as its bit pattern. */
  type bits64 = n: nat | n < 0x1_0000_0000_0000_0000

  datatype Error =
    | TruncatedVarint | TruncatedField | BadWire(wire: nat, field: nat)
    | NotBytes | BadText | TooWide | NotText | NoValue

  // --- varints ---

  function VarBytes(n: nat): bytes {
    if n < 128 then [n] else [n % 128 + 128] + VarBytes(n / 128)
  }

  /** A negative number goes out as its 64-bit two's complement. */
  function AsUnsigned(v: int): nat {
    if v < 0 then v % TWO_64 else v
  }

  /** The value of the varint `s` starts with, and how many bytes it takes. */
  function ReadVar(s: bytes): Result<(nat, nat), Error> {
    if s == [] then Err(TruncatedVarint)
    else if s[0] < 128 then Ok((s[0], 1))
    else
      var r :- ReadVar(s[1..]);
      Ok((s[0] - 128 + 128 * r.0, r.1 + 1))
  }

  lemma {:induction false} ReadVarTakes(s: bytes)
    ensures ReadVar(s).Ok? ==> 1 <= ReadVar(s).value.1 <= |s|
  {
    if s != [] && s[0] >= 128 {
      ReadVarTakes(s[1..]);
    }
  }

  /** A varint reads back, whatever follows it. */
  lemma {:induction false} VarRoundTrip(n: nat, rest: bytes)
    ensures ReadVar(VarBytes(n) + rest) == Ok((n, |VarBytes(n)|))
  {
    if n >= 128 {
      VarRoundTrip(n / 128, rest);
      assert (VarBytes(n) + rest)[1..] == VarBytes(n / 128) + rest;
    }
  }

  /** Emit seven bits at a time until nothing is left. */
  method EncodeVarint(value: int) returns (out: bytes)
    ensures out == VarBytes(AsUnsigned(value))
  {
    var v: nat := AsUnsigned(value);
    out := [];
    var b := v % 128;
    v := v / 128;
    while v != 0
      invariant 0 <= b < 128
      invariant out + VarBytes(b + 128 * v) == VarBytes(AsUnsigned(value))
      decreases v
    {
      assert (b + 128 * v) % 128 == b && (b + 128 * v) / 128 == v;
      assert out + VarBytes(b + 128 * v) == (out + [b + 128]) + VarBytes(v);
      out := out + [b + 128];
      b := v % 128;
      v := v / 128;
    }
    out := out + [b];
  }

  /** What is still to be read at `p` completes what was read from `start`. */
  predicate ReadSoFar(data: bytes, start: nat, p: nat, val: nat, weight: nat)
    requires start <= p <= |data|
  {
    match ReadVar(data[p..])
    case Ok(got) => ReadVar(data[start..]) == Ok((val + weight * got.0, p - start + got.1))
    case Err(e) => ReadVar(data[start..]) == Err(e)
  }

  lemma ReadStep(data: bytes, start: nat, p: nat, val: nat, weight: nat)
    requires start <= p < |data| && ReadSoFar(data, start, p, val, weight)
    ensures data[p] >= 128 ==> ReadSoFar(data, start, p + 1, val + weight * (data[p] % 128), weight * 128)
    ensures data[p] < 128 ==> ReadVar(data[start..]) == Ok((val + weight * (data[p] % 128), p + 1 - start))
  {
    var b := data[p];
    assert data[p..][0] == b && data[p..][1..] == data[p + 1..];
    if b >= 128 && ReadVar(data[p + 1..]).Ok? {
      Weigh(val, weight, b - 128, ReadVar(data[p + 1..]).value.0);
      assert b % 128 == b - 128;
    }
  }

  lemma ReadStart(data: bytes, start: nat)
    requires start <= |data|
    ensures ReadSoFar(data, start, start, 0, 1)
  {
  }

  lemma ReadOver(data: bytes, start: nat, val: nat, weight: nat)
    requires start <= |data| && ReadSoFar(data, start, |data|, val, weight)
    ensures ReadVar(data[start..]) == Err(TruncatedVarint)
  {
  }

  /** Accumulate seven bits a byte; the bits never overlap, so `|=` is addition. */
  method ReadVarint(data: bytes, start: nat) returns (r: Result<(nat, nat), Error>)
    requires start <= |data|
    ensures match ReadVar(data[start..])
            case Ok(got) => r == Ok((got.0, start + got.1))
            case Err(e) => r == Err(e)
  {
    hide ReadSoFar;
    var p, val: nat, weight: nat := start, 0, 1;
    assert ReadSoFar(data, start, p, val, weight) by { ReadStart(data, start); }
    while true
      invariant start <= p <= |data|
      invariant ReadSoFar(data, start, p, val, weight)
      decreases |data| - p
    {
      if p >= |data| {
        ReadOver(data, start, val, weight);
        return Err(TruncatedVarint);
      }
      var b := data[p];
      ReadStep(data, start, p, val, weight);
      p := p + 1;
      val := val + weight * (b % 128);
      if b < 128 {
        return Ok((val, p));
      }
      weight := weight * 128;
    }
  }

  lemma Weigh(val: nat, weight: nat, low: nat, high: nat)
    ensures val + weight * (low + 128 * high) == val + weight * low + weight * 128 * high
  {
  }

  // --- fields on the wire ---

  datatype Value = Num(n: nat) | Raw(raw: bytes)

  /** A field as it is written. */
  datatype Field = Var(no: nat, v: int) | Len(no: nat, data: bytes) | Fix64(no: nat, bits: bits64)

  function Little(n: nat, width: nat): bytes
    ensures |Little(n, width)| == width
  {
    if width == 0 then [] else [n % 256] + Little(n / 256, width - 1)
  }

  function FromLittle(s: bytes): nat {
    if s == [] then 0 else s[0] + 256 * FromLittle(s[1..])
  }

  function Power(n: nat): nat { if n == 0 then 1 else 256 * Power(n - 1) }

  lemma {:induction false} LittleRoundTrip(n: nat, width: nat)
    requires n < Power(width)
    ensures FromLittle(Little(n, width)) == n
  {
    if width > 0 {
      LittleRoundTrip(n / 256, width - 1);
    }
  }

  function Tag(no: nat, wire: nat): bytes { VarBytes(8 * no + wire) }

  function EncodeField(f: Field): bytes {
    match f
    case Var(no, v) => Tag(no, 0) + VarBytes(AsUnsigned(v))
    case Len(no, data) => Tag(no, 2) + VarBytes(|data|) + data
    case Fix64(no, bits) => Tag(no, 1) + Little(bits, 8)
  }

  function Encode(fs: seq<Field>): bytes {
    if fs == [] then [] else Encode(fs[..|fs| - 1]) + EncodeField(fs[|fs| - 1])
  }

  /** Fields are appended in call order. */
  class Writer {
    var buf: bytes
    ghost var fields: seq<Field>

    ghost predicate Valid()
      reads this
    {
      buf == Encode(fields)
    }

    constructor ()
      ensures Valid() && fields == [] && buf == []
    {
      buf, fields := [], [];
    }

    method Uint64(no: nat, value: Option<int>)
      requires Valid()
      modifies this
      ensures Valid() && fields == old(fields) + (if value.None? then [] else [Var(no, value.value)])
    {
      if value.Some? {
        var tag := EncodeVarint(8 * no);
        var v := EncodeVarint(value.value);
        Append(Var(no, value.value), tag + v);
      }
    }

    method Bool(no: nat, value: Option<bool>)
      requires Valid()
      modifies this
      ensures Valid() && fields == old(fields) + (if value.None? then [] else [Var(no, if value.value then 1 else 0)])
    {
      if value.Some? {
        Uint64(no, Some(if value.value then 1 else 0));
      }
    }

    method Bytes(no: nat, value: Option<bytes>)
      requires Valid()
      modifies this
      ensures Valid() && fields == old(fields) + (if value.None? then [] else [Len(no, value.value)])
    {
      if value.Some? {
        var tag := EncodeVarint(8 * no + 2);
        var n := EncodeVarint(|value.value|);
        Append(Len(no, value.value), tag + n + value.value);
      }
    }

    method Double(no: nat, bits: Option<bits64>)
      requires Valid()
      modifies this
      ensures Valid() && fields == old(fields) + (if bits.None? then [] else [Fix64(no, bits.value)])
    {
      if bits.Some? {
        var tag := EncodeVarint(8 * no + 1);
        Append(Fix64(no, bits.value), tag + Little(bits.value, 8));
      }
    }

    method Append(ghost f: Field, enc: bytes)
      requires Valid() && enc == EncodeField(f)
      modifies this
      ensures Valid() && fields == old(fields) + [f] && buf == old(buf) + enc
    {
      assert (fields + [f])[..|fields|] == fields;
      buf := buf + enc;
      fields := fields + [f];
    }
  }

  // --- decoding ---

  function Min(a: nat, b: nat): nat { if a < b then a else b }

  /** One field from the front: its number, its value, and the bytes it takes. A fixed-width value at
      the end of the data may be cut short and is read from what there is. */
  function Token(s: bytes): Result<(nat, Value, nat), Error>
    requires s != []
  {
    var t :- ReadVar(s);
    ReadVarTakes(s);
    var no, wire, s1 := t.0 / 8, t.0 % 8, s[t.1..];
    if wire == 0 then
      var v :- ReadVar(s1);
      Ok((no, Num(v.0), t.1 + v.1))
    else if wire == 2 then
      var l :- ReadVar(s1);
      ReadVarTakes(s1);
      if |s1| - l.1 < l.0 then Err(TruncatedField)
      else Ok((no, Raw(s1[l.1..l.1 + l.0]), t.1 + l.1 + l.0))
    else if wire == 1 then Ok((no, Num(FromLittle(s1[..Min(8, |s1|)])), t.1 + Min(8, |s1|)))
    else if wire == 5 then Ok((no, Num(FromLittle(s1[..Min(4, |s1|)])), t.1 + Min(4, |s1|)))
    else Err(BadWire(wire, no))
  }

  lemma TokenTakes(s: bytes)
    requires s != []
    ensures Token(s).Ok? ==> 1 <= Token(s).value.2 <= |s|
  {
    ReadVarTakes(s);
    if ReadVar(s).Ok? {
      ReadVarTakes(s[ReadVar(s).value.1..]);
    }
  }

  /** The fields in order. */
  function Tokens(s: bytes): Result<seq<(nat, Value)>, Error>
    decreases |s|
  {
    if s == [] then Ok([])
    else
      var t :- Token(s);
      TokenTakes(s);
      var more :- Tokens(s[t.2..]);
      Ok([(t.0, t.1)] + more)
  }

  function Having(ts: seq<(nat, Value)>, no: nat): seq<Value> {
    if ts == [] then []
    else Having(ts[..|ts| - 1], no) + if ts[|ts| - 1].0 == no then [ts[|ts| - 1].1] else []
  }

  /** Field number to its values, in order of appearance. */
  function Group(ts: seq<(nat, Value)>): map<nat, seq<Value>> {
    map no | no in Numbers(ts) :: Having(ts, no)
  }

  function DecodeFields(s: bytes): Result<map<nat, seq<Value>>, Error> {
    var ts :- Tokens(s);
    Ok(Group(ts))
  }

  function Numbers(ts: seq<(nat, Value)>): set<nat> { set t | t in ts :: t.0 }

  lemma NumbersSnoc(ts: seq<(nat, Value)>, no: nat, v: Value)
    ensures Numbers(ts + [(no, v)]) == Numbers(ts) + {no}
  {
  }

  lemma GroupSnoc(ts: seq<(nat, Value)>, no: nat, v: Value)
    ensures Group(ts + [(no, v)]) == Group(ts)[no := (if no in Group(ts) then Group(ts)[no] else []) + [v]]
  {
    hide Numbers;
    var all := ts + [(no, v)];
    assert all[..|ts|] == ts && all[|ts|] == (no, v);
    NumbersSnoc(ts, no, v);
    forall k ensures Having(all, k) == Having(ts, k) + if k == no then [v] else [] {}
    if no !in Group(ts) {
      NumbersNone(ts, no);
      HavingNone(ts, no);
    }
    assert Group(all).Keys == Group(ts).Keys + {no};
    forall k | k in Group(all)
      ensures Group(all)[k] == if k != no then Group(ts)[k] else (if no in Group(ts) then Group(ts)[no] else []) + [v]
    {
      assert k != no ==> k in Group(ts);
    }
  }

  lemma NumbersNone(ts: seq<(nat, Value)>, no: nat)
    requires no !in Numbers(ts)
    ensures forall t :: t in ts ==> t.0 != no
  {
  }

  lemma {:induction false} HavingNone(ts: seq<(nat, Value)>, no: nat)
    requires forall t :: t in ts ==> t.0 != no
    ensures Having(ts, no) == []
  {
    if ts != [] {
      assert ts[|ts| - 1] in ts;
      HavingNone(ts[..|ts| - 1], no);
    }
  }

  /** The field at `pos`, and where the next one starts. */
  method NextField(data: bytes, pos: nat) returns (r: Result<(nat, Value, nat), Error>)
    requires pos < |data|
    ensures match Token(data[pos..])
            case Ok(t) => r == Ok((t.0, t.1, pos + t.2))
            case Err(e) => r == Err(e)
  {
    hide FromLittle, ReadVar;
    ghost var s := data[pos..];
    var tag := ReadVarint(data, pos);
    if tag.Err? { return Err(tag.error); }
    ReadVarTakes(s);
    var at := tag.value.1;
    ghost var s1 := s[at - pos..];
    assert s1 == data[at..];
    ReadVarTakes(s1);
    var no, wire := tag.value.0 / 8, tag.value.0 % 8;
    if wire == 0 {
      var v := ReadVarint(data, at);
      if v.Err? { return Err(v.error); }
      r := Ok((no, Num(v.value.0), v.value.1));
    } else if wire == 2 {
      var l := ReadVarint(data, at);
      if l.Err? { return Err(l.error); }
      var from, n := l.value.1, l.value.0;
      if |data| - from < n { return Err(TruncatedField); }
      assert data[from..from + n] == s1[from - at..from - at + n];
      r := Ok((no, Raw(data[from..from + n]), from + n));
    } else if wire == 1 {
      var n := Min(8, |data| - at);
      assert data[at..at + n] == s1[..n];
      r := Ok((no, Num(FromLittle(data[at..at + n])), at + n));
    } else if wire == 5 {
      var n := Min(4, |data| - at);
      assert data[at..at + n] == s1[..n];
      r := Ok((no, Num(FromLittle(data[at..at + n])), at + n));
    } else {
      r := Err(BadWire(wire, no));
    }
  }

  /** Take fields off the front until the data ends, appending each to its number's list. */
  method DecodeFieldsLoop(data: bytes) returns (r: Result<map<nat, seq<Value>>, Error>)
    ensures r == DecodeFields(data)
  {
    hide Token, Group;
    var pos, out := 0, map[];
    ghost var seen: seq<(nat, Value)> := [];
    GroupNone();
    assert data[0..] == data;
    if Tokens(data).Ok? {
      assert [] + Tokens(data).value == Tokens(data).value;
    }
    while pos < |data|
      invariant 0 <= pos <= |data|
      invariant out == Group(seen)
      invariant match Tokens(data[pos..])
                case Ok(ts) => Tokens(data) == Ok(seen + ts)
                case Err(e) => Tokens(data) == Err(e)
    {
      ghost var s := data[pos..];
      TokenTakes(s);
      var t := NextField(data, pos);
      if t.Err? { return Err(t.error); }
      var (no, val, at) := t.value;
      assert s[at - pos..] == data[at..];
      GroupSnoc(seen, no, val);
      if Tokens(data[at..]).Ok? {
        var ts := Tokens(data[at..]).value;
        assert (seen + [(no, val)]) + ts == seen + ([(no, val)] + ts);
      }
      seen := seen + [(no, val)];
      out := out[no := (if no in out then out[no] else []) + [val]];
      pos := at;
    }
    assert data[pos..] == [];
    assert seen + [] == seen;
    r := Ok(out);
  }

  lemma GroupNone()
    ensures Group([]) == map[]
  {
  }

  // --- what was written is what is read ---

  function AsRead(f: Field): (nat, Value) {
    match f
    case Var(no, v) => (no, Num(AsUnsigned(v)))
    case Len(no, data) => (no, Raw(data))
    case Fix64(no, bits) => (no, Num(bits))
  }

  function AllRead(fs: seq<Field>): seq<(nat, Value)> {
    seq(|fs|, i requires 0 <= i < |fs| => AsRead(fs[i]))
  }

  lemma TagReads(no: nat, wire: nat, rest: bytes)
    requires wire < 8
    ensures ReadVar(Tag(no, wire) + rest) == Ok((8 * no + wire, |Tag(no, wire)|))
    ensures (8 * no + wire) / 8 == no && (8 * no + wire) % 8 == wire
    ensures (Tag(no, wire) + rest)[|Tag(no, wire)|..] == rest
  {
    VarRoundTrip(8 * no + wire, rest);
  }

  lemma FieldReads(f: Field, rest: bytes)
    ensures EncodeField(f) != []
    ensures Token(EncodeField(f) + rest) == Ok((AsRead(f).0, AsRead(f).1, |EncodeField(f)|))
  {
    hide VarBytes, ReadVar, FromLittle, Little, Tag;
    var s := EncodeField(f) + rest;
    match f
    case Var(no, v) =>
      var body := VarBytes(AsUnsigned(v));
      assert s == Tag(no, 0) + (body + rest);
      TagReads(no, 0, body + rest);
      TagSome(no, 0);
      VarRoundTrip(AsUnsigned(v), rest);
    case Len(no, data) =>
      var n := VarBytes(|data|);
      assert s == Tag(no, 2) + (n + (data + rest));
      TagReads(no, 2, n + (data + rest));
      TagSome(no, 2);
      VarRoundTrip(|data|, data + rest);
      assert (n + (data + rest))[|n|..|n| + |data|] == data;
    case Fix64(no, bits) =>
      var n := Little(bits, 8);
      assert s == Tag(no, 1) + (n + rest);
      TagReads(no, 1, n + rest);
      TagSome(no, 1);
      EightBytes();
      LittleRoundTrip(bits, 8);
      assert (n + rest)[..8] == n;
  }

  lemma TagSome(no: nat, wire: nat)
    ensures Tag(no, wire) != []
  {
  }

  lemma EightBytes()
    ensures Power(8) == TWO_64
  {
  }

  lemma {:induction false} EncodeBoth(a: seq<Field>, b: seq<Field>)
    ensures Encode(a + b) == Encode(a) + Encode(b)
    decreases |b|
  {
    hide EncodeField;
    if b == [] {
      assert a + b == a;
    } else {
      var m := |b| - 1;
      EncodeBoth(a, b[..m]);
      assert (a + b)[..|a| + m] == a + b[..m] && (a + b)[|a| + m] == b[m];
      Join(Encode(a), Encode(b[..m]), EncodeField(b[m]));
    }
  }

  lemma Join(a: bytes, b: bytes, c: bytes)
    ensures a + b + c == a + (b + c)
  {
  }

  /** Every list of fields reads back as written, in order. */
  lemma {:induction false} TokensRoundTrip(fs: seq<Field>)
    ensures Tokens(Encode(fs)) == Ok(AllRead(fs))
  {
    hide Token, EncodeField;
    if fs == [] {
      assert AllRead(fs) == [];
    } else {
      EncodeBoth([fs[0]], fs[1..]);
      assert [fs[0]] + fs[1..] == fs;
      EncodeOne(fs[0]);
      var rest := Encode(fs[1..]);
      FieldReads(fs[0], rest);
      TokensRoundTrip(fs[1..]);
      var s := Encode(fs);
      assert s == EncodeField(fs[0]) + rest && s != [];
      assert s[|EncodeField(fs[0])|..] == rest;
      assert AllRead(fs) == [AsRead(fs[0])] + AllRead(fs[1..]);
    }
  }

  lemma EncodeOne(f: Field)
    ensures Encode([f]) == EncodeField(f)
  {
  }

  /** Any message a writer made decodes to its fields grouped by number. */
  lemma DecodeRoundTrip(fs: seq<Field>)
    ensures DecodeFields(Encode(fs)) == Ok(Group(AllRead(fs)))
  {
    TokensRoundTrip(fs);
  }

  lemma {:induction false} HavingBoth(a: seq<(nat, Value)>, b: seq<(nat, Value)>, no: nat)
    ensures Having(a + b, no) == Having(a, no) + Having(b, no)
    decreases |b|
  {
    if b == [] {
      assert a + b == a;
    } else {
      var m := |b| - 1;
      HavingBoth(a, b[..m], no);
      assert (a + b)[..|a| + m] == a + b[..m] && (a + b)[|a| + m] == b[m];
    }
  }

  lemma OneField(a: Field)
    ensures DecodeFields(Encode([a])) == Ok(map[a.no := [AsRead(a).1]])
  {
    hide Group, Encode, DecodeFields;
    DecodeRoundTrip([a]);
    assert AsRead(a) == (a.no, AsRead(a).1);
    assert AllRead([a]) == [] + [(a.no, AsRead(a).1)];
    GroupNone();
    GroupSnoc([], a.no, AsRead(a).1);
    assert [] + [AsRead(a).1] == [AsRead(a).1];
  }

  lemma TwoFields(a: Field, b: Field)
    requires a.no != b.no
    ensures DecodeFields(Encode([a, b])) == Ok(map[a.no := [AsRead(a).1], b.no := [AsRead(b).1]])
  {
    hide Group, Encode, DecodeFields;
    DecodeRoundTrip([a, b]);
    assert AsRead(a) == (a.no, AsRead(a).1) && AsRead(b) == (b.no, AsRead(b).1);
    assert AllRead([a, b]) == ([] + [(a.no, AsRead(a).1)]) + [(b.no, AsRead(b).1)];
    GroupNone();
    GroupSnoc([], a.no, AsRead(a).1);
    GroupSnoc([] + [(a.no, AsRead(a).1)], b.no, AsRead(b).1);
    assert [] + [AsRead(a).1] == [AsRead(a).1] && [] + [AsRead(b).1] == [AsRead(b).1];
  }

  lemma Zeroes(n: nat)
    ensures Little(0, n) == seq(n, _ => 0)
  {
  }

  lemma TwoDigits(n: nat)
    ensures Little(0x0102, n + 2) == [2, 1] + seq(n, _ => 0)
  {
    Zeroes(n);
    assert Little(1, n + 1) == [1] + Little(0, n);
  }

  /** The bytes of protobuf's own encoding guide, and a negative number in ten bytes. */
  lemma KnownBytes()
    ensures EncodeField(Var(1, 150)) == [0x08, 0x96, 0x01]
    ensures EncodeField(Len(2, [0x74, 0x65, 0x73, 0x74])) == [0x12, 0x04, 0x74, 0x65, 0x73, 0x74]
    ensures EncodeField(Fix64(1, 0x0102)) == [0x09, 0x02, 0x01, 0, 0, 0, 0, 0, 0]
    ensures VarBytes(AsUnsigned(-1)) == [255, 255, 255, 255, 255, 255, 255, 255, 255, 1]
  {
    assert VarBytes(1) == [1] && VarBytes(150) == [150] + VarBytes(1);
    TwoDigits(6);
    AllOnes();
    hide Little;
    assert seq(6, _ => 0) == [0, 0, 0, 0, 0, 0];
  }

  lemma AllOnes()
    ensures VarBytes(TWO_64 - 1) == [255, 255, 255, 255, 255, 255, 255, 255, 255, 1]
  {
    assert VarBytes(1) == [1];
    assert VarBytes(0xFF) == [255] + VarBytes(1);
    assert VarBytes(0x7FFF) == [255] + VarBytes(0xFF);
    assert VarBytes(0x3F_FFFF) == [255] + VarBytes(0x7FFF);
    assert VarBytes(0x1FFF_FFFF) == [255] + VarBytes(0x3F_FFFF);
    assert VarBytes(0xF_FFFF_FFFF) == [255] + VarBytes(0x1FFF_FFFF);
    assert VarBytes(0x7FF_FFFF_FFFF) == [255] + VarBytes(0xF_FFFF_FFFF);
    assert VarBytes(0x3_FFFF_FFFF_FFFF) == [255] + VarBytes(0x7FF_FFFF_FFFF);
    assert VarBytes(0x1FF_FFFF_FFFF_FFFF) == [255] + VarBytes(0x3_FFFF_FFFF_FFFF);
    assert VarBytes(0xFFFF_FFFF_FFFF_FFFF) == [255] + VarBytes(0x1FF_FFFF_FFFF_FFFF);
  }
}
