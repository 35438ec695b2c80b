/** The escrow message: a header, a table of offsets and sections that carry their own length. */
module KeyVault {
  import opened Wrappers
  import opened Codec

  /** Big-endian, in exactly `width` bytes. */
  function Big(n: nat, width: nat): (b: bytes)
    ensures |b| == width
  {
    if width == 0 then [] else Big(n / 256, width - 1) + [n % 256]
  }

  function FromBig(b: bytes): nat {
    if b == [] then 0 else 256 * FromBig(b[..|b| - 1]) + b[|b| - 1]
  }

  lemma {:induction false} BigRoundTrip(n: nat, width: nat)
    requires n < Power(width)
    ensures FromBig(Big(n, width)) == n
  {
    if width > 0 {
      BigRoundTrip(n / 256, width - 1);
      assert Big(n, width)[..width - 1] == Big(n / 256, width - 1);
    }
  }

  const LIMIT: nat := 0x1_0000_0000

  lemma FourBytes()
    ensures Power(4) == LIMIT
  {
  }

  function Zeros(n: nat): bytes { seq(n, _ => 0) }

  /** Python's slice: bounds past the end are the end. */
  function Slice(b: bytes, from: nat, to: nat): bytes {
    if from >= |b| || to <= from then [] else b[from..Min(to, |b|)]
  }

  lemma SliceInside(before: bytes, mid: bytes, after: bytes)
    ensures Slice(before + mid + after, |before|, |before| + |mid|) == mid
  {
  }

  datatype Fault = TooLong | TooSmall

  function Concat(parts: seq<bytes>): bytes {
    if parts == [] then [] else Concat(parts[..|parts| - 1]) + parts[|parts| - 1]
  }

  /** Where section `i` starts in the body. */
  function OffsetOf(parts: seq<bytes>, i: nat): nat
    requires i <= |parts|
  {
    |Concat(parts[..i])|
  }

  function Table(parts: seq<bytes>, n: nat): bytes
    requires n <= |parts| + 1
  {
    if n == 0 then [] else Table(parts, n - 1) + Big(OffsetOf(parts, n - 1), 4)
  }

  function Size(header: bytes, parts: seq<bytes>): nat {
    4 + |header| + 4 * (|parts| + 1) + |Concat(parts)|
  }

  function Packed(header: bytes, parts: seq<bytes>): bytes {
    Big(Size(header, parts), 4) + header + Table(parts, |parts| + 1) + Concat(parts)
  }

  class KeyVaultMessage {
    const header: bytes
    var sections: seq<bytes>
    ghost var contents: seq<bytes>

    /** Each section is a length, that many bytes, and any padding. */
    ghost predicate Valid()
      reads this
    {
      AllFramed(sections, contents)
    }

    constructor (header: bytes)
      ensures this.header == header && Valid() && contents == []
    {
      this.header := header;
      sections, contents := [], [];
    }

    method Section(data: bytes) returns (r: Result<(), Fault>)
      requires Valid()
      modifies this
      ensures Valid()
      ensures r == if |data| < LIMIT then Ok(()) else Err(TooLong)
      ensures contents == old(contents) + (if r.Ok? then [data] else [])
      ensures sections == old(sections) + (if r.Ok? then [Big(|data|, 4) + data] else [])
    {
      if |data| >= LIMIT { return Err(TooLong); }
      ghost var s := Big(|data|, 4) + data;
      assert s == s + Zeros(0);
      sections := sections + [Big(|data|, 4) + data];
      contents := contents + [data];
      r := Ok(());
    }

    method SectionSized(data: bytes, size: nat) returns (r: Result<(), Fault>)
      requires Valid()
      modifies this
      ensures Valid()
      ensures r == if |data| >= LIMIT then Err(TooLong) else if |data| + 4 > size then Err(TooSmall) else Ok(())
      ensures contents == old(contents) + (if r.Ok? then [data] else [])
      ensures sections == old(sections) + (if r.Ok? then [Big(|data|, 4) + data + Zeros(size - 4 - |data|)] else [])
    {
      if |data| >= LIMIT { return Err(TooLong); }
      var total := Big(|data|, 4) + data;
      if |total| > size { return Err(TooSmall); }
      sections := sections + [total + Zeros(size - |total|)];
      contents := contents + [data];
      r := Ok(());
    }

    /** Offsets are collected while the body grows, then written; any number past four bytes stops it. */
    method Pack() returns (r: Result<bytes, Fault>)
      requires Valid()
      ensures r == if Size(header, sections) < LIMIT then Ok(Packed(header, sections)) else Err(TooLong)
    {
      hide Big, Concat, Table, AllFramed;
      var n := |sections|;
      var body: bytes, idx: seq<nat> := [], [];
      NoParts(sections);
      for i := 0 to n
        invariant body == Concat(sections[..i]) && |idx| == i
        invariant forall j :: 0 <= j < i ==> idx[j] == OffsetOf(sections, j)
      {
        ConcatNext(sections, i);
        idx := idx + [|body|];
        body := body + sections[i];
      }
      assert sections[..n] == sections;
      idx := idx + [|body|];
      var table: bytes := [];
      for i := 0 to |idx|
        invariant table == Table(sections, i)
      {
        ConcatGrows(sections, i);
        if idx[i] >= LIMIT { return Err(TooLong); }
        TableNext(sections, i);
        table := table + Big(idx[i], 4);
      }
      TableSize(sections, n + 1);
      var result := Zeros(4) + header + table + body;
      if |result| >= LIMIT { return Err(TooLong); }
      assert result[4..] == header + table + body;
      result := Big(|result|, 4) + result[4..];
      assert result == Packed(header, sections);
      r := Ok(result);
    }
  }

  lemma NoParts(parts: seq<bytes>)
    ensures Concat(parts[..0]) == [] && Table(parts, 0) == []
  {
  }

  lemma ConcatNext(parts: seq<bytes>, i: nat)
    requires i < |parts|
    ensures Concat(parts[..i + 1]) == Concat(parts[..i]) + parts[i]
  {
    assert parts[..i + 1][..i] == parts[..i];
  }

  lemma TableNext(parts: seq<bytes>, i: nat)
    requires i <= |parts|
    ensures Table(parts, i + 1) == Table(parts, i) + Big(OffsetOf(parts, i), 4)
  {
  }

  ghost predicate Framed(section: bytes, data: bytes) {
    |data| < LIMIT && exists pad: nat :: section == Big(|data|, 4) + data + Zeros(pad)
  }

  ghost predicate AllFramed(sections: seq<bytes>, contents: seq<bytes>) {
    |sections| == |contents| && forall i :: 0 <= i < |sections| ==> Framed(sections[i], contents[i])
  }

  lemma {:induction false} ConcatGrows(parts: seq<bytes>, i: nat)
    requires i <= |parts|
    ensures |Concat(parts[..i])| <= |Concat(parts)|
    ensures exists rest: bytes :: Concat(parts) == Concat(parts[..i]) + rest
    decreases |parts|
  {
    if i == |parts| {
      assert parts[..i] == parts && Concat(parts) == Concat(parts[..i]) + [];
    } else {
      var m := |parts| - 1;
      assert parts[..m][..i] == parts[..i];
      ConcatGrows(parts[..m], i);
      var rest: bytes :| Concat(parts[..m]) == Concat(parts[..i]) + rest;
      assert Concat(parts) == Concat(parts[..i]) + (rest + parts[m]);
    }
  }

  lemma {:induction false} TableSize(parts: seq<bytes>, n: nat)
    requires n <= |parts| + 1
    ensures |Table(parts, n)| == 4 * n
  {
    if n > 0 {
      TableSize(parts, n - 1);
    }
  }

  /** Offset `i` stands at place `i` of the table. */
  lemma {:induction false} TableAt(parts: seq<bytes>, n: nat, i: nat)
    requires i < n <= |parts| + 1
    ensures |Table(parts, n)| == 4 * n && Table(parts, n)[4 * i..4 * i + 4] == Big(OffsetOf(parts, i), 4)
  {
    TableSize(parts, n);
    TableSize(parts, n - 1);
    if i < n - 1 {
      TableAt(parts, n - 1, i);
      assert Table(parts, n)[4 * i..4 * i + 4] == Table(parts, n - 1)[4 * i..4 * i + 4];
    }
  }

  /** Section `i` stands at its offset in the body. */
  lemma SectionAt(parts: seq<bytes>, i: nat) returns (rest: bytes)
    requires i < |parts|
    ensures Concat(parts) == Concat(parts[..i]) + parts[i] + rest
  {
    ConcatGrows(parts, i + 1);
    rest :| Concat(parts) == Concat(parts[..i + 1]) + rest;
    assert parts[..i + 1][..i] == parts[..i];
  }

  /** The section whose offset is entry `i` of the table. */
  function SectionFrom(bin: bytes, headerLen: nat, count: nat, i: nat): bytes {
    var offsets := Slice(bin, headerLen + 4, headerLen + 4 + count * 4);
    var start := headerLen + 4 + (count + 1) * 4 + FromBig(Slice(offsets, i * 4, i * 4 + 4));
    var size := FromBig(Slice(bin, start, start + 4));
    Slice(bin, start + 4, start + 4 + size)
  }

  method UnpackMessage(bin: bytes, headerLen: nat, count: nat) returns (header: bytes, sections: seq<bytes>)
    ensures header == Slice(bin, 4, headerLen + 4) && |sections| == count
    ensures forall i :: 0 <= i < count ==> sections[i] == SectionFrom(bin, headerLen, count, i)
  {
    hide Slice, FromBig;
    header := Slice(bin, 4, headerLen + 4);
    var total := headerLen + 4 + (count + 1) * 4;
    var offsets := Slice(bin, headerLen + 4, headerLen + 4 + count * 4);
    sections := [];
    for i := 0 to count
      invariant |sections| == i
      invariant forall j :: 0 <= j < i ==> sections[j] == SectionFrom(bin, headerLen, count, j)
    {
      var start := total + FromBig(Slice(offsets, i * 4, i * 4 + 4));
      var size := FromBig(Slice(bin, start, start + 4));
      sections := sections + [Slice(bin, start + 4, start + 4 + size)];
    }
  }

  lemma HeaderReads(header: bytes, parts: seq<bytes>)
    ensures Slice(Packed(header, parts), 4, |header| + 4) == header
  {
  }

  lemma OffsetReads(header: bytes, parts: seq<bytes>, i: nat)
    requires i < |parts| && Size(header, parts) < LIMIT
    ensures var offsets := Slice(Packed(header, parts), |header| + 4, |header| + 4 + |parts| * 4);
      FromBig(Slice(offsets, i * 4, i * 4 + 4)) == OffsetOf(parts, i)
  {
    hide Big, FromBig, Concat;
    var n := |parts|;
    var before := Big(Size(header, parts), 4) + header;
    var table := Table(parts, n);
    TableSize(parts, n);
    var rest := Big(OffsetOf(parts, n), 4) + Concat(parts);
    assert Packed(header, parts) == before + table + rest;
    SliceInside(before, table, rest);
    TableAt(parts, n, i);
    ConcatGrows(parts, i);
    FourBytes();
    BigRoundTrip(OffsetOf(parts, i), 4);
  }

  lemma SectionReads(header: bytes, parts: seq<bytes>, i: nat, data: bytes)
    requires i < |parts| && Size(header, parts) < LIMIT && Framed(parts[i], data)
    ensures SectionFrom(Packed(header, parts), |header|, |parts|, i) == data
  {
    hide Big, FromBig, Concat, Slice;
    var n := |parts|;
    var bin := Packed(header, parts);
    OffsetReads(header, parts, i);
    TableSize(parts, n + 1);
    var head := Big(Size(header, parts), 4) + header + Table(parts, n + 1);
    var rest := SectionAt(parts, i);
    var pad: nat :| parts[i] == Big(|data|, 4) + data + Zeros(pad);
    var before := head + Concat(parts[..i]);
    assert |before| == |header| + 4 + (n + 1) * 4 + OffsetOf(parts, i);
    Split(bin, before, Big(|data|, 4), data, Zeros(pad) + rest) by {
      assert bin == head + (Concat(parts[..i]) + parts[i] + rest);
      assert bin == before + (Big(|data|, 4) + data + (Zeros(pad) + rest));
    }
    FourBytes();
    BigRoundTrip(|data|, 4);
  }

  lemma Split(bin: bytes, before: bytes, len: bytes, data: bytes, rest: bytes)
    requires bin == before + (len + data + rest) && |len| == 4
    ensures Slice(bin, |before|, |before| + 4) == len
    ensures Slice(bin, |before| + 4, |before| + 4 + |data|) == data
  {
  }

  /** Any message that packs unpacks to its header and to every section's data: any number of sections,
      plain or padded. */
  lemma UnpackPacked(header: bytes, sections: seq<bytes>, contents: seq<bytes>)
    requires AllFramed(sections, contents) && Size(header, sections) < LIMIT
    ensures Slice(Packed(header, sections), 4, |header| + 4) == header
    ensures forall i :: 0 <= i < |sections| ==>
      SectionFrom(Packed(header, sections), |header|, |sections|, i) == contents[i]
  {
    hide Packed, SectionFrom, Slice;
    HeaderReads(header, sections);
    forall i | 0 <= i < |sections| ensures SectionFrom(Packed(header, sections), |header|, |sections|, i) == contents[i] {
      SectionReads(header, sections, i, contents[i]);
    }
  }

  /** The first four bytes of a packed message are its length, and the table closes with the length of
      the body. */
  lemma LengthsWritten(header: bytes, parts: seq<bytes>)
    requires Size(header, parts) < LIMIT
    ensures var bin := Packed(header, parts); var last := 4 + |header| + 4 * |parts|;
      && |bin| >= last + 4 && FromBig(bin[..4]) == |bin|
      && FromBig(bin[last..last + 4]) == |bin| - (last + 4) && bin[last + 4..] == Concat(parts)
  {
    hide Big, FromBig, Concat;
    var n := |parts|;
    TableSize(parts, n + 1);
    TableAt(parts, n + 1, n);
    assert parts[..n] == parts;
    FourBytes();
    BigRoundTrip(Size(header, parts), 4);
    BigRoundTrip(OffsetOf(parts, n), 4);
    var bin, last := Packed(header, parts), 4 + |header| + 4 * n;
    assert bin[..4] == Big(Size(header, parts), 4);
    assert bin[last..last + 4] == Table(parts, n + 1)[4 * n..4 * n + 4];
  }

  /** The most significant byte comes first. */
  lemma BigVector()
    ensures Big(258, 4) == [0, 0, 1, 2] && FromBig([1, 2]) == 258
  {
    assert Big(258, 4) == Big(1, 3) + [2] && Big(1, 3) == Big(0, 2) + [1];
    assert Big(0, 2) == Big(0, 1) + [0] && Big(0, 1) == Big(0, 0) + [0];
    assert [1, 2][..1] == [1] && [1][..0] == [];
    assert FromBig([1]) == 1;
  }

  /** The two ends joined: pack, then unpack with the header length and the number of sections. */
  method RoundTrip(m: KeyVaultMessage) returns (r: Result<(bytes, seq<bytes>), Fault>)
    requires m.Valid()
    ensures r.Ok? <==> Size(m.header, m.sections) < LIMIT
    ensures r.Ok? ==> r.value == (m.header, m.contents)
  {
    var bin := m.Pack();
    if bin.Err? { return Err(bin.error); }
    var header, sections := UnpackMessage(bin.value, |m.header|, |m.sections|);
    UnpackPacked(m.header, m.sections, m.contents);
    assert sections == m.contents;
    r := Ok((header, sections));
  }
}
