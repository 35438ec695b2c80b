/** CloudKit records: what a save writes and what a fetch reads, four levels of framing deep. */
module Ckks {
  import opened Wrappers
  import opened Codec

  /** Text to bytes and back. */
  datatype Utf8 = Utf8(enc: string -> bytes, dec: bytes -> Option<string>)

  ghost predicate Valid(u: Utf8) {
    forall s: string :: u.dec(u.enc(s)) == Some(s)
  }

  /** A record value; numbers with a point are their 64 bits. */
  datatype Val =
    | Blob(data: bytes)
    | Date(bits: bits64)
    | Text(text: string)
    | Flag(flag: bool)
    | Whole(n: int)
    | Point(bits: bits64)
    | Nothing

  datatype Record = Record(name: string, kind: string, fields: map<string, Val>)

  type Fields = map<nat, seq<Value>>

  const ID_TYPE_RECORD := 1
  const ID_TYPE_RECORD_ZONE := 6
  const ID_TYPE_USER := 7
  const VT_BYTES := 1
  const VT_DATE := 2
  const VT_STRING := 3
  const VT_REFERENCE := 5
  const VT_INT64 := 7
  const VT_DOUBLE := 8

  /** Whose zone the record is in. */
  datatype Place = Place(user: string, zone: string)

  // --- reading ---

  function First(f: Fields, no: nat): Option<Value> {
    if no in f && f[no] != [] then Some(f[no][0]) else None
  }

  /** Bytes are decoded as text; a number counts as absent. */
  function FirstStr(u: Utf8, f: Fields, no: nat): Result<Option<string>, Error> {
    match First(f, no)
    case Some(Raw(b)) => (match u.dec(b) case Some(s) => Ok(Some(s)) case None => Err(BadText))
    case _ => Ok(None)
  }

  function Inside(v: Value): Result<Fields, Error> {
    match v
    case Raw(b) => DecodeFields(b)
    case Num(_) => Err(NotBytes)
  }

  /** Sixty-four bits of a number, or no number at all. */
  function Bits(v: Value): Result<bits64, Error> {
    match v
    case Num(n) => if n < TWO_64 then Ok(n) else Err(TooWide)
    case Raw(_) => Err(NotBytes)
  }

  function AsVal(v: Option<Value>): Val {
    match v
    case Some(Raw(b)) => Blob(b)
    case Some(Num(n)) => Whole(n)
    case None => Nothing
  }

  function AsText(s: Option<string>): Val {
    match s
    case Some(t) => Text(t)
    case None => Nothing
  }

  /** The name in the Identifier that a record identifier holds. */
  function IdName(u: Utf8, rid: Value): Result<Option<string>, Error> {
    var f :- Inside(rid);
    match First(f, 1)
    case None => Ok(None)
    case Some(idval) =>
      var g :- Inside(idval);
      FirstStr(u, g, 1)
  }

  function ParseDate(v: Value): Result<Option<bits64>, Error> {
    var d :- Inside(v);
    match First(d, 1)
    case None => Ok(None)
    case Some(t) =>
      var bits :- Bits(t);
      Ok(Some(bits))
  }

  function ParseReference(u: Utf8, v: Value): Result<Val, Error> {
    var ref :- Inside(v);
    match First(ref, 2)
    case None => Ok(Nothing)
    case Some(rid) =>
      var name :- IdName(u, rid);
      Ok(AsText(name))
  }

  /** The value field that is present decides; an empty date falls through to a reference. */
  function ParseValue(u: Utf8, raw: Value): Result<Val, Error> {
    var v :- Inside(raw);
    if 2 in v then Ok(AsVal(First(v, 2)))
    else if 7 in v then
      var s :- FirstStr(u, v, 7);
      Ok(AsText(s))
    else if 4 in v then Ok(AsVal(First(v, 4)))
    else if 5 in v then
      if First(v, 5).None? then Err(NotBytes)
      else
        var bits :- Bits(First(v, 5).value);
        Ok(Point(bits))
    else
      var date :- if 6 in v && First(v, 6).Some? then ParseDate(First(v, 6).value) else Ok(None);
      if date.Some? then Ok(Date(date.value))
      else if 9 in v && First(v, 9).Some? then ParseReference(u, First(v, 9).value)
      else Ok(Nothing)
  }

  /** One recordField: a name and a value, or nothing when either is missing. */
  function ParseField(u: Utf8, fld: Value): Result<Option<(string, Val)>, Error> {
    var ff :- Inside(fld);
    var name :- match First(ff, 1)
      case None => Ok(None)
      case Some(ident) =>
        var g :- Inside(ident);
        FirstStr(u, g, 1);
    if name.None? || First(ff, 2).None? then Ok(None)
    else
      var val :- ParseValue(u, First(ff, 2).value);
      Ok(Some((name.value, val)))
  }

  function ParseFields(u: Utf8, flds: seq<Value>): Result<map<string, Val>, Error> {
    if flds == [] then Ok(map[])
    else
      var before :- ParseFields(u, flds[..|flds| - 1]);
      var f :- ParseField(u, flds[|flds| - 1]);
      Ok(if f.None? then before else before[f.value.0 := f.value.1])
  }

  function OrEmpty(s: Option<string>): string { if s.None? then "" else s.value }

  function ParseRecord(u: Utf8, raw: bytes): Result<Record, Error> {
    var f :- DecodeFields(raw);
    var name :- if First(f, 2).None? then Ok(None) else IdName(u, First(f, 2).value);
    var kind :- if First(f, 3).None? then Ok(None)
      else
        var g :- Inside(First(f, 3).value);
        FirstStr(u, g, 1);
    var fields :- ParseFields(u, if 7 in f then f[7] else []);
    Ok(Record(OrEmpty(name), OrEmpty(kind), fields))
  }

  lemma {:induction false} PrefixFails(u: Utf8, flds: seq<Value>, i: nat)
    requires i <= |flds| && ParseFields(u, flds[..i]).Err?
    ensures ParseFields(u, flds) == ParseFields(u, flds[..i])
  {
    if i < |flds| {
      var m := |flds| - 1;
      assert flds[..m][..i] == flds[..i];
      PrefixFails(u, flds[..m], i);
    } else {
      assert flds[..i] == flds;
    }
  }

  /** The record fields fill a dict one by one; a later field of the same name wins. */
  method ParseFieldsLoop(u: Utf8, flds: seq<Value>) returns (r: Result<map<string, Val>, Error>)
    ensures r == ParseFields(u, flds)
  {
    hide ParseField;
    var fields, i := map[], 0;
    while i < |flds|
      invariant 0 <= i <= |flds|
      invariant ParseFields(u, flds[..i]) == Ok(fields)
    {
      assert flds[..i + 1][..i] == flds[..i];
      match ParseField(u, flds[i]) {
        case Err(e) =>
          PrefixFails(u, flds, i + 1);
          return Err(e);
        case Ok(None) =>
        case Ok(Some(f)) => fields := fields[f.0 := f.1];
      }
      i := i + 1;
    }
    assert flds[..i] == flds;
    r := Ok(fields);
  }

  /** The fetch side as it runs. */
  method ParseRecordLoop(u: Utf8, raw: bytes) returns (r: Result<Record, Error>)
    ensures r == ParseRecord(u, raw)
  {
    hide DecodeFields, ParseFields, IdName, FirstStr, Inside;
    var f :- DecodeFieldsLoop(raw);
    var name: Option<string> := None;
    if First(f, 2).Some? {
      name :- IdName(u, First(f, 2).value);
    }
    var kind: Option<string> := None;
    if First(f, 3).Some? {
      var g :- Inside(First(f, 3).value);
      kind :- FirstStr(u, g, 1);
    }
    var fields :- ParseFieldsLoop(u, if 7 in f then f[7] else []);
    r := Ok(Record(OrEmpty(name), OrEmpty(kind), fields));
  }

  // --- writing ---

  function Ident(u: Utf8, name: string, kind: int): seq<Field> {
    [Len(1, u.enc(name)), Var(2, kind)]
  }

  function ZoneId(u: Utf8, at: Place): seq<Field> {
    [Len(1, Encode(Ident(u, at.zone, ID_TYPE_RECORD_ZONE))), Len(2, Encode(Ident(u, at.user, ID_TYPE_USER)))]
  }

  function RecordId(u: Utf8, name: string, at: Place): seq<Field> {
    [Len(1, Encode(Ident(u, name, ID_TYPE_RECORD))), Len(2, Encode(ZoneId(u, at)))]
  }

  /** The declared type and the value field; a reference goes out under its target's record identifier. */
  function ValueFields(u: Utf8, v: Val, isRef: bool, at: Place): Result<seq<Field>, Error> {
    if isRef then
      if !v.Text? then Err(NotText)
      else Ok([Var(1, VT_REFERENCE), Len(9, Encode([Len(2, Encode(RecordId(u, v.text, at)))]))])
    else
      match v
      case Blob(data) => Ok([Var(1, VT_BYTES), Len(2, data)])
      case Date(bits) => Ok([Var(1, VT_DATE), Len(6, Encode([Fix64(1, bits)]))])
      case Text(text) => Ok([Var(1, VT_STRING), Len(7, u.enc(text))])
      case Flag(flag) => Ok([Var(1, VT_INT64), Var(4, if flag then 1 else 0)])
      case Whole(n) => Ok([Var(1, VT_INT64), Var(4, n)])
      case Point(bits) => Ok([Var(1, VT_DOUBLE), Fix64(5, bits)])
      case Nothing => Err(NoValue)
  }

  function NamedField(u: Utf8, name: string, val: seq<Field>): seq<Field> {
    [Len(1, Encode([Len(1, u.enc(name))])), Len(2, Encode(val))]
  }

  /** The recordField entries for the names in this order; absent values are left out. */
  function RecordFields(u: Utf8, fields: map<string, Val>, order: seq<string>, at: Place, refs: set<string>)
    : Result<seq<Field>, Error>
    requires forall i :: 0 <= i < |order| ==> order[i] in fields
  {
    if order == [] then Ok([])
    else
      var before :- RecordFields(u, fields, order[..|order| - 1], at, refs);
      var name := order[|order| - 1];
      if fields[name] == Nothing then Ok(before)
      else
        var val :- ValueFields(u, fields[name], name in refs, at);
        Ok(before + [Len(7, Encode(NamedField(u, name, val)))])
  }

  function SerializeRecord(u: Utf8, rec: Record, order: seq<string>, at: Place, refs: set<string>)
    : Result<bytes, Error>
    requires forall i :: 0 <= i < |order| ==> order[i] in rec.fields
  {
    var fs :- RecordFields(u, rec.fields, order, at, refs);
    Ok(Encode([Len(2, Encode(RecordId(u, rec.name, at))), Len(3, Encode([Len(1, u.enc(rec.kind))]))] + fs))
  }

  lemma {:induction false} OrderFails(u: Utf8, fields: map<string, Val>, order: seq<string>, at: Place, refs: set<string>, i: nat)
    requires forall i :: 0 <= i < |order| ==> order[i] in fields
    requires i <= |order| && RecordFields(u, fields, order[..i], at, refs).Err?
    ensures RecordFields(u, fields, order, at, refs) == RecordFields(u, fields, order[..i], at, refs)
  {
    hide ValueFields, Encode;
    if i < |order| {
      var m := |order| - 1;
      assert order[..m][..i] == order[..i];
      OrderFails(u, fields, order[..m], at, refs, i);
    } else {
      assert order[..i] == order;
    }
  }

  method WriteIdent(u: Utf8, name: string, kind: int) returns (b: bytes)
    ensures b == Encode(Ident(u, name, kind))
  {
    hide Encode;
    var w := new Writer();
    w.Bytes(1, Some(u.enc(name)));
    w.Uint64(2, Some(kind));
    assert w.fields == Ident(u, name, kind);
    b := w.buf;
  }

  method WritePair(first: bytes, second: bytes) returns (b: bytes)
    ensures b == Encode([Len(1, first), Len(2, second)])
  {
    hide Encode;
    var w := new Writer();
    w.Bytes(1, Some(first));
    w.Bytes(2, Some(second));
    assert w.fields == [Len(1, first), Len(2, second)];
    b := w.buf;
  }

  method WriteLen(no: nat, data: bytes) returns (b: bytes)
    ensures b == Encode([Len(no, data)])
  {
    hide Encode;
    var w := new Writer();
    w.Bytes(no, Some(data));
    assert w.fields == [Len(no, data)];
    b := w.buf;
  }

  method WriteRecordId(u: Utf8, name: string, at: Place) returns (b: bytes)
    ensures b == Encode(RecordId(u, name, at))
  {
    hide Encode, Ident;
    var id := WriteIdent(u, name, ID_TYPE_RECORD);
    var zone := WriteIdent(u, at.zone, ID_TYPE_RECORD_ZONE);
    var user := WriteIdent(u, at.user, ID_TYPE_USER);
    var z := WritePair(zone, user);
    b := WritePair(id, z);
  }

  method WriteValue(u: Utf8, v: Val, isRef: bool, at: Place) returns (r: Result<bytes, Error>)
    ensures match ValueFields(u, v, isRef, at)
            case Ok(fs) => r == Ok(Encode(fs))
            case Err(e) => r == Err(e)
  {
    hide Encode, RecordId;
    var w := new Writer();
    if isRef {
      if !v.Text? { return Err(NotText); }
      var id := WriteRecordId(u, v.text, at);
      var ref := WriteLen(2, id);
      w.Uint64(1, Some(VT_REFERENCE));
      w.Bytes(9, Some(ref));
    } else {
      match v {
        case Blob(data) =>
          w.Uint64(1, Some(VT_BYTES));
          w.Bytes(2, Some(data));
        case Date(bits) =>
          var d := new Writer();
          d.Double(1, Some(bits));
          assert d.fields == [Fix64(1, bits)];
          w.Uint64(1, Some(VT_DATE));
          w.Bytes(6, Some(d.buf));
        case Text(text) =>
          w.Uint64(1, Some(VT_STRING));
          w.Bytes(7, Some(u.enc(text)));
        case Flag(flag) =>
          w.Uint64(1, Some(VT_INT64));
          w.Uint64(4, Some(if flag then 1 else 0));
        case Whole(n) =>
          w.Uint64(1, Some(VT_INT64));
          w.Uint64(4, Some(n));
        case Point(bits) =>
          w.Uint64(1, Some(VT_DOUBLE));
          w.Double(5, Some(bits));
        case Nothing =>
          return Err(NoValue);
      }
    }
    assert w.fields == ValueFields(u, v, isRef, at).value;
    r := Ok(w.buf);
  }

  /** The save side as it runs. */
  method SerializeRecordLoop(u: Utf8, rec: Record, order: seq<string>, at: Place, refs: set<string>)
    returns (r: Result<bytes, Error>)
    requires forall i :: 0 <= i < |order| ==> order[i] in rec.fields
    ensures r == SerializeRecord(u, rec, order, at, refs)
  {
    hide Encode, ValueFields, RecordFields, RecordId;
    var id := WriteRecordId(u, rec.name, at);
    var k := WriteLen(1, u.enc(rec.kind));
    var w := new Writer();
    w.Bytes(2, Some(id));
    w.Bytes(3, Some(k));
    ghost var head := [Len(2, id), Len(3, k)];
    assert w.fields == head;
    var i := 0;
    NoFields(u, rec.fields, at, refs);
    while i < |order|
      invariant 0 <= i <= |order| && w.Valid() && fresh(w)
      invariant RecordFields(u, rec.fields, order[..i], at, refs).Ok?
      invariant w.fields == head + RecordFields(u, rec.fields, order[..i], at, refs).value
    {
      NextName(u, rec.fields, order, i, at, refs);
      var name := order[i];
      if rec.fields[name] != Nothing {
        var val := WriteValue(u, rec.fields[name], name in refs, at);
        if val.Err? {
          OrderFails(u, rec.fields, order, at, refs, i + 1);
          return Err(val.error);
        }
        var n := WriteLen(1, u.enc(name));
        var f := WritePair(n, val.value);
        w.Bytes(7, Some(f));
      }
      i := i + 1;
    }
    assert order[..i] == order;
    r := Ok(w.buf);
  }

  lemma NoFields(u: Utf8, fields: map<string, Val>, at: Place, refs: set<string>)
    ensures RecordFields(u, fields, [], at, refs) == Ok([])
  {
  }

  lemma NextName(u: Utf8, fields: map<string, Val>, order: seq<string>, i: nat, at: Place, refs: set<string>)
    requires i < |order| && forall i :: 0 <= i < |order| ==> order[i] in fields
    ensures RecordFields(u, fields, order[..i + 1], at, refs)
            == match RecordFields(u, fields, order[..i], at, refs)
               case Err(e) => Err(e)
               case Ok(before) =>
                 if fields[order[i]] == Nothing then Ok(before)
                 else match ValueFields(u, fields[order[i]], order[i] in refs, at)
                   case Err(e) => Err(e)
                   case Ok(val) => Ok(before + [Len(7, Encode(NamedField(u, order[i], val)))])
  {
    hide ValueFields, Encode;
    assert order[..i + 1][..i] == order[..i] && order[..i + 1][i] == order[i];
  }

  // --- the round trip ---

  /** What a value reads back as: a flag as a number, a negative number as its 64-bit complement. */
  function ReadBack(v: Val): Val {
    match v
    case Flag(flag) => Whole(if flag then 1 else 0)
    case Whole(n) => Whole(AsUnsigned(n))
    case _ => v
  }

  function ReadBackAll(fields: map<string, Val>): map<string, Val> {
    map name | name in fields && fields[name] != Nothing :: ReadBack(fields[name])
  }

  predicate Enumerates(order: seq<string>, fields: map<string, Val>) {
    && (forall i :: 0 <= i < |order| ==> order[i] in fields)
    && (forall name :: name in fields ==> name in order)
    && forall i, j :: 0 <= i < j < |order| ==> order[i] != order[j]
  }

  lemma IdentReads(u: Utf8, name: string, kind: int)
    requires Valid(u)
    ensures DecodeFields(Encode(Ident(u, name, kind))).Ok?
    ensures FirstStr(u, DecodeFields(Encode(Ident(u, name, kind))).value, 1) == Ok(Some(name))
  {
    hide DecodeFields, Encode;
    TwoFields(Len(1, u.enc(name)), Var(2, kind));
  }

  lemma RecordIdReads(u: Utf8, name: string, at: Place)
    requires Valid(u)
    ensures IdName(u, Raw(Encode(RecordId(u, name, at)))) == Ok(Some(name))
  {
    hide DecodeFields, Encode, Ident, ZoneId;
    IdentReads(u, name, ID_TYPE_RECORD);
    TwoFields(Len(1, Encode(Ident(u, name, ID_TYPE_RECORD))), Len(2, Encode(ZoneId(u, at))));
  }

  /** Every value that can be written reads back as `ReadBack`; a reference as its target's name. */
  lemma ValueReads(u: Utf8, v: Val, isRef: bool, at: Place)
    requires Valid(u) && ValueFields(u, v, isRef, at).Ok?
    ensures ParseValue(u, Raw(Encode(ValueFields(u, v, isRef, at).value))) == Ok(ReadBack(v))
  {
    hide DecodeFields, Encode, RecordId;
    if isRef {
      var id := Encode(RecordId(u, v.text, at));
      RecordIdReads(u, v.text, at);
      OneField(Len(2, id));
      TwoFields(Var(1, VT_REFERENCE), Len(9, Encode([Len(2, id)])));
    } else {
      var fs := ValueFields(u, v, isRef, at).value;
      assert fs == [fs[0], fs[1]];
      TwoFields(fs[0], fs[1]);
      if v.Date? {
        OneField(Fix64(1, v.bits));
      }
    }
  }

  lemma NamedReads(u: Utf8, name: string, v: Val, isRef: bool, at: Place)
    requires Valid(u) && ValueFields(u, v, isRef, at).Ok?
    ensures ParseField(u, Raw(Encode(NamedField(u, name, ValueFields(u, v, isRef, at).value)))) == Ok(Some((name, ReadBack(v))))
  {
    hide DecodeFields, Encode, ValueFields, ParseValue;
    var val := ValueFields(u, v, isRef, at).value;
    ValueReads(u, v, isRef, at);
    OneField(Len(1, u.enc(name)));
    TwoFields(Len(1, Encode([Len(1, u.enc(name))])), Len(2, Encode(val)));
  }

  /** The map the names of `order` read back to. */
  function Prefix(fields: map<string, Val>, order: seq<string>): map<string, Val> {
    map name | name in fields && name in order && fields[name] != Nothing :: ReadBack(fields[name])
  }

  function RawAll(fs: seq<Field>): seq<Value> {
    seq(|fs|, i requires 0 <= i < |fs| => AsRead(fs[i]).1)
  }

  lemma {:induction false} FieldsRead(u: Utf8, fields: map<string, Val>, order: seq<string>, at: Place, refs: set<string>)
    requires Valid(u) && forall i :: 0 <= i < |order| ==> order[i] in fields
    requires RecordFields(u, fields, order, at, refs).Ok?
    ensures ParseFields(u, RawAll(RecordFields(u, fields, order, at, refs).value)) == Ok(Prefix(fields, order))
    ensures forall f :: f in RecordFields(u, fields, order, at, refs).value ==> f.no == 7
  {
    hide Encode, ValueFields, ParseField, NamedField, ReadBack;
    NoFields(u, fields, at, refs);
    assert order == [] ==> RawAll([]) == [] && Prefix(fields, order) == map[];
    if order != [] {
      var m := |order| - 1;
      var name := order[m];
      FieldsRead(u, fields, order[..m], at, refs);
      NextName(u, fields, order, m, at, refs);
      assert order[..m + 1] == order;
      var before := RecordFields(u, fields, order[..m], at, refs).value;
      assert forall n :: n in order <==> n in order[..m] || n == name;
      if fields[name] != Nothing {
        var f := Len(7, Encode(NamedField(u, name, ValueFields(u, fields[name], name in refs, at).value)));
        NamedReads(u, name, fields[name], name in refs, at);
        assert RawAll(before + [f]) == RawAll(before) + [AsRead(f).1];
        assert (RawAll(before) + [AsRead(f).1])[..|before|] == RawAll(before);
        assert Prefix(fields, order) == Prefix(fields, order[..m])[name := ReadBack(fields[name])];
      } else {
        assert Prefix(fields, order) == Prefix(fields, order[..m]);
      }
    }
  }

  lemma ReadsItsNumber(f: Field)
    ensures AsRead(f).0 == f.no
  {
  }

  lemma {:induction false} AllSeven(fs: seq<Field>, no: nat)
    requires forall f :: f in fs ==> f.no == 7
    ensures Having(AllRead(fs), no) == if no == 7 then RawAll(fs) else []
  {
    hide AsRead;
    if fs != [] {
      var m := |fs| - 1;
      assert fs[m] in fs && forall f :: f in fs[..m] ==> f in fs;
      AllSeven(fs[..m], no);
      ReadsItsNumber(fs[m]);
      assert AllRead(fs)[..m] == AllRead(fs[..m]);
      assert AllRead(fs)[m] == AsRead(fs[m]);
      assert RawAll(fs) == RawAll(fs[..m]) + [AsRead(fs[m]).1];
    }
  }

  lemma RecordHaving(a: Field, b: Field, fs: seq<Field>)
    requires a.no == 2 && b.no == 3 && forall f :: f in fs ==> f.no == 7
    ensures var ts := AllRead([a, b] + fs);
      Having(ts, 2) == [AsRead(a).1] && Having(ts, 3) == [AsRead(b).1] && Having(ts, 7) == RawAll(fs)
  {
    hide Having;
    var head := [AsRead(a), AsRead(b)];
    assert AllRead([a, b] + fs) == head + AllRead(fs);
    HavingBoth(head, AllRead(fs), 2);
    HavingBoth(head, AllRead(fs), 3);
    HavingBoth(head, AllRead(fs), 7);
    AllSeven(fs, 2);
    AllSeven(fs, 3);
    AllSeven(fs, 7);
    HeadHaving(AsRead(a), AsRead(b));
  }

  lemma HeadHaving(a: (nat, Value), b: (nat, Value))
    requires a.0 == 2 && b.0 == 3
    ensures Having([a, b], 2) == [a.1] && Having([a, b], 3) == [b.1] && Having([a, b], 7) == []
  {
    HavingBoth([a], [b], 2);
    HavingBoth([a], [b], 3);
    HavingBoth([a], [b], 7);
    assert [a] + [b] == [a, b];
    HavingOne(a, 2);
    HavingOne(a, 3);
    HavingOne(a, 7);
    HavingOne(b, 2);
    HavingOne(b, 3);
    HavingOne(b, 7);
  }

  lemma HavingOne(a: (nat, Value), no: nat)
    ensures Having([a], no) == if a.0 == no then [a.1] else []
  {
  }

  lemma RecordGroups(a: Field, b: Field, fs: seq<Field>)
    requires a.no == 2 && b.no == 3 && forall f :: f in fs ==> f.no == 7
    ensures DecodeFields(Encode([a, b] + fs)).Ok?
    ensures var f := DecodeFields(Encode([a, b] + fs)).value;
      First(f, 2) == Some(AsRead(a).1) && First(f, 3) == Some(AsRead(b).1) && (if 7 in f then f[7] else []) == RawAll(fs)
  {
    hide Encode, DecodeFields, Having, AllRead;
    var ts := AllRead([a, b] + fs);
    DecodeRoundTrip([a, b] + fs);
    RecordHaving(a, b, fs);
    forall no | no !in Group(ts) ensures Having(ts, no) == [] {
      NumbersNone(ts, no);
      HavingNone(ts, no);
    }
  }

  /** A record that can be saved is fetched back with its name, its type and its field map, absent
      values left out, references as their target's name: in whatever order the names were written. */
  lemma RecordRoundTrip(u: Utf8, rec: Record, order: seq<string>, at: Place, refs: set<string>)
    requires Valid(u) && Enumerates(order, rec.fields)
    ensures SerializeRecord(u, rec, order, at, refs).Ok? ==>
      ParseRecord(u, SerializeRecord(u, rec, order, at, refs).value) == Ok(rec.(fields := ReadBackAll(rec.fields)))
  {
    hide DecodeFields, Encode, RecordFields, RecordId, ParseFields, IdName;
    if SerializeRecord(u, rec, order, at, refs).Ok? {
      var fs := RecordFields(u, rec.fields, order, at, refs).value;
      FieldsRead(u, rec.fields, order, at, refs);
      RecordIdReads(u, rec.name, at);
      OneField(Len(1, u.enc(rec.kind)));
      RecordGroups(Len(2, Encode(RecordId(u, rec.name, at))), Len(3, Encode([Len(1, u.enc(rec.kind))])), fs);
      assert Prefix(rec.fields, order) == ReadBackAll(rec.fields);
    }
  }

  /** The wire numbers of the value kinds. */
  function KindOf(v: Val, isRef: bool): nat {
    if isRef then 5
    else match v
      case Blob(_) => 1
      case Date(_) => 2
      case Text(_) => 3
      case Flag(_) => 7
      case Whole(_) => 7
      case Point(_) => 8
      case Nothing => 0
  }

  /** Every value that can be written declares its kind in field 1. */
  lemma KindDeclared(u: Utf8, v: Val, isRef: bool, at: Place)
    requires ValueFields(u, v, isRef, at).Ok?
    ensures var f := DecodeFields(Encode(ValueFields(u, v, isRef, at).value));
      f.Ok? && First(f.value, 1) == Some(Num(KindOf(v, isRef)))
  {
    hide DecodeFields, Encode, RecordId;
    var fs := ValueFields(u, v, isRef, at).value;
    assert fs == [fs[0], fs[1]];
    TwoFields(fs[0], fs[1]);
  }

  /** An identifier: its name and the number of its kind. */
  predicate Identifies(u: Utf8, v: Option<Value>, name: string, kind: nat) {
    && v.Some? && v.value.Raw?
    && var f := DecodeFields(v.value.raw);
       f.Ok? && FirstStr(u, f.value, 1) == Ok(Some(name)) && First(f.value, 2) == Some(Num(kind))
  }

  lemma IdentKind(u: Utf8, name: string, kind: nat)
    requires Valid(u)
    ensures Identifies(u, Some(Raw(Encode(Ident(u, name, kind)))), name, kind)
  {
    hide DecodeFields, Encode;
    TwoFields(Len(1, u.enc(name)), Var(2, kind));
  }

  /** A record identifier names its record as kind 1, its zone as kind 6 and the zone's owner as kind 7. */
  lemma RecordIdKinds(u: Utf8, name: string, at: Place)
    requires Valid(u)
    ensures var f := DecodeFields(Encode(RecordId(u, name, at)));
      && f.Ok? && Identifies(u, First(f.value, 1), name, 1)
      && First(f.value, 2).Some? && First(f.value, 2).value.Raw?
      && var z := DecodeFields(First(f.value, 2).value.raw);
      && z.Ok? && Identifies(u, First(z.value, 1), at.zone, 6) && Identifies(u, First(z.value, 2), at.user, 7)
  {
    hide DecodeFields, Encode, Ident, Identifies;
    IdentKind(u, name, 1);
    IdentKind(u, at.zone, 6);
    IdentKind(u, at.user, 7);
    var zone, user := Encode(Ident(u, at.zone, 6)), Encode(Ident(u, at.user, 7));
    TwoFields(Len(1, Encode(Ident(u, name, 1))), Len(2, Encode([Len(1, zone), Len(2, user)])));
    TwoFields(Len(1, zone), Len(2, user));
  }

  /** A save is refused exactly when a field named as a reference holds something that is no text. */
  lemma {:induction false} SavesExactly(u: Utf8, fields: map<string, Val>, order: seq<string>, at: Place, refs: set<string>)
    requires forall i :: 0 <= i < |order| ==> order[i] in fields
    ensures RecordFields(u, fields, order, at, refs).Ok?
            <==> forall i :: 0 <= i < |order| && order[i] in refs ==> fields[order[i]].Text? || fields[order[i]].Nothing?
  {
    hide Encode, RecordId;
    if order != [] {
      SavesExactly(u, fields, order[..|order| - 1], at, refs);
    }
  }

  /** What comes back as it was. */
  predicate Faithful(v: Val) {
    !v.Nothing? && !v.Flag? && (v.Whole? ==> v.n >= 0)
  }

  lemma ReadBackSame(fields: map<string, Val>)
    ensures ReadBackAll(fields) == fields <==> forall name :: name in fields ==> Faithful(fields[name])
  {
    if ReadBackAll(fields) == fields {
      forall name | name in fields ensures Faithful(fields[name]) {
        assert name in ReadBackAll(fields);
        assert ReadBackAll(fields)[name] == ReadBack(fields[name]);
      }
    }
  }

  /** A saved record is fetched back unchanged if and only if it holds no absent value, no flag and no
      negative number. */
  lemma SameExactly(u: Utf8, rec: Record, order: seq<string>, at: Place, refs: set<string>)
    requires Valid(u) && Enumerates(order, rec.fields) && SerializeRecord(u, rec, order, at, refs).Ok?
    ensures ParseRecord(u, SerializeRecord(u, rec, order, at, refs).value) == Ok(rec)
            <==> forall name :: name in rec.fields ==> Faithful(rec.fields[name])
  {
    hide ParseRecord, SerializeRecord, ReadBackAll, Faithful, Enumerates;
    RecordRoundTrip(u, rec, order, at, refs);
    ReadBackSame(rec.fields);
  }
}
