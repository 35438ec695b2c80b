/** Sealed boxes, the file tree of one user directory, and the single atomic steps that change it. */
module Entries {
  import opened Wrappers

  type Id = string

  /** A key pair is named by one number: a box sealed to `k` opens with `k` and nothing else. */
  type Key = nat

  const MAX_HISTORY: nat := 50

  datatype Kind = Login | Passkey

  datatype Secrets = Secrets(password: string, notes: string, seed: string, params: string,
                             apple: seq<(string, string)>)

  /** Everything in a box but the password. Code parameters count only beside a seed. */
  datatype Rest = Rest(notes: string, seed: string, params: string, apple: seq<(string, string)>)

  function RestOf(s: Secrets): Rest {
    Rest(s.notes, s.seed, if s.seed == "" then "" else s.params, s.apple)
  }

  datatype Payload = Payload(id: Id, v: nat, password: string, rest: Rest)

  datatype Box = Sealed(key: Key, payload: Payload)

  /** HMACs with two labels, as free constructors: equal only when key, label and text are. */
  datatype Mac = PwMac(key: Key, password: string) | RestMac(key: Key, rest: Rest)

  datatype Damage = DoesNotOpen | AnotherEntry | OlderThanMeta

  /** The payload of a box, checked to be `id`'s and, for a current box, at least version `minV`. */
  function OpenBox(key: Key, box: Box, id: Id, minV: Option<nat>): Result<Payload, Damage> {
    if box.key != key then Err(DoesNotOpen)
    else if box.payload.id != id then Err(AnotherEntry)
    else if minV.Some? && box.payload.v < minV.value then Err(OlderThanMeta)
    else Ok(box.payload)
  }

  /** What a tag-line reading of the notes gives the metadata. */
  datatype Notes = Notes(body: bool, tags: seq<string>)

  datatype Fields = Fields(kind: Kind, mdat: int, shown: string, code: bool, notes: Notes)

  datatype Filing = Filing(n: nat, at: int)

  /** One record of the metadata document. */
  datatype Rec = Rec(v: nat, pwmac: Option<Mac>, smac: Option<Mac>, hist: seq<Filing>,
                     fields: Fields, appleN: nat, deleted: Option<int>)

  type Doc = map<Id, Rec>

  /** entries/<id>.box, history/<id>/<n>.box and the metadata file. */
  datatype Disk = Disk(boxes: map<Id, Box>, hist: map<Id, map<nat, Box>>, meta: Doc)

  function Dir(d: Disk, id: Id): map<nat, Box> {
    if id in d.hist then d.hist[id] else map[]
  }

  /** The steps that reach the disk whole or not at all: replace, link, unlink. */
  datatype Op =
    | Write(id: Id, box: Box)
    | Link(id: Id, n: nat)
    | Unlink(id: Id)
    | Drop(id: Id, n: nat)
    | Meta(doc: Doc)

  /** A link fails rather than replace a file, and needs a box to link. */
  function Apply(op: Op, d: Disk): Disk {
    match op
    case Write(id, box) => d.(boxes := d.boxes[id := box])
    case Link(id, n) =>
      if id in d.boxes && n !in Dir(d, id)
      then d.(hist := d.hist[id := Dir(d, id)[n := d.boxes[id]]])
      else d
    case Unlink(id) => d.(boxes := d.boxes - {id})
    case Drop(id, n) => d.(hist := d.hist[id := Dir(d, id) - {n}])
    case Meta(doc) => d.(meta := doc)
  }

  function Run(ops: seq<Op>, d: Disk): Disk {
    if ops == [] then d else Apply(ops[|ops| - 1], Run(ops[..|ops| - 1], d))
  }

  lemma RunOne(op: Op, d: Disk)
    ensures Run([op], d) == Apply(op, d)
  {
  }

  lemma RunThen(ops: seq<Op>, op: Op, d: Disk)
    ensures Run(ops + [op], d) == Apply(op, Run(ops, d))
  {
  }

  lemma {:induction false} RunBoth(a: seq<Op>, b: seq<Op>, d: Disk)
    ensures Run(a + b, d) == Run(b, Run(a, d))
    decreases |b|
  {
    if b == [] {
      assert a + b == a;
    } else {
      var m := |b| - 1;
      RunBoth(a, b[..m], d);
      assert a + b == (a + b[..m]) + [b[m]];
      RunThen(a + b[..m], b[m], d);
    }
  }

  /** A prefix of `a + b` is a prefix of `a`, or `a` and a prefix of `b`. */
  lemma Prefixes(a: seq<Op>, b: seq<Op>, k: nat)
    requires k <= |a| + |b|
    ensures (a + b)[..k] == if k <= |a| then a[..k] else a + b[..k - |a|]
  {
  }

  ghost predicate Tops(x: nat, s: set<nat>) {
    x in s && forall y :: y in s ==> y <= x
  }

  lemma {:induction false} HasTop(s: set<nat>) returns (t: nat)
    requires s != {}
    ensures Tops(t, s)
    decreases s
  {
    var x: nat :| x in s;
    if s == {x} {
      t := x;
    } else {
      var u := HasTop(s - {x});
      t := if x < u then u else x;
      assert forall y :: y in s ==> y == x || y in s - {x};
    }
  }

  ghost function Largest(s: set<nat>): (m: nat)
    ensures forall x :: x in s ==> x <= m
    ensures m == 0 || m in s
  {
    if s == {} then 0
    else
      assert exists t: nat :: Tops(t, s) by { var t := HasTop(s); }
      var t: nat :| Tops(t, s);
      t
  }

  function Numbers(hist: seq<Filing>): seq<nat>
    ensures |Numbers(hist)| == |hist| && forall i :: 0 <= i < |hist| ==> Numbers(hist)[i] == hist[i].n
  {
    seq(|hist|, i requires 0 <= i < |hist| => hist[i].n)
  }

  function NumberSet(hist: seq<Filing>): set<nat> {
    set h | h in hist :: h.n
  }

  /** One past everything metadata knows and everything on disk. */
  ghost function NextNumber(hist: seq<Filing>, dir: map<nat, Box>): nat {
    Largest(NumberSet(hist) + dir.Keys) + 1
  }

  lemma NextIsFresh(hist: seq<Filing>, dir: map<nat, Box>)
    ensures NextNumber(hist, dir) !in dir
    ensures forall i :: 0 <= i < |hist| ==> hist[i].n < NextNumber(hist, dir)
  {
    var all := NumberSet(hist) + dir.Keys;
    forall i | 0 <= i < |hist| ensures hist[i].n < NextNumber(hist, dir) {
      assert hist[i] in hist && hist[i].n in all;
    }
  }

  datatype Move = Moved | NoBox | Refused

  /** The entries/ and history/ trees, with the trace of what reached the disk. */
  class EntryFiles {
    var disk: Disk
    ghost var trace: seq<Op>

    constructor (d: Disk)
      ensures disk == d && trace == []
    {
      disk, trace := d, [];
    }

    method Do(op: Op)
      modifies this
      ensures disk == Apply(op, old(disk)) && trace == old(trace) + [op]
    {
      disk := Apply(op, disk);
      trace := trace + [op];
    }

    /** max of the known numbers and the numbers on disk, plus one. */
    method Next(id: Id, known: seq<Filing>) returns (n: nat)
      ensures n == NextNumber(known, Dir(disk, id))
    {
      var m: nat := 0;
      ghost var seen: set<nat> := {};
      var i := 0;
      while i < |known|
        invariant 0 <= i <= |known|
        invariant seen == NumberSet(known[..i])
        invariant (forall x :: x in seen ==> x <= m) && (m == 0 || m in seen)
      {
        assert known[..i + 1] == known[..i] + [known[i]];
        seen := seen + {known[i].n};
        if m < known[i].n { m := known[i].n; }
        i := i + 1;
      }
      assert known[..i] == known;
      var left := Dir(disk, id).Keys;
      while left != {}
        invariant left <= Dir(disk, id).Keys
        invariant seen == NumberSet(known) + (Dir(disk, id).Keys - left)
        invariant (forall x :: x in seen ==> x <= m) && (m == 0 || m in seen)
        decreases left
      {
        var x :| x in left;
        left := left - {x};
        seen := seen + {x};
        if m < x { m := x; }
      }
      assert seen == NumberSet(known) + Dir(disk, id).Keys;
      n := m + 1;
    }

    /** Rename the current box to history/<id>/<n>.box without opening it. */
    method MoveToHistory(id: Id, n: nat) returns (r: Move)
      modifies this
      ensures r == if id !in old(disk).boxes then NoBox
                   else if n in Dir(old(disk), id) then Refused else Moved
      ensures trace == old(trace) + (if r == Moved then [Link(id, n), Unlink(id)] else [])
      ensures disk == if r == Moved then Apply(Unlink(id), Apply(Link(id, n), old(disk))) else old(disk)
    {
      if id !in disk.boxes { return NoBox; }
      if n in Dir(disk, id) { return Refused; }
      Do(Link(id, n));
      Do(Unlink(id));
      r := Moved;
      assert trace == old(trace) + [Link(id, n), Unlink(id)];
    }
  }
}
