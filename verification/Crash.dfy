/** What the disk holds when a call of the store stops after any one of its file operations. */
module Crash {
  import opened Wrappers
  import opened Entries
  import opened Vstore

  datatype Call =
    | Sync(items: seq<Item>, gone: set<Id>, at: int)
    | Set(id: Id, secrets: Secrets, at: int)

  /** The file operations of a call that starts with the document last written. */
  ghost function CallOps(env: Env, d: Disk, call: Call): seq<Op> {
    match call
    case Sync(items, gone, at) => SyncOps(env, St(d.meta, d), items, gone, at)
    case Set(id, s, at) => if Live(d.meta, id) then SetOps(env, d.meta, d, id, s, at) else []
  }

  ghost function CallDoc(env: Env, d: Disk, call: Call): Doc {
    match call
    case Sync(items, gone, at) => SyncDoc(env, St(d.meta, d), items, gone, at)
    case Set(id, s, at) => if Live(d.meta, id) then SetDoc(env, d.meta, d, id, s, at) else d.meta
  }

  /** A call that ends has written the document it holds, so the next call starts from the disk's. */
  lemma CallEndsWritten(env: Env, d: Disk, call: Call)
    ensures Run(CallOps(env, d, call), d).meta == CallDoc(env, d, call)
  {
    hide Run, SyncDoc, SetDoc, ReplaceOps, ItemsOps;
    RunNone(d);
    match call
    case Sync(items, gone, at) =>
      RunThen(ItemsOps(env, St(d.meta, d), items, at), Meta(CallDoc(env, d, call)), d);
    case Set(id, s, at) =>
      if Live(d.meta, id) {
        RunThen(ReplaceOps(env, id, d.meta[id], d, s, at), Meta(CallDoc(env, d, call)), d);
      }
  }

  // --- every box the store finds opens ---

  function MinV(meta: Doc, id: Id): Option<nat> {
    if id in meta then Some(meta[id].v) else None
  }

  /** No box on the disk is refused: not as another entry's, nor as older than its metadata. */
  ghost predicate Sound(env: Env, d: Disk) {
    && (forall id :: id in d.boxes ==> OpenBox(env.key, d.boxes[id], id, MinV(d.meta, id)).Ok?)
    && (forall id, n :: n in Dir(d, id) ==> OpenBox(env.key, Dir(d, id)[n], id, None).Ok?)
  }

  ghost predicate BoxOk(env: Env, floor: Doc, id: Id, box: Box) {
    box.key == env.key && box.payload.id == id && (id in floor ==> box.payload.v >= floor[id].v)
  }

  ghost predicate Below(low: Doc, high: Doc) {
    forall id :: id in low ==> id in high && low[id].v <= high[id].v
  }

  /** `floor` lies between the versions in the metadata on disk and those in the boxes. */
  ghost predicate Covers(env: Env, floor: Doc, d: Disk) {
    && (forall id :: id in d.boxes ==> BoxOk(env, floor, id, d.boxes[id]))
    && (forall id, n :: n in Dir(d, id) ==> BoxOk(env, map[], id, Dir(d, id)[n]))
    && Below(d.meta, floor)
  }

  lemma CoversSound(env: Env, floor: Doc, d: Disk)
    requires Covers(env, floor, d)
    ensures Sound(env, d)
  {
  }

  lemma SoundCovers(env: Env, d: Disk)
    requires Sound(env, d)
    ensures Covers(env, d.meta, d)
  {
  }

  ghost predicate Tame(env: Env, floor: Doc, op: Op) {
    match op
    case Write(id, box) => BoxOk(env, floor, id, box)
    case Meta(doc) => Below(doc, floor)
    case _ => true
  }

  lemma TameKeeps(env: Env, floor: Doc, op: Op, d: Disk)
    requires Covers(env, floor, d) && Tame(env, floor, op)
    ensures Covers(env, floor, Apply(op, d))
  {
    var d' := Apply(op, d);
    forall id, n | n in Dir(d', id) ensures BoxOk(env, map[], id, Dir(d', id)[n]) {
      if n in Dir(d, id) {
        assert BoxOk(env, map[], id, Dir(d, id)[n]);
      } else {
        assert BoxOk(env, floor, id, d.boxes[id]);
      }
    }
  }

  ghost predicate AllTame(env: Env, floor: Doc, ops: seq<Op>) {
    forall i :: 0 <= i < |ops| ==> Tame(env, floor, ops[i])
  }

  lemma {:induction false} TameRun(env: Env, floor: Doc, ops: seq<Op>, d: Disk)
    requires Covers(env, floor, d) && AllTame(env, floor, ops)
    ensures Covers(env, floor, Run(ops, d))
  {
    hide Covers, Tame, Apply;
    if ops != [] {
      var m := |ops| - 1;
      TameRun(env, floor, ops[..m], d);
      TameKeeps(env, floor, ops[m], Run(ops[..m], d));
    }
  }

  /** The claim at every prefix of `ops`. */
  ghost predicate SoundAlong(env: Env, ops: seq<Op>, d: Disk) {
    forall k :: 0 <= k <= |ops| ==> Sound(env, Run(ops[..k], d))
  }

  lemma TameAlong(env: Env, floor: Doc, ops: seq<Op>, d: Disk)
    requires Covers(env, floor, d) && AllTame(env, floor, ops)
    ensures SoundAlong(env, ops, d)
  {
    hide Covers, Tame, Run, Sound;
    forall k | 0 <= k <= |ops| ensures Sound(env, Run(ops[..k], d)) {
      TameRun(env, floor, ops[..k], d);
      CoversSound(env, floor, Run(ops[..k], d));
    }
  }

  lemma SoundAlongBoth(env: Env, a: seq<Op>, b: seq<Op>, d: Disk)
    requires SoundAlong(env, a, d) && SoundAlong(env, b, Run(a, d))
    ensures SoundAlong(env, a + b, d)
  {
    hide Sound, Run;
    forall k | 0 <= k <= |a + b| ensures Sound(env, Run((a + b)[..k], d)) {
      Prefixes(a, b, k);
      if k > |a| {
        RunBoth(a, b[..k - |a|], d);
      }
    }
  }

  lemma ReplaceTame(env: Env, doc: Doc, id: Id, rec: Rec, d: Disk, s: Secrets, now: int)
    requires id in doc ==> rec.v == doc[id].v
    ensures AllTame(env, doc, ReplaceOps(env, id, rec, d, s, now))
  {
  }

  /** The new record's version is that of the box now on disk. */
  lemma Raise(env: Env, doc: Doc, id: Id, rec': Rec, d: Disk)
    requires Covers(env, doc, d) && id in d.boxes && rec'.v <= d.boxes[id].payload.v
    requires id in doc ==> doc[id].v <= rec'.v
    ensures Covers(env, doc[id := rec'], d)
  {
  }

  /** One replacement: sound all along, and the box it leaves carries the new record's version. */
  lemma ReplaceSound(env: Env, doc: Doc, id: Id, rec: Rec, d: Disk, s: Secrets, now: int, rec': Rec)
    requires Covers(env, doc, d)
    requires if id in doc then rec.v == doc[id].v else rec.v == 0 && rec.pwmac.None?
    requires rec'.v == ReplaceRec(env, id, rec, d, s, now).v
    ensures SoundAlong(env, ReplaceOps(env, id, rec, d, s, now), d)
    ensures Covers(env, doc[id := rec'], Run(ReplaceOps(env, id, rec, d, s, now), d))
  {
    hide Filed, NextNumber, SoundAlong, Filing?, FileOps, Run, Below, Tame, AllTame;
    var ops := ReplaceOps(env, id, rec, d, s, now);
    ReplaceTame(env, doc, id, rec, d, s, now);
    TameAlong(env, doc, ops, d);
    TameRun(env, doc, ops, d);
    if Same(env, id, rec, d, s) {
      RunNone(d);
      assert BoxOk(env, doc, id, d.boxes[id]);
    } else {
      var first := ops[..|ops| - 1];
      assert ops == first + [Write(id, NewBox(env, id, rec, s))];
      RunThen(first, Write(id, NewBox(env, id, rec, s)), d);
    }
    Raise(env, doc, id, rec', Run(ops, d));
  }

  lemma MetaSound(env: Env, doc: Doc, d: Disk)
    requires Covers(env, doc, d)
    ensures Covers(env, doc, Apply(Meta(doc), d))
    ensures SoundAlong(env, [Meta(doc)], d)
  {
    TameKeeps(env, doc, Meta(doc), d);
    TameAlong(env, doc, [Meta(doc)], d);
  }

  lemma ItemSound(env: Env, st: St, it: Item, now: int)
    requires Covers(env, st.doc, st.disk)
    ensures SoundAlong(env, ItemOps(env, st, it, now), st.disk)
    ensures var st' := ItemStep(env, st, it, now); Covers(env, st'.doc, st'.disk)
  {
    hide Covers, SoundAlong, Same, Run, ReplaceRec, ReplaceOps;
    var rec := Start(env, st.doc, it);
    var ops := ReplaceOps(env, it.id, rec, st.disk, it.secrets, now);
    var doc' := st.doc[it.id := ItemRec(env, st, it, now)];
    ReplaceSound(env, st.doc, it.id, rec, st.disk, it.secrets, now, ItemRec(env, st, it, now));
    MetaSound(env, doc', Run(ops, st.disk));
    SoundAlongBoth(env, ops, [Meta(doc')], st.disk);
    RunThen(ops, Meta(doc'), st.disk);
    assert ops + [] == ops;
  }

  lemma {:induction false} ItemsSound(env: Env, st: St, items: seq<Item>, now: int)
    requires Covers(env, st.doc, st.disk)
    ensures SoundAlong(env, ItemsOps(env, st, items, now), st.disk)
    ensures var st' := After(env, st, items, now); Covers(env, st'.doc, st'.disk)
  {
    hide Covers, ItemOps, ItemStep, Sound;
    if items == [] {
      CoversSound(env, st.doc, st.disk);
    } else {
      var m := |items| - 1;
      var mid := After(env, st, items[..m], now);
      ItemsSound(env, st, items[..m], now);
      AfterDisk(env, st, items[..m], now);
      ItemSound(env, mid, items[m], now);
      SoundAlongBoth(env, ItemsOps(env, st, items[..m], now), ItemOps(env, mid, items[m], now), st.disk);
    }
  }

  /** Marking records as deleted leaves their versions. */
  lemma BuryCovers(env: Env, doc: Doc, ids: set<Id>, now: int, d: Disk)
    requires ids <= doc.Keys && Covers(env, doc, d)
    ensures Covers(env, Bury(doc, ids, now), d)
  {
  }

  lemma CallSound(env: Env, d: Disk, call: Call)
    requires Sound(env, d)
    ensures SoundAlong(env, CallOps(env, d, call), d)
  {
    hide Covers, Run, ReplaceOps, ItemsOps, SoundAlong, After, ReplaceRec, Sound, Bury;
    SoundCovers(env, d);
    match call
    case Sync(items, gone, at) =>
      var st := St(d.meta, d);
      var mid := After(env, st, items, at);
      ItemsSound(env, st, items, at);
      AfterDisk(env, st, items, at);
      BuryCovers(env, mid.doc, Going(mid.doc, gone), at, mid.disk);
      MetaSound(env, CallDoc(env, d, call), mid.disk);
      SoundAlongBoth(env, ItemsOps(env, st, items, at), [Meta(CallDoc(env, d, call))], d);
    case Set(id, s, at) =>
      if Live(d.meta, id) {
        var ops := ReplaceOps(env, id, d.meta[id], d, s, at);
        ReplaceSound(env, d.meta, id, d.meta[id], d, s, at, SetDoc(env, d.meta, d, id, s, at)[id]);
        MetaSound(env, CallDoc(env, d, call), Run(ops, d));
        SoundAlongBoth(env, ops, [Meta(CallDoc(env, d, call))], d);
      } else {
        TameAlong(env, d.meta, [], d);
      }
  }

  /** A life of the store: each call runs for some number of file operations and, when that is not
      all of them, the process dies and starts again from what the disk holds. */
  ghost predicate IsLife(env: Env, disks: seq<Disk>, calls: seq<Call>, ran: seq<nat>) {
    && |calls| == |ran| && |disks| == |calls| + 1
    && forall i :: 0 <= i < |calls| ==> Lived(env, disks[i], calls[i], ran[i], disks[i + 1])
  }

  ghost predicate Lived(env: Env, d: Disk, call: Call, ran: nat, d': Disk) {
    ran <= |CallOps(env, d, call)| && d' == Run(CallOps(env, d, call)[..ran], d)
  }

  /** Whatever calls were made and wherever they were cut off, no box the store wrote is refused. */
  lemma {:induction false} NeverRefused(env: Env, disks: seq<Disk>, calls: seq<Call>, ran: seq<nat>, i: nat)
    requires IsLife(env, disks, calls, ran) && Sound(env, disks[0]) && i < |disks|
    ensures Sound(env, disks[i])
  {
    hide Sound, Run, CallOps;
    if i > 0 {
      NeverRefused(env, disks, calls, ran, i - 1);
      CallSound(env, disks[i - 1], calls[i - 1]);
      assert Lived(env, disks[i - 1], calls[i - 1], ran[i - 1], disks[i]);
    }
  }
}
