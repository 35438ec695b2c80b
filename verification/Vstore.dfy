/** The per-user store: set_secrets and apply_sync, as functions of the store and as methods. */
module Vstore {
  import opened Wrappers
  import opened Entries

  /** The store's own key pair and MAC key, and how notes read as metadata. */
  datatype Env = Env(key: Key, mk: Key, notes: string -> Notes)

  /** One decrypted keychain item; `Shown` gives the metadata stored for it. */
  datatype Item = Item(id: Id, kind: Kind, mdat: int, shown: string, secrets: Secrets)

  function Shown(env: Env, it: Item): Fields {
    Fields(it.kind, it.mdat, it.shown, it.secrets.seed != "", env.notes(it.secrets.notes))
  }

  function Pw(env: Env, s: Secrets): Option<Mac> { Some(PwMac(env.mk, s.password)) }

  function Sm(env: Env, s: Secrets): Option<Mac> { Some(RestMac(env.mk, RestOf(s))) }

  function Live(doc: Doc, id: Id): bool { id in doc && doc[id].deleted.None? }

  // --- replacing one entry's secrets ---

  /** The box is what the metadata says of `s`, so nothing is written. */
  predicate Same(env: Env, id: Id, rec: Rec, d: Disk, s: Secrets) {
    id in d.boxes && rec.pwmac == Pw(env, s) && rec.smac == Sm(env, s)
  }

  /** The old box is filed: another password, and the old one was a real one. */
  predicate Filing?(env: Env, id: Id, rec: Rec, d: Disk, s: Secrets) {
    && id in d.boxes && rec.pwmac.Some? && rec.pwmac != Pw(env, s)
    && rec.fields.kind != Passkey && rec.pwmac != Some(PwMac(env.mk, ""))
  }

  function Overflow(hist: seq<Filing>): nat {
    if |hist| > MAX_HISTORY then |hist| - MAX_HISTORY else 0
  }

  function Drops(id: Id, hist: seq<Filing>): seq<Op> {
    seq(|hist|, i requires 0 <= i < |hist| => Drop(id, hist[i].n))
  }

  ghost function FileOps(id: Id, rec: Rec, d: Disk, now: int): seq<Op> {
    var hist := Filed(id, rec, d, now);
    [Link(id, NextNumber(rec.hist, Dir(d, id))), Unlink(id)] + Drops(id, hist[..Overflow(hist)])
  }

  ghost function Filed(id: Id, rec: Rec, d: Disk, now: int): seq<Filing> {
    rec.hist + [Filing(NextNumber(rec.hist, Dir(d, id)), now)]
  }

  function NewBox(env: Env, id: Id, rec: Rec, s: Secrets): Box {
    Sealed(env.key, Payload(id, rec.v + 1, s.password, RestOf(s)))
  }

  ghost function ReplaceOps(env: Env, id: Id, rec: Rec, d: Disk, s: Secrets, now: int): seq<Op> {
    if Same(env, id, rec, d, s) then []
    else (if Filing?(env, id, rec, d, s) then FileOps(id, rec, d, now) else []) + [Write(id, NewBox(env, id, rec, s))]
  }

  ghost function ReplaceHist(env: Env, id: Id, rec: Rec, d: Disk, s: Secrets, now: int): seq<Filing> {
    if Same(env, id, rec, d, s) || !Filing?(env, id, rec, d, s) then rec.hist
    else var hist := Filed(id, rec, d, now); hist[Overflow(hist)..]
  }

  ghost function ReplaceRec(env: Env, id: Id, rec: Rec, d: Disk, s: Secrets, now: int): Rec {
    if Same(env, id, rec, d, s) then rec
    else rec.(v := rec.v + 1, pwmac := Pw(env, s), smac := Sm(env, s),
              hist := ReplaceHist(env, id, rec, d, s, now), appleN := |s.apple|,
              fields := rec.fields.(code := s.seed != "", notes := env.notes(s.notes)))
  }

  // --- set_secrets ---

  ghost function SetDoc(env: Env, doc: Doc, d: Disk, id: Id, s: Secrets, now: int): Doc
    requires id in doc
  {
    var rec := ReplaceRec(env, id, doc[id], d, s, now);
    doc[id := rec.(fields := rec.fields.(mdat := now))]
  }

  ghost function SetOps(env: Env, doc: Doc, d: Disk, id: Id, s: Secrets, now: int): seq<Op>
    requires id in doc
  {
    ReplaceOps(env, id, doc[id], d, s, now) + [Meta(SetDoc(env, doc, d, id, s, now))]
  }

  // --- apply_sync, one item ---

  /** The in-memory document beside the disk. */
  datatype St = St(doc: Doc, disk: Disk)

  /** The record an item starts from; one that is new or back from a tombstone takes its fields first. */
  function Start(env: Env, doc: Doc, it: Item): Rec {
    if Live(doc, it.id) then doc[it.id]
    else (if it.id in doc then doc[it.id] else Rec(0, None, None, [], Shown(env, it), 0, None))
         .(deleted := None, fields := Shown(env, it))
  }

  ghost function ItemRec(env: Env, st: St, it: Item, now: int): Rec {
    ReplaceRec(env, it.id, Start(env, st.doc, it), st.disk, it.secrets, now).(fields := Shown(env, it))
  }

  ghost function ItemOps(env: Env, st: St, it: Item, now: int): seq<Op> {
    var rec := Start(env, st.doc, it);
    ReplaceOps(env, it.id, rec, st.disk, it.secrets, now)
    + (if Live(st.doc, it.id) && Numbers(ItemRec(env, st, it, now).hist) != Numbers(rec.hist)
       then [Meta(st.doc[it.id := ItemRec(env, st, it, now)])] else [])
  }

  ghost function ItemStep(env: Env, st: St, it: Item, now: int): St {
    St(st.doc[it.id := ItemRec(env, st, it, now)], Run(ItemOps(env, st, it, now), st.disk))
  }

  datatype Verdict = Added | Changed | Unchanged

  function VerdictOf(env: Env, st: St, it: Item): Verdict {
    if !Live(st.doc, it.id) then Added
    else if !Same(env, it.id, st.doc[it.id], st.disk, it.secrets) || st.doc[it.id].fields != Shown(env, it)
    then Changed else Unchanged
  }

  // --- apply_sync, the whole call ---

  ghost function After(env: Env, st: St, items: seq<Item>, now: int): St {
    if items == [] then st
    else ItemStep(env, After(env, st, items[..|items| - 1], now), items[|items| - 1], now)
  }

  ghost function ItemsOps(env: Env, st: St, items: seq<Item>, now: int): seq<Op> {
    if items == [] then []
    else ItemsOps(env, st, items[..|items| - 1], now)
         + ItemOps(env, After(env, st, items[..|items| - 1], now), items[|items| - 1], now)
  }

  ghost function Count(env: Env, st: St, items: seq<Item>, now: int, v: Verdict): nat {
    if items == [] then 0
    else Count(env, st, items[..|items| - 1], now, v)
         + if VerdictOf(env, After(env, st, items[..|items| - 1], now), items[|items| - 1]) == v then 1 else 0
  }

  function Going(doc: Doc, gone: set<Id>): set<Id> {
    set id | id in gone && Live(doc, id)
  }

  function Bury(doc: Doc, ids: set<Id>, now: int): Doc
    requires ids <= doc.Keys
  {
    map id | id in doc :: if id in ids then doc[id].(deleted := Some(now)) else doc[id]
  }

  ghost function SyncDoc(env: Env, st: St, items: seq<Item>, gone: set<Id>, now: int): Doc {
    var doc := After(env, st, items, now).doc;
    Bury(doc, Going(doc, gone), now)
  }

  ghost function SyncOps(env: Env, st: St, items: seq<Item>, gone: set<Id>, now: int): seq<Op> {
    ItemsOps(env, st, items, now) + [Meta(SyncDoc(env, st, items, gone, now))]
  }

  datatype Counts = Counts(added: nat, changed: nat, deleted: nat, same: nat)

  ghost function SyncCounts(env: Env, st: St, items: seq<Item>, gone: set<Id>, now: int): Counts {
    Counts(Count(env, st, items, now, Added), Count(env, st, items, now, Changed),
           |Going(After(env, st, items, now).doc, gone)|, Count(env, st, items, now, Unchanged))
  }

  // --- facts about the functions ---

  lemma {:induction false} DropsSnoc(id: Id, hist: seq<Filing>)
    requires hist != []
    ensures Drops(id, hist) == Drops(id, hist[..|hist| - 1]) + [Drop(id, hist[|hist| - 1].n)]
  {
  }

  lemma {:induction false} AfterDisk(env: Env, st: St, items: seq<Item>, now: int)
    ensures After(env, st, items, now).disk == Run(ItemsOps(env, st, items, now), st.disk)
  {
    if items != [] {
      var m := |items| - 1;
      var mid := After(env, st, items[..m], now);
      AfterDisk(env, st, items[..m], now);
      RunBoth(ItemsOps(env, st, items[..m], now), ItemOps(env, mid, items[m], now), st.disk);
    }
  }

  /** Every item is counted once. */
  lemma {:induction false} CountsAdd(env: Env, st: St, items: seq<Item>, now: int)
    ensures Count(env, st, items, now, Added) + Count(env, st, items, now, Changed)
            + Count(env, st, items, now, Unchanged) == |items|
  {
    if items != [] {
      CountsAdd(env, st, items[..|items| - 1], now);
    }
  }

  lemma Assoc(a: seq<Op>, b: seq<Op>, c: seq<Op>)
    ensures a + b + c == a + (b + c)
  {
  }

  lemma RunNone(d: Disk)
    ensures Run([], d) == d
  {
  }

  datatype Missing = EntryNotFound

  /** The unlocked store: the document in memory beside the files on disk. */
  class UserStore {
    const env: Env
    const files: EntryFiles
    var doc: Doc

    constructor (env: Env, d: Disk)
      ensures this.env == env && fresh(files) && files.disk == d && files.trace == [] && doc == d.meta
    {
      this.env := env;
      files := new EntryFiles(d);
      doc := d.meta;
    }

    ghost function State(): St
      reads this, files
    {
      St(doc, files.disk)
    }

    method WriteMeta()
      modifies files
      ensures files.disk == Apply(Meta(doc), old(files.disk)) && files.trace == old(files.trace) + [Meta(doc)]
    {
      files.Do(Meta(doc));
    }

    /** Drop the oldest filings past the limit, one at a time. */
    method Trim(id: Id, hist: seq<Filing>) returns (kept: seq<Filing>)
      modifies files
      ensures kept == hist[Overflow(hist)..]
      ensures files.trace == old(files.trace) + Drops(id, hist[..Overflow(hist)])
      ensures files.disk == Run(Drops(id, hist[..Overflow(hist)]), old(files.disk))
    {
      kept := hist;
      ghost var done := 0;
      while |kept| > MAX_HISTORY
        invariant 0 <= done <= Overflow(hist) && kept == hist[done..]
        invariant files.trace == old(files.trace) + Drops(id, hist[..done])
        invariant files.disk == Run(Drops(id, hist[..done]), old(files.disk))
      {
        DropsSnoc(id, hist[..done + 1]);
        assert hist[..done + 1][..done] == hist[..done];
        RunThen(Drops(id, hist[..done]), Drop(id, kept[0].n), old(files.disk));
        files.Do(Drop(id, kept[0].n));
        kept := kept[1..];
        done := done + 1;
      }
    }

    /** Move the old box into history, unopened, and keep the latest filings. */
    method FileOld(id: Id, rec: Rec, now: int) returns (hist: seq<Filing>)
      requires id in files.disk.boxes
      modifies files
      ensures hist == (var filed := Filed(id, rec, old(files.disk), now); filed[Overflow(filed)..])
      ensures files.trace == old(files.trace) + FileOps(id, rec, old(files.disk), now)
      ensures files.disk == Run(FileOps(id, rec, old(files.disk), now), old(files.disk))
    {
      hide Drops, Apply, NextNumber;
      ghost var d, tr := files.disk, files.trace;
      NextIsFresh(rec.hist, Dir(d, id));
      var n := files.Next(id, rec.hist);
      var r := files.MoveToHistory(id, n);
      assert r == Moved;
      RunOne(Link(id, n), d);
      RunThen([Link(id, n)], Unlink(id), d);
      assert [Link(id, n)] + [Unlink(id)] == [Link(id, n), Unlink(id)];
      var filed := rec.hist + [Filing(n, now)];
      hist := Trim(id, filed);
      RunBoth([Link(id, n), Unlink(id)], Drops(id, filed[..Overflow(filed)]), d);
      Assoc(tr, [Link(id, n), Unlink(id)], Drops(id, filed[..Overflow(filed)]));
    }

    /** Seal `s` as the entry's box when it differs from what `rec` says the box holds. */
    method ReplaceSecrets(id: Id, rec: Rec, s: Secrets, now: int) returns (touched: bool, rec': Rec)
      modifies files
      ensures touched == !Same(env, id, rec, old(files.disk), s)
      ensures rec' == ReplaceRec(env, id, rec, old(files.disk), s, now)
      ensures files.trace == old(files.trace) + ReplaceOps(env, id, rec, old(files.disk), s, now)
      ensures files.disk == Run(ReplaceOps(env, id, rec, old(files.disk), s, now), old(files.disk))
    {
      hide Run, Apply, FileOps, NextNumber, Dir;
      var pwm, sm := Pw(env, s), Sm(env, s);
      ghost var d, tr := files.disk, files.trace;
      var hasBox := id in files.disk.boxes;
      if hasBox && rec.pwmac == pwm && rec.smac == sm {
        RunNone(d);
        return false, rec;
      }
      var noPassword := rec.fields.kind == Passkey || rec.pwmac == Some(PwMac(env.mk, ""));
      var hist := rec.hist;
      ghost var ops: seq<Op> := [];
      RunNone(d);
      if hasBox && rec.pwmac != None && rec.pwmac != pwm && !noPassword {
        hist := FileOld(id, rec, now);
        ops := FileOps(id, rec, d, now);
      }
      var v := rec.v + 1;
      var box := Sealed(env.key, Payload(id, v, s.password, RestOf(s)));
      RunThen(ops, Write(id, box), d);
      Assoc(tr, ops, [Write(id, box)]);
      files.Do(Write(id, box));
      touched := true;
      rec' := rec.(v := v, pwmac := pwm, smac := sm, hist := hist, appleN := |s.apple|,
                   fields := rec.fields.(code := s.seed != "", notes := env.notes(s.notes)));
    }

    /** Replace a live entry's secrets after a successful push. */
    method SetSecrets(id: Id, s: Secrets, now: int) returns (r: Result<(), Missing>)
      modifies this, files
      ensures r.Ok? <==> Live(old(doc), id)
      ensures r.Err? ==> doc == old(doc) && files.disk == old(files.disk) && files.trace == old(files.trace)
      ensures r.Ok? ==>
        && doc == SetDoc(env, old(doc), old(files.disk), id, s, now)
        && files.trace == old(files.trace) + SetOps(env, old(doc), old(files.disk), id, s, now)
        && files.disk == Run(SetOps(env, old(doc), old(files.disk), id, s, now), old(files.disk))
    {
      if !Live(doc, id) { return Err(EntryNotFound); }
      ghost var d, tr, was := files.disk, files.trace, doc;
      var touched, rec := ReplaceSecrets(id, doc[id], s, now);
      doc := doc[id := rec.(fields := rec.fields.(mdat := now))];
      WriteMeta();
      ghost var ops := ReplaceOps(env, id, was[id], d, s, now);
      RunThen(ops, Meta(doc), d);
      assert tr + ops + [Meta(doc)] == tr + (ops + [Meta(doc)]);
      r := Ok(());
    }

    /** One item of a sync. */
    method SyncItem(it: Item, now: int) returns (v: Verdict)
      modifies this, files
      ensures v == VerdictOf(env, old(State()), it)
      ensures State() == ItemStep(env, old(State()), it, now)
      ensures files.trace == old(files.trace) + ItemOps(env, old(State()), it, now)
    {
      hide Run, Apply, ReplaceOps, Same, Numbers;
      ghost var st, tr := State(), files.trace;
      var fields := Shown(env, it);
      if it.id !in doc || doc[it.id].deleted.Some? {
        var rec := if it.id in doc then doc[it.id] else Rec(0, None, None, [], fields, 0, None);
        rec := rec.(deleted := None, fields := fields);
        assert rec == Start(env, st.doc, it);
        var touched, rec' := ReplaceSecrets(it.id, rec, it.secrets, now);
        assert rec'.fields == fields;
        doc := doc[it.id := rec'];
        assert ItemOps(env, st, it, now) == ReplaceOps(env, it.id, rec, st.disk, it.secrets, now);
        assert doc == ItemStep(env, st, it, now).doc;
        return Added;
      }
      var rec := doc[it.id];
      var before := Numbers(rec.hist);
      var touched, rec' := ReplaceSecrets(it.id, rec, it.secrets, now);
      if touched || rec'.fields != fields {
        rec' := rec'.(fields := fields);
        v := Changed;
      } else {
        v := Unchanged;
      }
      assert rec' == ItemRec(env, st, it, now);
      doc := doc[it.id := rec'];
      if Numbers(rec'.hist) != before {
        ghost var ops := ReplaceOps(env, it.id, rec, st.disk, it.secrets, now);
        WriteMeta();
        RunThen(ops, Meta(doc), st.disk);
        Assoc(tr, ops, [Meta(doc)]);
      } else {
        assert ItemOps(env, st, it, now) == ReplaceOps(env, it.id, rec, st.disk, it.secrets, now);
      }
      assert doc == ItemStep(env, st, it, now).doc;
    }

    /** Upsert what the keychain returned, tombstone what it deleted, and count both. */
    method ApplySync(items: seq<Item>, gone: set<Id>, now: int) returns (c: Counts)
      modifies this, files
      ensures c == SyncCounts(env, old(State()), items, gone, now)
      ensures doc == SyncDoc(env, old(State()), items, gone, now)
      ensures files.trace == old(files.trace) + SyncOps(env, old(State()), items, gone, now)
      ensures files.disk == Run(SyncOps(env, old(State()), items, gone, now), old(files.disk))
    {
      hide Run, Apply, ItemOps, ItemStep, VerdictOf, Bury, Going;
      ghost var st, tr := State(), files.trace;
      c := Counts(0, 0, 0, 0);
      var i := 0;
      while i < |items|
        invariant 0 <= i <= |items|
        invariant State() == After(env, st, items[..i], now)
        invariant files.trace == tr + ItemsOps(env, st, items[..i], now)
        invariant c == Counts(Count(env, st, items[..i], now, Added), Count(env, st, items[..i], now, Changed),
                              0, Count(env, st, items[..i], now, Unchanged))
      {
        assert items[..i + 1][..i] == items[..i] && items[..i + 1] != [];
        var v := SyncItem(items[i], now);
        Assoc(tr, ItemsOps(env, st, items[..i], now), ItemOps(env, After(env, st, items[..i], now), items[i], now));
        match v {
          case Added => c := c.(added := c.added + 1);
          case Changed => c := c.(changed := c.changed + 1);
          case Unchanged => c := c.(same := c.same + 1);
        }
        i := i + 1;
      }
      assert items[..i] == items;
      c := TombstoneAll(gone, now, c);
      WriteMeta();
      AfterDisk(env, st, items, now);
      RunThen(ItemsOps(env, st, items, now), Meta(doc), st.disk);
      Assoc(tr, ItemsOps(env, st, items, now), [Meta(doc)]);
    }

    /** The ids still live are marked deleted, in any order, each counted once. */
    method TombstoneAll(gone: set<Id>, now: int, c0: Counts) returns (c: Counts)
      requires c0.deleted == 0
      modifies this
      ensures doc == Bury(old(doc), Going(old(doc), gone), now)
      ensures c == c0.(deleted := |Going(old(doc), gone)|)
    {
      c := c0;
      var left := gone;
      ghost var was, ids: set<Id> := doc, {};
      while left != {}
        invariant left <= gone && ids == Going(was, gone - left)
        invariant doc == Bury(was, ids, now) && c == c0.(deleted := |ids|)
        decreases left
      {
        var id: Id :| id in left;
        if id in doc && doc[id].deleted.None? {
          assert id !in ids && Going(was, gone - (left - {id})) == ids + {id};
          doc := doc[id := doc[id].(deleted := Some(now))];
          ids := ids + {id};
          c := c.(deleted := c.deleted + 1);
        } else {
          assert Going(was, gone - (left - {id})) == ids;
        }
        left := left - {id};
      }
      assert gone - left == gone;
    }
  }
}
