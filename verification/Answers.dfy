/** What a store at rest answers after an unlock: the secrets, row and history of the last writes. */
module Answers {
  import opened Wrappers
  import opened Entries
  import opened Vstore
  import opened Crash
  import opened Keeping
  import opened History
  import opened SyncRefines
  import R = Rotation

  // --- one unlock, then a question ----------------------------------------------------------------

  function Opened(t: R.Tree, id: Id): Result<Secrets, R.Fault> {
    match R.Unlock(t) case Ok(m) => R.OpenEntry(m, t, id) case Err(f) => Err(f)
  }

  function Earlier(t: R.Tree, id: Id): Result<(seq<(int, string)>, seq<(string, string)>), R.Fault> {
    match R.Unlock(t) case Ok(m) => R.History(m, t, id) case Err(f) => Err(f)
  }

  function Listing(t: R.Tree): Result<map<Id, (Fields, string, nat)>, R.Fault> {
    match R.Unlock(t) case Ok(m) => Ok(R.ListMeta(m)) case Err(f) => Err(f)
  }

  /** The key files are those of a store that writes as `env`. */
  predicate Keyed(env: Env, t: R.Tree) {
    && R.Unlock(t).Ok? && R.Unlock(t).value.root == env.mk && R.Unseal(R.Unlock(t).value, t) == Ok(env.key)
  }

  /** The key files of `t` beside the entries, histories and metadata of `d`. */
  function AtRest(env: Env, t: R.Tree, d: Disk): R.Tree {
    t.(boxes := d.boxes, meta := Some(R.Enc(env.mk, d.meta)),
       hist := map id, n | id in d.hist && n in d.hist[id] :: (id, n) := d.hist[id][n])
  }

  lemma AtRestUnlocks(env: Env, t: R.Tree, d: Disk)
    requires Keyed(env, t)
    ensures var t' := AtRest(env, t, d); Keyed(env, t') && R.Unlock(t') == Ok(R.Unlock(t).value.(doc := d.meta))
  {
  }

  lemma AtRestFiles(env: Env, t: R.Tree, d: Disk, id: Id, n: nat)
    ensures var t' := AtRest(env, t, d);
      && ((id, n) in t'.hist <==> n in Dir(d, id)) && (n in Dir(d, id) ==> t'.hist[(id, n)] == Dir(d, id)[n])
  {
  }

  // --- entries ------------------------------------------------------------------------------------

  /** An entry and its row in the list. */
  datatype Row = Row(secrets: Secrets, fields: Fields)

  function RowAt(t: R.Tree, id: Id): Option<Row> {
    match Opened(t, id)
    case Ok(s) => if Listing(t).Ok? && id in Listing(t).value then Some(Row(s, Listing(t).value[id].0)) else None
    case Err(_) => None
  }

  /** What is kept of secrets handed in: all of them, but code parameters only beside a seed. */
  function Stored(s: Secrets): Secrets {
    Secrets(s.password, s.notes, s.seed, if s.seed == "" then "" else s.params, s.apple)
  }

  lemma AgreeingOpens(env: Env, t: R.Tree, d: Disk, id: Id)
    requires Keyed(env, t) && Agrees(env, Whole(d))
    ensures Opened(AtRest(env, t, d), id) == if !Live(d.meta, id) then Err(R.NotFound)
      else
        assert AgreeAt(env, d.meta[id], id, d);
        var p := d.boxes[id].payload; Ok(Secrets(p.password, p.rest.notes, p.rest.seed, p.rest.params, p.rest.apple))
    ensures RowAt(AtRest(env, t, d), id).Some? <==> Live(d.meta, id)
    ensures Live(d.meta, id) ==> RowAt(AtRest(env, t, d), id).value.fields == d.meta[id].fields
  {
    AtRestUnlocks(env, t, d);
    if Live(d.meta, id) { assert AgreeAt(env, d.meta[id], id, d); }
  }

  /** The row's flag and notes are those of the entry. */
  predicate Tells(env: Env, row: Option<Row>) {
    row.Some? ==> row.value.fields.code == (row.value.secrets.seed != "")
                  && row.value.fields.notes == env.notes(row.value.secrets.notes)
  }

  /** The entry after a call that found it as `before`. */
  function Next(env: Env, call: Call, id: Id, before: Option<Row>): Option<Row> {
    match call
    case Set(i, s, at) =>
      if i != id || before.None? then before
      else Some(Row(Stored(s), Fields(before.value.fields.kind, at, before.value.fields.shown,
                                      s.seed != "", env.notes(s.notes))))
    case Sync(items, gone, _) =>
      if id in gone then None
      else match ItemFor(items, id)
        case Some(it) => Some(Row(Stored(it.secrets), Fields(it.kind, it.mdat, it.shown, it.secrets.seed != "",
                                                              env.notes(it.secrets.notes))))
        case None => before
  }

  /** The entry as the last call that named it left it; `was` is what it was before the calls. */
  function Last(env: Env, calls: seq<Call>, id: Id, was: Option<Row>): Option<Row> {
    if calls == [] then was else Next(env, calls[|calls| - 1], id, Last(env, calls[..|calls| - 1], id, was))
  }

  lemma {:induction false} UpsertAt(env: Env, view: View, items: seq<Item>, id: Id)
    ensures var after := UpsertAll(env, view, items);
      match ItemFor(items, id)
      case Some(it) => it.id == id && id in after && after[id] == EntryOf(env, it)
      case None => (id in after <==> id in view) && (id in view ==> after[id] == view[id])
  {
    hide EntryOf;
    if items != [] { UpsertAt(env, view, items[..|items| - 1], id); }
  }

  /** The same said of the view. */
  lemma ViewOpens(env: Env, t: R.Tree, d: Disk, id: Id)
    requires Keyed(env, t) && Agrees(env, Whole(d))
    ensures RowAt(AtRest(env, t, d), id) == LiveRow(ViewOf(env, Whole(d)), id)
  {
    AgreeingOpens(env, t, d, id);
    if id in d.meta { InView(env, Whole(d), id); }
  }

  function EntryRow(e: Entry): Row {
    Row(Secrets(e.password, e.rest.notes, e.rest.seed, e.rest.params, e.rest.apple), e.fields)
  }

  lemma ItemRow(env: Env, it: Item)
    ensures EntryOf(env, it).live && EntryRow(EntryOf(env, it))
      == Row(Stored(it.secrets), Fields(it.kind, it.mdat, it.shown, it.secrets.seed != "", env.notes(it.secrets.notes)))
  {
  }

  /** The row of the view an item list and a deletion list lead to. */
  lemma UpdatedRow(env: Env, view: View, items: seq<Item>, gone: set<Id>, at: int, id: Id)
    ensures LiveRow(Remove(UpsertAll(env, view, items), gone), id)
      == Next(env, Sync(items, gone, at), id, LiveRow(view, id))
  {
    hide UpsertAll, EntryOf, EntryRow, ItemFor, Stored;
    UpsertAt(env, view, items, id);
    if ItemFor(items, id).Some? { ItemRow(env, ItemFor(items, id).value); }
  }

  function LiveRow(view: View, id: Id): Option<Row> {
    if id in view && view[id].live then Some(EntryRow(view[id])) else None
  }

  lemma SyncRow(env: Env, t: R.Tree, d: Disk, items: seq<Item>, gone: set<Id>, at: int, id: Id)
    requires Keyed(env, t) && Agrees(env, Whole(d))
    ensures var call := Sync(items, gone, at);
      RowAt(AtRest(env, t, Run(CallOps(env, d, call), d)), id) == Next(env, call, id, RowAt(AtRest(env, t, d), id))
  {
    var d', view := SyncEnd(env, d, items, gone, at), ViewOf(env, Whole(d));
    assert d' == Run(CallOps(env, d, Sync(items, gone, at)), d) by { hide Run; }
    hide SyncEnd, ViewOf, Agrees, UpsertAll, Remove, RowAt, AtRest, Keyed, SyncCounts, LiveRow, Next, Run, CallOps;
    SyncIsMapUpdate(env, d, items, gone, at);
    UpdatedRow(env, view, items, gone, at, id);
    ViewOpens(env, t, d, id);
    ViewOpens(env, t, d', id);
  }

  /** set_secrets as a map update. The row always takes the call's time, and the flag and notes of the new
      secrets unless the entry had them already. */
  lemma SetIsMapUpdate(env: Env, d: Disk, id: Id, s: Secrets, at: int)
    requires Agrees(env, Whole(d)) && Live(d.meta, id)
    ensures var d' := Run(CallOps(env, d, Set(id, s, at)), d); var view := ViewOf(env, Whole(d));
      && Agrees(env, Whole(d')) && id in view
      && ViewOf(env, Whole(d')) == view[id := Edited(env, view[id], s, at)]
  {
    var call := Set(id, s, at);
    var d' := Run(CallOps(env, d, call), d);
    hide Run, CallOps, AgreeAt, Agrees;
    CallAgrees(env, d, call);
    SetOwn(env, d, id, s, at);
    SetKeys(env, d, id, s, at);
    forall j | j in d.meta && j != id ensures ViewOf(env, Whole(d'))[j] == ViewOf(env, Whole(d))[j] {
      SetOther(env, d, id, s, at, j);
      InView(env, Whole(d), j);
      InView(env, Whole(d'), j);
    }
    InView(env, Whole(d'), id);
  }

  lemma SetKeys(env: Env, d: Disk, id: Id, s: Secrets, at: int)
    requires Live(d.meta, id)
    ensures Run(CallOps(env, d, Set(id, s, at)), d).meta.Keys == d.meta.Keys
  {
    CallEndsWritten(env, d, Set(id, s, at));
    SetHist(env, d, id, s, at);
  }

  lemma SetOther(env: Env, d: Disk, id: Id, s: Secrets, at: int, j: Id)
    requires Live(d.meta, id) && j in d.meta && j != id
    ensures var d' := Run(CallOps(env, d, Set(id, s, at)), d); j in d'.meta && d'.meta[j] == d.meta[j] && SameFiles(d', d, j)
  {
    CallEndsWritten(env, d, Set(id, s, at));
    SetHist(env, d, id, s, at);
    SetOff(env, d, id, s, at, j);
    hide Run, SetOps, SetDoc;
    OffRun(CallOps(env, d, Set(id, s, at)), d, j);
  }

  /** An entry after set_secrets. */
  function Edited(env: Env, e: Entry, s: Secrets, at: int): Entry {
    Entry(s.password, RestOf(s),
          if e.password == s.password && e.rest == RestOf(s) then e.fields.(mdat := at)
          else Fields(e.fields.kind, at, e.fields.shown, s.seed != "", env.notes(s.notes)),
          true)
  }

  lemma SetOwn(env: Env, d: Disk, id: Id, s: Secrets, at: int)
    requires Agrees(env, Whole(d)) && Live(d.meta, id)
    ensures var d' := Run(CallOps(env, d, Set(id, s, at)), d);
      && id in d.boxes && id in d'.meta && id in d'.boxes
      && EntryAt(Whole(d'), id) == Edited(env, EntryAt(Whole(d), id), s, at)
  {
    hide Run, ReplaceOps, ReplaceHist;
    assert AgreeAt(env, d.meta[id], id, d);
    RunThen(ReplaceOps(env, id, d.meta[id], d, s, at), Meta(SetDoc(env, d.meta, d, id, s, at)), d);
    ReplaceAgrees(env, id, d.meta[id], d, s, at);
  }

  lemma EditedRow(env: Env, view: View, i: Id, s: Secrets, at: int, id: Id)
    requires i in view && view[i].live && Tells(env, LiveRow(view, id))
    ensures LiveRow(view[i := Edited(env, view[i], s, at)], id) == Next(env, Set(i, s, at), id, LiveRow(view, id))
  {
  }

  lemma SetRow(env: Env, t: R.Tree, d: Disk, i: Id, s: Secrets, at: int, id: Id)
    requires Keyed(env, t) && Agrees(env, Whole(d)) && Tells(env, RowAt(AtRest(env, t, d), id))
    ensures var call := Set(i, s, at);
      RowAt(AtRest(env, t, Run(CallOps(env, d, call), d)), id) == Next(env, call, id, RowAt(AtRest(env, t, d), id))
  {
    var d', view := Run(CallOps(env, d, Set(i, s, at)), d), ViewOf(env, Whole(d));
    hide Run, CallOps, ViewOf, Agrees, RowAt, AtRest, Keyed, LiveRow, Edited, Tells;
    ViewOpens(env, t, d, id);
    ViewOpens(env, t, d, i);
    AgreeingOpens(env, t, d, i);
    if Live(d.meta, i) {
      SetIsMapUpdate(env, d, i, s, at);
      ViewLive(env, d, i);
      ViewOpens(env, t, d', id);
      hide Next;
      EditedRow(env, view, i, s, at, id);
    } else {
      SetDead(env, d, i, s, at);
      DeadNext(env, view, i, s, at, id);
    }
  }

  lemma ViewLive(env: Env, d: Disk, id: Id)
    requires Agrees(env, Whole(d)) && Live(d.meta, id)
    ensures id in ViewOf(env, Whole(d)) && ViewOf(env, Whole(d))[id].live
  {
    InView(env, Whole(d), id);
  }

  lemma DeadNext(env: Env, view: View, i: Id, s: Secrets, at: int, id: Id)
    requires LiveRow(view, i).None?
    ensures Next(env, Set(i, s, at), id, LiveRow(view, id)) == LiveRow(view, id)
  {
  }

  lemma SetDead(env: Env, d: Disk, id: Id, s: Secrets, at: int)
    requires !Live(d.meta, id)
    ensures Run(CallOps(env, d, Set(id, s, at)), d) == d
  {
    RunNone(d);
  }

  /** Over any run of syncs and edits from agreement: an unlock and open_entry give exactly the secrets of
      the last call that named the entry, and the list its kind, time, fields, flag and notes; a deleted
      entry is not found; an entry that no call named answers as before. */
  lemma {:induction false} LastWriteAnswers(env: Env, t: R.Tree, d: Disk, calls: seq<Call>, id: Id)
    requires Keyed(env, t) && Agrees(env, Whole(d)) && Tells(env, RowAt(AtRest(env, t, d), id))
    ensures var row := RowAt(AtRest(env, t, End(env, d, calls)), id);
      row == Last(env, calls, id, RowAt(AtRest(env, t, d), id)) && Tells(env, row)
    ensures Opened(AtRest(env, t, End(env, d, calls)), id) == (
      match Last(env, calls, id, RowAt(AtRest(env, t, d), id)) case Some(row) => Ok(row.secrets) case None => Err(R.NotFound))
  {
    hide RowAt, Agrees, Run, CallOps, Keyed, Opened, AtRest, Next, Tells;
    NoBlankFiled(env, d, calls, id);
    RowOpened(env, t, End(env, d, calls), id);
    if calls != [] {
      var m := |calls| - 1;
      var before := End(env, d, calls[..m]);
      LastWriteAnswers(env, t, d, calls[..m], id);
      NoBlankFiled(env, d, calls[..m], id);
      NextTells(env, calls[m], id, RowAt(AtRest(env, t, before), id));
      match calls[m]
      case Sync(items, gone, at) => SyncRow(env, t, before, items, gone, at, id);
      case Set(i, s, at) => SetRow(env, t, before, i, s, at, id);
    }
  }

  lemma NextTells(env: Env, call: Call, id: Id, before: Option<Row>)
    requires Tells(env, before)
    ensures Tells(env, Next(env, call, id, before))
  {
  }

  lemma RowOpened(env: Env, t: R.Tree, d: Disk, id: Id)
    requires Keyed(env, t) && Agrees(env, Whole(d))
    ensures Opened(AtRest(env, t, d), id) == (
      match RowAt(AtRest(env, t, d), id) case Some(row) => Ok(row.secrets) case None => Err(R.NotFound))
  {
    AgreeingOpens(env, t, d, id);
  }

  // --- across a rotation --------------------------------------------------------------------------

  /** Code parameters only beside a seed, as every write leaves them. */
  predicate CanonicalView(view: View) {
    forall id :: id in view && view[id].rest.seed == "" ==> view[id].rest.params == ""
  }

  lemma {:induction false} UpsertCanonical(env: Env, view: View, items: seq<Item>)
    requires CanonicalView(view)
    ensures CanonicalView(UpsertAll(env, view, items))
  {
    if items != [] { UpsertCanonical(env, view, items[..|items| - 1]); }
  }

  lemma CallCanonical(env: Env, d: Disk, call: Call)
    requires Agrees(env, Whole(d)) && CanonicalView(ViewOf(env, Whole(d)))
    ensures var d' := Run(CallOps(env, d, call), d); Agrees(env, Whole(d')) && CanonicalView(ViewOf(env, Whole(d')))
  {
    CallAgrees(env, d, call);
    var view := ViewOf(env, Whole(d));
    match call
    case Sync(items, gone, at) =>
      assert SyncEnd(env, d, items, gone, at) == Run(CallOps(env, d, call), d) by { hide Run; }
      hide Run, CallOps, SyncEnd, ViewOf, Agrees, UpsertAll, SyncCounts;
      SyncIsMapUpdate(env, d, items, gone, at);
      UpsertCanonical(env, view, items);
    case Set(id, s, at) =>
      if Live(d.meta, id) {
        hide Run, CallOps, ViewOf, Agrees;
        SetIsMapUpdate(env, d, id, s, at);
      } else {
        SetDead(env, d, id, s, at);
      }
  }

  lemma {:induction false} EndCanonical(env: Env, d: Disk, calls: seq<Call>)
    requires Agrees(env, Whole(d)) && CanonicalView(ViewOf(env, Whole(d)))
    ensures var e := End(env, d, calls); Agrees(env, Whole(e)) && CanonicalView(ViewOf(env, Whole(e)))
  {
    hide Run, CallOps, ViewOf, Agrees, CanonicalView;
    if calls != [] {
      EndCanonical(env, d, calls[..|calls| - 1]);
      CallCanonical(env, End(env, d, calls[..|calls| - 1]), calls[|calls| - 1]);
    }
  }

  function NewEnv(env: Env, inp: R.Inputs): Env { Env(inp.pair, inp.root, env.notes) }

  /** The same entries, filings and records under the new keys. */
  function NewDisk(d: Disk, inp: R.Inputs): Disk {
    Disk(map id | id in d.boxes :: R.Reseal(inp.pair, d.boxes[id]),
         map id | id in d.hist :: map n | n in d.hist[id] :: R.Reseal(inp.pair, d.hist[id][n]),
         map id | id in d.meta :: R.NewRec(d.meta[id], inp.root, if id in d.boxes then Some(d.boxes[id]) else None))
  }

  lemma RotatedRests(env: Env, t: R.Tree, d: Disk, inp: R.Inputs)
    requires Keyed(env, t) && R.CanRotate(R.Unlock(t).value.(doc := d.meta), AtRest(env, t, d), inp)
    ensures var m, t0 := R.Unlock(t).value.(doc := d.meta), AtRest(env, t, d);
      && R.Unlock(t0) == Ok(m)
      && Keyed(NewEnv(env, inp), R.Rotated(m, t0, inp))
      && AtRest(NewEnv(env, inp), R.Rotated(m, t0, inp), NewDisk(d, inp)) == R.Rotated(m, t0, inp)
  {
    var m, t0 := R.Unlock(t).value.(doc := d.meta), AtRest(env, t, d);
    var t' := R.Rotated(m, t0, inp);
    AtRestUnlocks(env, t, d);
    R.RotatedUnlocks(m, t0, inp);
    RotatedFiles(m, t0, inp);
    hide R.CanRotate, R.Unlock, R.Unseal, R.Rotated, R.NewRec, R.Session, R.Aliases, AtRest;
    RestDoc(env, t, d, inp);
    RestHist(env, t, d);
    SameHist(env, d, t0, inp, t');
    OtherFiles(NewEnv(env, inp), t', NewDisk(d, inp));
    SameTree(env, t, d, m, inp);
  }

  lemma RotatedFiles(m: R.Mem, t: R.Tree, inp: R.Inputs)
    requires R.CanRotate(m, t, inp)
    ensures var t' := R.Rotated(m, t, inp);
      && t'.boxes == (map id | id in t.boxes :: R.Reseal(inp.pair, t.boxes[id]))
      && t'.hist == (map h | h in t.hist :: R.Reseal(inp.pair, t.hist[h]))
      && t'.meta == Some(R.Enc(inp.root, R.NewDoc(m.doc, t, inp.root)))
  {
  }

  lemma RestDoc(env: Env, t: R.Tree, d: Disk, inp: R.Inputs)
    ensures NewDisk(d, inp).meta == R.NewDoc(d.meta, AtRest(env, t, d), inp.root)
    ensures NewDisk(d, inp).boxes == map id | id in AtRest(env, t, d).boxes :: R.Reseal(inp.pair, AtRest(env, t, d).boxes[id])
  {
    OtherFiles(env, t, d);
    hide AtRest, R.NewRec;
  }

  lemma RestHist(env: Env, t: R.Tree, d: Disk)
    ensures forall h :: h in AtRest(env, t, d).hist <==> h.1 in Dir(d, h.0)
    ensures forall h :: h in AtRest(env, t, d).hist ==> AtRest(env, t, d).hist[h] == Dir(d, h.0)[h.1]
  {
    hide AtRest, Dir;
    forall h: (Id, nat)
      ensures h in AtRest(env, t, d).hist <==> h.1 in Dir(d, h.0)
      ensures h.1 in Dir(d, h.0) ==> AtRest(env, t, d).hist[h] == Dir(d, h.0)[h.1]
    {
      AtRestFiles(env, t, d, h.0, h.1);
      assert h == (h.0, h.1);
    }
  }

  lemma SameTree(env: Env, t: R.Tree, d: Disk, m: R.Mem, inp: R.Inputs)
    requires R.Session(m, AtRest(env, t, d)).Ok? && R.Aliases(m, AtRest(env, t, d)).Ok?
    ensures var t' := R.Rotated(m, AtRest(env, t, d), inp); var t2 := AtRest(NewEnv(env, inp), t', NewDisk(d, inp));
      t2.boxes == t'.boxes && t2.hist == t'.hist && t2.meta == t'.meta ==> t2 == t'
  {
    hide R.Session, R.Aliases, R.Rotated, NewDisk;
  }

  lemma NewDir(d: Disk, inp: R.Inputs, id: Id)
    ensures Dir(NewDisk(d, inp), id) == map n | n in Dir(d, id) :: R.Reseal(inp.pair, Dir(d, id)[n])
  {
    hide R.NewRec;
  }

  lemma OtherFiles(env: Env, t: R.Tree, d: Disk)
    ensures AtRest(env, t, d).boxes == d.boxes && AtRest(env, t, d).meta == Some(R.Enc(env.mk, d.meta))
  {
  }

  /** Flattening after resealing is resealing after flattening. */
  lemma SameHist(env: Env, d: Disk, t: R.Tree, inp: R.Inputs, t': R.Tree)
    requires forall h :: h in t.hist <==> h.1 in Dir(d, h.0)
    requires forall h :: h in t.hist ==> t.hist[h] == Dir(d, h.0)[h.1]
    requires t'.hist == map h | h in t.hist :: R.Reseal(inp.pair, t.hist[h])
    ensures AtRest(NewEnv(env, inp), t', NewDisk(d, inp)).hist == t'.hist
  {
    hide AtRest, Dir, NewDisk;
    var t2 := AtRest(NewEnv(env, inp), t', NewDisk(d, inp));
    forall h: (Id, nat)
      ensures (h in t2.hist <==> h in t'.hist) && (h in t'.hist ==> t2.hist[h] == t'.hist[h])
    {
      AtRestFiles(NewEnv(env, inp), t', NewDisk(d, inp), h.0, h.1);
      NewDir(d, inp, h.0);
      assert h == (h.0, h.1);
    }
  }

  lemma RotatedAgrees(env: Env, d: Disk, inp: R.Inputs)
    requires Agrees(env, Whole(d)) && CanonicalView(ViewOf(env, Whole(d)))
    ensures Agrees(NewEnv(env, inp), Whole(NewDisk(d, inp)))
  {
    var env', d' := NewEnv(env, inp), NewDisk(d, inp);
    forall id | id in d'.meta ensures AgreeAt(env', d'.meta[id], id, d') {
      assert AgreeAt(env, d.meta[id], id, d);
      CanonicalAt(env, d, id);
      hide ViewOf, Agrees, AgreeAt;
      RecordAgrees(env, d, inp, id);
    }
  }

  lemma CanonicalAt(env: Env, d: Disk, id: Id)
    requires Agrees(env, Whole(d)) && CanonicalView(ViewOf(env, Whole(d))) && id in d.meta
    ensures id in d.boxes && (d.boxes[id].payload.rest.seed == "" ==> d.boxes[id].payload.rest.params == "")
  {
    InView(env, Whole(d), id);
  }

  lemma RecordAgrees(env: Env, d: Disk, inp: R.Inputs, id: Id)
    requires id in d.meta && AgreeAt(env, d.meta[id], id, d)
    requires d.boxes[id].payload.rest.seed == "" ==> d.boxes[id].payload.rest.params == ""
    ensures id in NewDisk(d, inp).meta && AgreeAt(NewEnv(env, inp), NewDisk(d, inp).meta[id], id, NewDisk(d, inp))
  {
  }

  /** A store that moves to new keys is the same store: any calls before, the move, any calls after, and an
      unlock under the new keys still gives what the last call that named the entry left. */
  lemma AnswersAcrossRotation(env: Env, t: R.Tree, d: Disk, first: seq<Call>, inp: R.Inputs, later: seq<Call>, id: Id)
    requires Keyed(env, t) && Agrees(env, Whole(d)) && CanonicalView(ViewOf(env, Whole(d)))
    requires Tells(env, RowAt(AtRest(env, t, d), id))
    requires R.CanRotate(R.Unlock(t).value.(doc := End(env, d, first).meta), AtRest(env, t, End(env, d, first)), inp)
    ensures var mid := End(env, d, first); var env' := NewEnv(env, inp);
      var t' := R.Rotated(R.Unlock(t).value.(doc := mid.meta), AtRest(env, t, mid), inp);
      && Keyed(env', t') && AtRest(env', t', NewDisk(mid, inp)) == t'
      && RowAt(AtRest(env', t', End(env', NewDisk(mid, inp), later)), id)
         == Last(env, later, id, Last(env, first, id, RowAt(AtRest(env, t, d), id)))
  {
    var mid, env' := End(env, d, first), NewEnv(env, inp);
    var m := R.Unlock(t).value.(doc := mid.meta);
    var t' := R.Rotated(m, AtRest(env, t, mid), inp);
    hide RowAt, Last, Agrees, CanonicalView, ViewOf, Keyed, R.CanRotate, R.Rotated, R.Unlock, NewDisk, End, AtRest;
    LastWriteAnswers(env, t, d, first, id);
    EndCanonical(env, d, first);
    RotatedRests(env, t, mid, inp);
    RotatedAgrees(env, mid, inp);
    RotatedRow(m, AtRest(env, t, mid), inp, id);
    LastWriteAnswers(env', t', NewDisk(mid, inp), later, id);
    SameLast(env, env', later, id, RowAt(t', id));
  }

  lemma RotatedRow(m: R.Mem, t: R.Tree, inp: R.Inputs, id: Id)
    requires R.CanRotate(m, t, inp) && R.Unlock(t) == Ok(m)
    ensures RowAt(R.Rotated(m, t, inp), id) == RowAt(t, id)
  {
    R.MeaningKept(m, t, inp, id);
    hide R.CanRotate, R.Unlock, R.OpenEntry, R.History, R.ListMeta, R.Rotated;
  }

  lemma {:induction false} SameLast(env: Env, env': Env, calls: seq<Call>, id: Id, was: Option<Row>)
    requires env'.notes == env.notes
    ensures Last(env', calls, id, was) == Last(env, calls, id, was)
  {
    if calls != [] { SameLast(env, env', calls[..|calls| - 1], id, was); }
  }

  // --- histories ----------------------------------------------------------------------------------

  /** The listed filings with the passwords of the boxes behind them. */
  function PastOf(hist: seq<Filing>, d: Disk, id: Id): (p: seq<(int, string)>)
    requires Listed(hist, d, id)
  {
    seq(|hist|, i requires 0 <= i < |hist| => (hist[i].at, Dir(d, id)[hist[i].n].payload.password))
  }

  /** Boxes that gave way at one time. */
  function Dated(at: int, boxes: seq<Box>): (p: seq<(int, string)>)
    ensures |p| == |boxes|
  {
    seq(|boxes|, i requires 0 <= i < |boxes| => (at, boxes[i].payload.password))
  }

  function TimeOf(call: Call): int { call.at }

  /** Every real password of the login row that gave way in the run, with the time of the call it gave way in. */
  ghost function RunPast(env: Env, d: Disk, calls: seq<Call>, id: Id): seq<(int, string)> {
    if calls == [] then []
    else
      var before := End(env, d, calls[..|calls| - 1]);
      RunPast(env, d, calls[..|calls| - 1], id)
      + Dated(TimeOf(calls[|calls| - 1]), CallGaveWay(env, before, calls[|calls| - 1], id))
  }

  function Ats(hist: seq<Filing>): (a: seq<int>)
    ensures |a| == |hist|
  {
    seq(|hist|, i requires 0 <= i < |hist| => hist[i].at)
  }

  function Times(n: nat, at: int): (a: seq<int>)
    ensures |a| == n
  {
    seq(n, _ => at)
  }

  /** The times an entry's history lists after `n` more filings at `at`. */
  predicate Ages(before: seq<Filing>, n: nat, at: int, after: seq<Filing>) {
    |before| <= MAX_HISTORY ==> |after| <= MAX_HISTORY && Ats(after) == Latest(Ats(before) + Times(n, at))
  }

  lemma NoneAges(hist: seq<Filing>, at: int)
    ensures Ages(hist, 0, at, hist)
  {
    assert Ats(hist) + Times(0, at) == Ats(hist);
  }

  lemma AgesBoth(a: seq<Filing>, n: nat, b: seq<Filing>, m: nat, c: seq<Filing>, at: int)
    requires Ages(a, n, at, b) && Ages(b, m, at, c)
    ensures Ages(a, n + m, at, c)
  {
    if |a| <= MAX_HISTORY {
      LatestTwice(Ats(a) + Times(n, at), Times(m, at));
      assert Ats(a) + Times(n, at) + Times(m, at) == Ats(a) + Times(n + m, at);
    }
  }

  lemma ReplaceAges(env: Env, id: Id, rec: Rec, d: Disk, s: Secrets, at: int)
    ensures Ages(rec.hist, |Filings(ReplaceOps(env, id, rec, d, s, at), d, id)|, at, ReplaceHist(env, id, rec, d, s, at))
  {
    ReplaceFilings(env, id, rec, d, s, at);
    hide Filings, ReplaceOps, NextNumber, Dir, Same, Filing?;
    if Filing?(env, id, rec, d, s) {
      FilingIsNew(env, id, rec, d, s);
      var filed := Filed(id, rec, d, at);
      FiledAges(rec.hist, filed[|rec.hist|], at);
      assert filed == rec.hist + [filed[|rec.hist|]];
    } else {
      NoneAges(rec.hist, at);
    }
  }

  lemma FiledAges(hist: seq<Filing>, f: Filing, at: int)
    requires f.at == at
    ensures Ages(hist, 1, at, (hist + [f])[Overflow(hist + [f])..])
  {
    var all := hist + [f];
    assert Ats(all) == Ats(hist) + Times(1, at);
    assert Ats(all[Overflow(all)..]) == Ats(all)[Overflow(all)..];
  }

  lemma ItemAges(env: Env, st: St, it: Item, at: int, id: Id)
    ensures Ages(HistOf(st.doc, id), |Filings(ItemOps(env, st, it, at), st.disk, id)|, at,
                 HistOf(ItemStep(env, st, it, at).doc, id))
  {
    if it.id == id {
      var rec := Start(env, st.doc, it);
      ItemFilings(env, st, it, at);
      ReplaceAges(env, id, rec, st.disk, it.secrets, at);
      ItemHist(env, st, it, at);
    } else {
      hide Run, ItemOps, ItemRec, Filings, Ages;
      ItemOff(env, st, it, at, id);
      OffFilings(ItemOps(env, st, it, at), st.disk, id);
      NoneAges(HistOf(st.doc, id), at);
    }
  }

  lemma ItemHist(env: Env, st: St, it: Item, at: int)
    ensures HistOf(st.doc, it.id) == Start(env, st.doc, it).hist
    ensures HistOf(ItemStep(env, st, it, at).doc, it.id)
      == ReplaceHist(env, it.id, Start(env, st.doc, it), st.disk, it.secrets, at)
  {
    hide Run, ItemOps, Filed, Filing?;
  }

  lemma {:induction false} ItemsAge(env: Env, st: St, items: seq<Item>, at: int, id: Id)
    ensures Ages(HistOf(st.doc, id), |Filings(ItemsOps(env, st, items, at), st.disk, id)|, at,
                 HistOf(After(env, st, items, at).doc, id))
  {
    hide Run, ItemOps, ItemStep, Filings, Ages, HistOf;
    if items == [] {
      NoLinks([], st.disk, id);
      NoneAges(HistOf(st.doc, id), at);
    } else {
      var m := |items| - 1;
      var mid := After(env, st, items[..m], at);
      var a, b := ItemsOps(env, st, items[..m], at), ItemOps(env, mid, items[m], at);
      ItemsAge(env, st, items[..m], at, id);
      AfterDisk(env, st, items[..m], at);
      ItemAges(env, mid, items[m], at, id);
      FilingsBoth(a, b, st.disk, id);
      AgesBoth(HistOf(st.doc, id), |Filings(a, st.disk, id)|, HistOf(mid.doc, id), |Filings(b, mid.disk, id)|,
               HistOf(After(env, st, items, at).doc, id), at);
    }
  }

  /** Every filing of a call carries the call's time. */
  lemma CallAges(env: Env, d: Disk, call: Call, id: Id)
    ensures Ages(HistOf(d.meta, id), |Filings(CallOps(env, d, call), d, id)|, TimeOf(call), HistOf(CallDoc(env, d, call), id))
  {
    match call
    case Sync(items, gone, at) =>
      hide Run, ItemsOps, After, Filings, Ages;
      ItemsAge(env, Whole(d), items, at, id);
      MetaFilesNothing(ItemsOps(env, Whole(d), items, at), CallDoc(env, d, call), d, id);
    case Set(i, s, at) =>
      hide Run, ReplaceOps, ReplaceHist, Filings, Ages;
      if !Live(d.meta, i) {
        NoLinks([], d, id);
        NoneAges(HistOf(d.meta, id), at);
      } else {
        SetHist(env, d, i, s, at);
        MetaFilesNothing(ReplaceOps(env, i, d.meta[i], d, s, at), CallDoc(env, d, call), d, id);
        if i == id {
          ReplaceAges(env, i, d.meta[i], d, s, at);
        } else {
          ReplaceOff(env, i, d.meta[i], d, s, at, id);
          OffFilings(ReplaceOps(env, i, d.meta[i], d, s, at), d, id);
          NoneAges(HistOf(d.meta, id), at);
        }
      }
  }

  lemma ShelfPast(hist: seq<Filing>, d: Disk, id: Id)
    requires Listed(hist, d, id)
    ensures |PastOf(hist, d, id)| == |hist| && forall i :: 0 <= i < |hist| ==>
      PastOf(hist, d, id)[i] == (Ats(hist)[i], Shelf(hist, d, id)[i].box.payload.password)
  {
  }

  lemma CallPast(env: Env, d: Disk, call: Call, id: Id)
    requires Agrees(env, Whole(d)) && Listed(HistOf(d.meta, id), d, id)
    ensures var e := Run(CallOps(env, d, call), d);
      && Listed(HistOf(e.meta, id), e, id)
      && PastOf(HistOf(e.meta, id), e, id)
         == Latest(PastOf(HistOf(d.meta, id), d, id) + Dated(TimeOf(call), CallGaveWay(env, d, call, id)))
  {
    var e := Run(CallOps(env, d, call), d);
    var before, after := HistOf(d.meta, id), HistOf(e.meta, id);
    CallAges(env, d, call, id);
    CallShelves(env, d, call, id);
    CallEndsWritten(env, d, call);
    CallFiled(env, d, call, id);
    var filed := Filings(CallOps(env, d, call), d, id);
    ShelfPast(before, d, id);
    ShelfPast(after, e, id);
    hide Run, CallOps, CallDoc, Filings, Agrees, HistOf, Listed, Shelf, PastOf;
    JoinPast(PastOf(before, d, id), Ats(before), Shelf(before, d, id), filed, TimeOf(call),
             PastOf(after, e, id), Ats(after), Shelf(after, e, id));
  }

  /** Times and boxes of one list of filings, each cut to its latest, are the pairs cut to their latest. */
  lemma JoinPast(p: seq<(int, string)>, a: seq<int>, l: seq<Logged>, filed: seq<Logged>, at: int,
                 p': seq<(int, string)>, a': seq<int>, l': seq<Logged>)
    requires |p| == |a| == |l| && forall i :: 0 <= i < |p| ==> p[i] == (a[i], l[i].box.payload.password)
    requires |p'| == |a'| == |l'| && forall i :: 0 <= i < |p'| ==> p'[i] == (a'[i], l'[i].box.payload.password)
    requires a' == Latest(a + Times(|filed|, at)) && l' == Latest(l + filed)
    ensures p' == Latest(p + Dated(at, Boxes(filed)))
  {
    var all := p + Dated(at, Boxes(filed));
    assert |all| == |a + Times(|filed|, at)| == |l + filed|;
    forall i | 0 <= i < |all| ensures all[i] == ((a + Times(|filed|, at))[i], (l + filed)[i].box.payload.password) {}
  }

  lemma {:induction false} RunPastListed(env: Env, d: Disk, calls: seq<Call>, id: Id)
    requires Agrees(env, Whole(d)) && Listed(HistOf(d.meta, id), d, id)
    ensures var e := End(env, d, calls);
      && Agrees(env, Whole(e)) && Listed(HistOf(e.meta, id), e, id)
      && PastOf(HistOf(e.meta, id), e, id) == Latest(PastOf(HistOf(d.meta, id), d, id) + RunPast(env, d, calls, id))
  {
    hide Run, CallOps, Agrees, HistOf, PastOf, CallGaveWay, Listed;
    NoBlankFiled(env, d, calls, id);
    var was := PastOf(HistOf(d.meta, id), d, id);
    if calls == [] {
      assert was + [] == was;
      ShortPast(HistOf(d.meta, id), d, id);
    } else {
      var m := |calls| - 1;
      var before := End(env, d, calls[..m]);
      var more := Dated(TimeOf(calls[m]), CallGaveWay(env, before, calls[m], id));
      RunPastListed(env, d, calls[..m], id);
      CallPast(env, before, calls[m], id);
      LatestTwice(was + RunPast(env, d, calls[..m], id), more);
      assert was + RunPast(env, d, calls[..m], id) + more == was + (RunPast(env, d, calls[..m], id) + more);
    }
  }

  lemma ShortPast(hist: seq<Filing>, d: Disk, id: Id)
    requires Listed(hist, d, id)
    ensures |PastOf(hist, d, id)| <= MAX_HISTORY
  {
  }

  lemma {:induction false} SoundEnd(env: Env, d: Disk, calls: seq<Call>)
    requires Sound(env, d)
    ensures Sound(env, End(env, d, calls))
  {
    hide Sound, Run, CallOps;
    if calls != [] {
      var m := |calls| - 1;
      var before := End(env, d, calls[..m]);
      SoundEnd(env, d, calls[..m]);
      CallSound(env, before, calls[m]);
      var ops := CallOps(env, before, calls[m]);
      assert ops[..|ops|] == ops;
    }
  }

  /** What the unlocked store answers about one entry's past. */
  lemma PastAnswers(env: Env, t: R.Tree, d: Disk, id: Id)
    requires Keyed(env, t) && Agrees(env, Whole(d)) && Sound(env, d) && Listed(HistOf(d.meta, id), d, id)
    ensures Earlier(AtRest(env, t, d), id) == (
      match RowAt(AtRest(env, t, d), id)
      case Some(row) => Ok((PastOf(HistOf(d.meta, id), d, id), row.secrets.apple))
      case None => Err(R.NotFound))
  {
    AtRestUnlocks(env, t, d);
    AgreeingOpens(env, t, d, id);
    if Live(d.meta, id) {
      assert AgreeAt(env, d.meta[id], id, d);
      var t', hist := AtRest(env, t, d), d.meta[id].hist;
      forall i | 0 <= i < |hist| ensures (id, hist[i].n) in t'.hist && t'.hist[(id, hist[i].n)] == Dir(d, id)[hist[i].n] {
        AtRestFiles(env, t, d, id, hist[i].n);
      }
      hide AtRest, RowAt, Agrees, Keyed, Opened;
      PastSame(env, t', d, id, hist);
    }
  }

  lemma PastSame(env: Env, t: R.Tree, d: Disk, id: Id, hist: seq<Filing>)
    requires Listed(hist, d, id) && Sound(env, d)
    requires forall i :: 0 <= i < |hist| ==> (id, hist[i].n) in t.hist && t.hist[(id, hist[i].n)] == Dir(d, id)[hist[i].n]
    ensures R.Filled(t, id, hist) && R.PastOpens(env.key, t, id, hist) && R.Past(t, id, hist) == PastOf(hist, d, id)
  {
  }

  /** Over any run of syncs and edits from a sound and agreeing store: an unlock and get_history give the
      latest fifty of what was listed before and the real passwords that gave way, each with the time of
      its call, beside Apple's list of the last call that named the entry; the list counts both. */
  lemma HistoryAnswers(env: Env, t: R.Tree, d: Disk, calls: seq<Call>, id: Id)
    requires Keyed(env, t) && Agrees(env, Whole(d)) && Sound(env, d) && Listed(HistOf(d.meta, id), d, id)
    requires Tells(env, RowAt(AtRest(env, t, d), id))
    ensures var t' := AtRest(env, t, End(env, d, calls));
      Earlier(t', id) == (
        match Last(env, calls, id, RowAt(AtRest(env, t, d), id))
        case Some(row) => Ok((Latest(PastOf(HistOf(d.meta, id), d, id) + RunPast(env, d, calls, id)), row.secrets.apple))
        case None => Err(R.NotFound))
    ensures var t' := AtRest(env, t, End(env, d, calls));
      Earlier(t', id).Ok? ==> (
        && Listing(t').Ok? && id in Listing(t').value
        && Listing(t').value[id].2 == |Earlier(t', id).value.0| + |Earlier(t', id).value.1|)
  {
    var e := End(env, d, calls);
    hide End, Last, RunPast, RowAt, AtRest, Agrees, Sound, HistOf, Listed, PastOf, Keyed, Earlier, Listing;
    LastWriteAnswers(env, t, d, calls, id);
    RunPastListed(env, d, calls, id);
    SoundEnd(env, d, calls);
    PastAnswers(env, t, e, id);
    if RowAt(AtRest(env, t, e), id).Some? { CountAnswers(env, t, e, id); }
  }

  lemma CountAnswers(env: Env, t: R.Tree, d: Disk, id: Id)
    requires Keyed(env, t) && Agrees(env, Whole(d)) && Listed(HistOf(d.meta, id), d, id)
    requires RowAt(AtRest(env, t, d), id).Some?
    ensures var t' := AtRest(env, t, d);
      && Listing(t').Ok? && id in Listing(t').value
      && Listing(t').value[id].2 == |PastOf(HistOf(d.meta, id), d, id)| + |RowAt(t', id).value.secrets.apple|
  {
    AtRestUnlocks(env, t, d);
    AgreeingOpens(env, t, d, id);
    assert AgreeAt(env, d.meta[id], id, d);
  }
}
