/** apply_sync as a map update, the sync that repeats it, and the sync that follows a crash. */
module SyncRefines {
  import opened Wrappers
  import opened Entries
  import opened Vstore
  import opened Crash
  import opened Keeping
  import opened History

  /** What an entry is to its owner: nothing of versions, MACs or files. */
  datatype Entry = Entry(password: string, rest: Rest, fields: Fields, live: bool)

  type View = map<Id, Entry>

  ghost function EntryAt(st: St, id: Id): Entry
    requires id in st.doc && id in st.disk.boxes
  {
    var p := st.disk.boxes[id].payload;
    Entry(p.password, p.rest, st.doc[id].fields, st.doc[id].deleted.None?)
  }

  ghost function ViewOf(env: Env, st: St): View
    requires Agrees(env, st)
  {
    map id | id in st.doc :: assert AgreeAt(env, st.doc[id], id, st.disk); EntryAt(st, id)
  }

  function EntryOf(env: Env, it: Item): Entry {
    Entry(it.secrets.password, RestOf(it.secrets), Shown(env, it), true)
  }

  function UpsertAll(env: Env, view: View, items: seq<Item>): View {
    if items == [] then view
    else var it := items[|items| - 1]; UpsertAll(env, view, items[..|items| - 1])[it.id := EntryOf(env, it)]
  }

  function Remove(view: View, gone: set<Id>): View {
    map id | id in view :: if id in gone then view[id].(live := false) else view[id]
  }

  function Judge(env: Env, view: View, it: Item): Verdict {
    if it.id !in view || !view[it.id].live then Added
    else if view[it.id] != EntryOf(env, it) then Changed else Unchanged
  }

  function Tally(env: Env, view: View, items: seq<Item>, v: Verdict): nat {
    if items == [] then 0
    else Tally(env, view, items[..|items| - 1], v)
         + if Judge(env, UpsertAll(env, view, items[..|items| - 1]), items[|items| - 1]) == v then 1 else 0
  }

  function LiveGone(view: View, gone: set<Id>): set<Id> {
    set id | id in gone && id in view && view[id].live
  }

  // --- one item ---

  lemma InView(env: Env, st: St, id: Id)
    requires Agrees(env, st) && id in st.doc
    ensures id in st.disk.boxes && ViewOf(env, st)[id] == EntryAt(st, id)
  {
  }

  lemma ItemView(env: Env, st: St, it: Item, now: int)
    requires Agrees(env, st)
    ensures Agrees(env, ItemStep(env, st, it, now))
    ensures ViewOf(env, ItemStep(env, st, it, now)) == ViewOf(env, st)[it.id := EntryOf(env, it)]
  {
    hide Run, ItemOps, Agrees, AgreeAt;
    var st' := ItemStep(env, st, it, now);
    ItemKeepsAgreement(env, st, it, now);
    ItemAgrees(env, st, it, now);
    ItemOwn(env, st, it, now);
    forall id | id in st.doc && id != it.id ensures ViewOf(env, st')[id] == ViewOf(env, st)[id] {
      ItemOther(env, st, it, now, id);
      InView(env, st, id);
      InView(env, st', id);
    }
    InView(env, st', it.id);
  }

  lemma ItemOther(env: Env, st: St, it: Item, now: int, id: Id)
    requires id != it.id && id in st.doc
    ensures var st' := ItemStep(env, st, it, now); st'.doc[id] == st.doc[id] && SameFiles(st'.disk, st.disk, id)
  {
    hide Run, ItemOps, ItemRec;
    ItemOff(env, st, it, now, id);
    OffRun(ItemOps(env, st, it, now), st.disk, id);
  }

  lemma ItemJudged(env: Env, st: St, it: Item)
    requires Agrees(env, st)
    ensures VerdictOf(env, st, it) == Judge(env, ViewOf(env, st), it)
  {
  }

  lemma {:induction false} ItemsView(env: Env, st: St, items: seq<Item>, now: int)
    requires Agrees(env, st)
    ensures Agrees(env, After(env, st, items, now))
    ensures ViewOf(env, After(env, st, items, now)) == UpsertAll(env, ViewOf(env, st), items)
    ensures forall v :: Count(env, st, items, now, v) == Tally(env, ViewOf(env, st), items, v)
  {
    hide Agrees, ItemStep, VerdictOf, Judge, EntryOf, ViewOf;
    if items != [] {
      var m := |items| - 1;
      ItemsView(env, st, items[..m], now);
      ItemView(env, After(env, st, items[..m], now), items[m], now);
      ItemJudged(env, After(env, st, items[..m], now), items[m]);
    }
  }

  // --- the whole call ---

  ghost function SyncEnd(env: Env, d: Disk, items: seq<Item>, gone: set<Id>, now: int): Disk {
    Run(SyncOps(env, Whole(d), items, gone, now), d)
  }

  lemma BuryView(env: Env, st: St, gone: set<Id>, now: int, st': St)
    requires Agrees(env, st) && Agrees(env, st')
    requires st'.doc == Bury(st.doc, Going(st.doc, gone), now) && st'.disk.boxes == st.disk.boxes
    ensures ViewOf(env, st') == Remove(ViewOf(env, st), gone)
    ensures Going(st.doc, gone) == LiveGone(ViewOf(env, st), gone)
  {
    hide AgreeAt;
  }

  /** From agreement, the sync is a map update: each item's entry becomes the item's, ids not named
      keep theirs, the live ids listed as deleted are tombstoned, and the counts are of that update. */
  lemma SyncIsMapUpdate(env: Env, d: Disk, items: seq<Item>, gone: set<Id>, now: int)
    requires Agrees(env, Whole(d))
    ensures var d' := SyncEnd(env, d, items, gone, now); var view := ViewOf(env, Whole(d));
      && Agrees(env, Whole(d'))
      && ViewOf(env, Whole(d')) == Remove(UpsertAll(env, view, items), gone)
      && SyncCounts(env, Whole(d), items, gone, now)
         == Counts(Tally(env, view, items, Added), Tally(env, view, items, Changed),
                   |LiveGone(UpsertAll(env, view, items), gone)|, Tally(env, view, items, Unchanged))
  {
    hide Agrees, Run, ItemsOps, After, Tally, Count, Bury, Going, ViewOf, UpsertAll, Remove, LiveGone;
    var st, call := Whole(d), Sync(items, gone, now);
    var mid := After(env, st, items, now);
    ItemsView(env, st, items, now);
    CallAgrees(env, d, call);
    CallEndsWritten(env, d, call);
    AfterDisk(env, st, items, now);
    RunThen(ItemsOps(env, st, items, now), Meta(CallDoc(env, d, call)), d);
    BuryView(env, mid, gone, now, Whole(SyncEnd(env, d, items, gone, now)));
  }

  // --- the same sync again ---

  /** Two items with one id say the same. */
  predicate Consistent(env: Env, items: seq<Item>) {
    forall i, j :: 0 <= i < j < |items| && items[i].id == items[j].id ==> EntryOf(env, items[i]) == EntryOf(env, items[j])
  }

  predicate Holding(env: Env, view: View, items: seq<Item>) {
    forall i :: 0 <= i < |items| ==> items[i].id in view && view[items[i].id] == EntryOf(env, items[i])
  }

  lemma {:induction false} TallyBound(env: Env, view: View, items: seq<Item>)
    ensures Tally(env, view, items, Unchanged) <= |items|
  {
    if items != [] {
      TallyBound(env, view, items[..|items| - 1]);
    }
  }

  lemma {:induction false} AllUnchanged(env: Env, view: View, items: seq<Item>)
    ensures Tally(env, view, items, Unchanged) == |items| <==> Holding(env, view, items)
    ensures Holding(env, view, items) ==> UpsertAll(env, view, items) == view
  {
    hide EntryOf;
    if items != [] {
      var m := |items| - 1;
      AllUnchanged(env, view, items[..m]);
      TallyBound(env, view, items[..m]);
      assert items == items[..m] + [items[m]];
      if Holding(env, view, items) {
        assert Holding(env, view, items[..m]);
        EntryLive(env, items[m]);
      }
    }
  }

  lemma EntryLive(env: Env, it: Item)
    ensures EntryOf(env, it).live
  {
  }

  lemma {:induction false} UpsertLast(env: Env, view: View, items: seq<Item>, i: nat)
    requires i < |items|
    ensures items[i].id in UpsertAll(env, view, items)
    ensures exists j :: i <= j < |items| && items[j].id == items[i].id
                        && UpsertAll(env, view, items)[items[i].id] == EntryOf(env, items[j])
  {
    hide EntryOf;
    var m := |items| - 1;
    if items[m].id == items[i].id {
    } else {
      UpsertLast(env, view, items[..m], i);
      var j :| i <= j < m && items[..m][j].id == items[i].id
               && UpsertAll(env, view, items[..m])[items[i].id] == EntryOf(env, items[..m][j]);
      assert items[j] == items[..m][j];
    }
  }

  lemma UpsertConsistent(env: Env, view: View, items: seq<Item>)
    requires Consistent(env, items)
    ensures Holding(env, UpsertAll(env, view, items), items)
  {
    hide EntryOf, UpsertAll;
    forall i | 0 <= i < |items|
      ensures items[i].id in UpsertAll(env, view, items)
      ensures UpsertAll(env, view, items)[items[i].id] == EntryOf(env, items[i])
    {
      UpsertLast(env, view, items, i);
    }
  }

  lemma HoldingAfter(env: Env, view: View, items: seq<Item>, gone: set<Id>)
    ensures Holding(env, Remove(UpsertAll(env, view, items), gone), items)
            <==> Consistent(env, items) && forall i :: 0 <= i < |items| ==> items[i].id !in gone
  {
    hide UpsertAll;
    var after := Remove(UpsertAll(env, view, items), gone);
    if Holding(env, after, items) {
      forall i, j | 0 <= i < j < |items| && items[i].id == items[j].id
        ensures EntryOf(env, items[i]) == EntryOf(env, items[j])
      {
        assert after[items[i].id] == EntryOf(env, items[i]) && after[items[j].id] == EntryOf(env, items[j]);
      }
    }
    if Consistent(env, items) && forall i :: 0 <= i < |items| ==> items[i].id !in gone {
      UpsertConsistent(env, view, items);
    }
  }

  /** The same sync again reports every item unchanged exactly when no item is also listed as deleted
      and items that share an id agree. */
  lemma SecondSyncUnchanged(env: Env, d: Disk, items: seq<Item>, gone: set<Id>, now: int, later: int)
    requires Agrees(env, Whole(d))
    ensures var d' := SyncEnd(env, d, items, gone, now);
      SyncCounts(env, Whole(d'), items, gone, later).same == |items|
      <==> Consistent(env, items) && forall i :: 0 <= i < |items| ==> items[i].id !in gone
  {
    hide Agrees, Tally, SyncEnd, ViewOf, UpsertAll, SyncCounts, Consistent, Remove;
    var d' := SyncEnd(env, d, items, gone, now);
    SyncIsMapUpdate(env, d, items, gone, now);
    SyncIsMapUpdate(env, d', items, gone, later);
    HoldingAfter(env, ViewOf(env, Whole(d)), items, gone);
    AllUnchanged(env, ViewOf(env, Whole(d')), items);
  }

  ghost predicate BoxIs(d: Disk, id: Id, s: Secrets) {
    id in d.boxes && d.boxes[id].payload.password == s.password && d.boxes[id].payload.rest == RestOf(s)
  }

  predicate OnlyMeta(ops: seq<Op>) {
    forall i :: 0 <= i < |ops| ==> ops[i].Meta?
  }

  lemma {:induction false} OnlyMetaRun(ops: seq<Op>, d: Disk)
    requires OnlyMeta(ops)
    ensures Run(ops, d).boxes == d.boxes && Run(ops, d).hist == d.hist
  {
    if ops != [] {
      assert ops[|ops| - 1].Meta?;
      OnlyMetaRun(ops[..|ops| - 1], d);
    }
  }

  lemma ItemQuiet(env: Env, st: St, it: Item, now: int)
    requires it.id in st.doc && AgreeAt(env, st.doc[it.id], it.id, st.disk) && BoxIs(st.disk, it.id, it.secrets)
    ensures OnlyMeta(ItemOps(env, st, it, now))
  {
  }

  lemma {:induction false} ItemsQuiet(env: Env, st: St, items: seq<Item>, now: int)
    requires Agrees(env, st)
    requires forall i :: 0 <= i < |items| ==> items[i].id in st.doc && BoxIs(st.disk, items[i].id, items[i].secrets)
    ensures OnlyMeta(ItemsOps(env, st, items, now))
    ensures After(env, st, items, now).disk.boxes == st.disk.boxes && st.doc.Keys <= After(env, st, items, now).doc.Keys
  {
    hide Run, ItemOps, ItemRec, AgreeAt;
    if items != [] {
      var m := |items| - 1;
      var mid := After(env, st, items[..m], now);
      ItemsQuiet(env, st, items[..m], now);
      ItemsKeepAgreement(env, st, items[..m], now);
      ItemQuiet(env, mid, items[m], now);
      OnlyMetaRun(ItemOps(env, mid, items[m], now), mid.disk);
    }
  }

  /** Deleted or not, the same sync again writes, files and drops no box. */
  lemma SecondSyncWritesNoBox(env: Env, d: Disk, items: seq<Item>, gone: set<Id>, now: int, later: int)
    requires Agrees(env, Whole(d)) && Consistent(env, items)
    ensures OnlyMeta(SyncOps(env, Whole(SyncEnd(env, d, items, gone, now)), items, gone, later))
  {
    hide Run, ItemsOps, SyncDoc, UpsertAll, SyncEnd, SyncCounts, AgreeAt, Consistent;
    var d' := SyncEnd(env, d, items, gone, now);
    SyncIsMapUpdate(env, d, items, gone, now);
    UpsertConsistent(env, ViewOf(env, Whole(d)), items);
    forall i | 0 <= i < |items| ensures items[i].id in d'.meta && BoxIs(d', items[i].id, items[i].secrets) {
      assert items[i].id in ViewOf(env, Whole(d'));
      assert ViewOf(env, Whole(d'))[items[i].id] == EntryAt(Whole(d'), items[i].id) by {
        InView(env, Whole(d'), items[i].id);
      }
      InView(env, Whole(d'), items[i].id);
    }
    ItemsQuiet(env, Whole(d'), items, later);
  }

  // --- the sync after a crash ---

  /** Whatever the disk holds, after one item metadata and box of its live entry agree exactly when the
      stored MACs were not already the item's, or they agreed before; and the box has the item's secrets
      exactly when they were not, or it had them before. */
  lemma RepairedExactly(env: Env, st: St, it: Item, now: int)
    requires Live(st.doc, it.id)
    ensures var st' := ItemStep(env, st, it, now); var same := Same(env, it.id, st.doc[it.id], st.disk, it.secrets);
      && (AgreeAt(env, st'.doc[it.id], it.id, st'.disk) <==> !same || AgreeAt(env, st.doc[it.id], it.id, st.disk))
      && (BoxIs(st'.disk, it.id, it.secrets) <==> !same || BoxIs(st.disk, it.id, it.secrets))
  {
    hide Run, Filing?, FileOps, ReplaceHist, Same;
    var rec := st.doc[it.id];
    var ops := ReplaceOps(env, it.id, rec, st.disk, it.secrets, now);
    var m := Meta(st.doc[it.id := ItemRec(env, st, it, now)]);
    RunNone(st.disk);
    RunThen(ops, m, st.disk);
    assert ops + [] == ops;
    if !Same(env, it.id, rec, st.disk, it.secrets) {
      var first := ops[..|ops| - 1];
      assert ops == first + [Write(it.id, NewBox(env, it.id, rec, it.secrets))];
      RunThen(first, Write(it.id, NewBox(env, it.id, rec, it.secrets)), st.disk);
    }
  }

  function ItemFor(items: seq<Item>, id: Id): Option<Item> {
    if items == [] then None
    else if items[|items| - 1].id == id then Some(items[|items| - 1])
    else ItemFor(items[..|items| - 1], id)
  }

  /** The sync names the entry with secrets its MACs are not of, or there is nothing to repair. */
  ghost predicate Repairs(env: Env, st: St, id: Id, item: Option<Item>)
    requires id in st.doc
  {
    || (item.Some? && !Same(env, id, st.doc[id], st.disk, item.value.secrets))
    || AgreeAt(env, st.doc[id], id, st.disk)
  }

  lemma SameRepairs(env: Env, a: St, b: St, id: Id, item: Option<Item>)
    requires id in a.doc && id in b.doc && a.doc[id] == b.doc[id] && SameFiles(a.disk, b.disk, id)
    ensures Repairs(env, a, id, item) == Repairs(env, b, id, item)
    ensures AgreeAt(env, a.doc[id], id, a.disk) == AgreeAt(env, b.doc[id], id, b.disk)
  {
  }

  lemma {:induction false} ItemsRepair(env: Env, st: St, items: seq<Item>, now: int, id: Id)
    requires Live(st.doc, id) && Distinct(items)
    ensures var e := After(env, st, items, now);
      id in e.doc && (AgreeAt(env, e.doc[id], id, e.disk) <==> Repairs(env, st, id, ItemFor(items, id)))
  {
    hide ItemStep, ItemOps, Run, Repairs, AgreeAt;
    if items == [] {
      NothingNamed(env, st, id);
    } else {
      var m := |items| - 1;
      var it, mid := items[m], After(env, st, items[..m], now);
      ItemsRepair(env, st, items[..m], now, id);
      if it.id == id {
        ItemsOff(env, st, items[..m], now, id);
        AfterDisk(env, st, items[..m], now);
        OffRun(ItemsOps(env, st, items[..m], now), st.disk, id);
        SameRepairs(env, mid, st, id, Some(it));
        RepairedExactly(env, mid, it, now);
        OneRepairs(env, mid, it);
        ItemDomain(env, mid, it, now);
      } else {
        ItemOther(env, mid, it, now, id);
        ItemDomain(env, mid, it, now);
        SameRepairs(env, mid, ItemStep(env, mid, it, now), id, None);
      }
    }
  }

  lemma NothingNamed(env: Env, st: St, id: Id)
    requires id in st.doc
    ensures Repairs(env, st, id, None) == AgreeAt(env, st.doc[id], id, st.disk)
  {
  }

  lemma OneRepairs(env: Env, st: St, it: Item)
    requires it.id in st.doc
    ensures Repairs(env, st, it.id, Some(it))
            <==> !Same(env, it.id, st.doc[it.id], st.disk, it.secrets) || AgreeAt(env, st.doc[it.id], it.id, st.disk)
  {
  }

  lemma ItemDomain(env: Env, st: St, it: Item, now: int)
    ensures ItemStep(env, st, it, now).doc.Keys == st.doc.Keys + {it.id}
  {
    hide Run, ItemOps, ItemRec;
  }

  /** A whole sync restores agreement of a live entry exactly when it names the entry with secrets its
      stored MACs are not of, or there was agreement. */
  lemma SyncRepairsExactly(env: Env, d: Disk, items: seq<Item>, gone: set<Id>, now: int, id: Id)
    requires Live(d.meta, id) && Distinct(items)
    ensures var d' := SyncEnd(env, d, items, gone, now);
      id in d'.meta && (AgreeAt(env, d'.meta[id], id, d') <==> Repairs(env, Whole(d), id, ItemFor(items, id)))
  {
    hide ItemsOps, Run, Repairs;
    var st := Whole(d);
    var mid := After(env, st, items, now);
    ItemsRepair(env, st, items, now, id);
    AfterDisk(env, st, items, now);
    RunThen(ItemsOps(env, st, items, now), Meta(SyncDoc(env, st, items, gone, now)), d);
  }

  /** The disk when set_secrets stops between writing the box and writing the metadata. */
  ghost function Torn(env: Env, d: Disk, id: Id, s: Secrets, at: int): Disk
    requires id in d.meta
  {
    Run(ReplaceOps(env, id, d.meta[id], d, s, at), d)
  }

  lemma TornFacts(env: Env, d: Disk, id: Id, s: Secrets, at: int)
    requires Live(d.meta, id) && AgreeAt(env, d.meta[id], id, d)
    ensures Torn(env, d, id, s, at).meta == d.meta && BoxIs(Torn(env, d, id, s, at), id, s)
  {
    hide Run, Filing?, FileOps, ReplaceRec;
    ReplaceAgrees(env, id, d.meta[id], d, s, at);
    var ops := ReplaceOps(env, id, d.meta[id], d, s, at);
    forall i | 0 <= i < |ops| ensures !ops[i].Meta? {
      NoMeta(env, id, d.meta[id], d, s, at, i);
    }
    MetaStays(ops, d);
  }

  lemma NoMeta(env: Env, id: Id, rec: Rec, d: Disk, s: Secrets, at: int, i: nat)
    requires i < |ReplaceOps(env, id, rec, d, s, at)|
    ensures var ops := ReplaceOps(env, id, rec, d, s, at);
      !ops[i].Meta? && (i < |ops| - 1 ==> !ops[i].Write?)
  {
    hide Same, Filing?, NextNumber, Overflow;
  }

  lemma {:induction false} MetaStays(ops: seq<Op>, d: Disk)
    requires forall i :: 0 <= i < |ops| ==> !ops[i].Meta?
    ensures Run(ops, d).meta == d.meta
  {
    if ops != [] {
      MetaStays(ops[..|ops| - 1], d);
    }
  }

  /** After that crash, a sync that still brings the old item counts it unchanged and leaves the new
      box: metadata and box stay apart. */
  lemma StaleItemUnrepaired(env: Env, d: Disk, it: Item, s: Secrets, at: int, now: int)
    requires Live(d.meta, it.id) && AgreeAt(env, d.meta[it.id], it.id, d) && BoxIs(d, it.id, it.secrets)
    requires d.meta[it.id].fields == Shown(env, it)
    requires s.password != it.secrets.password || RestOf(s) != RestOf(it.secrets)
    ensures var torn := Torn(env, d, it.id, s, at);
      && VerdictOf(env, Whole(torn), it) == Unchanged
      && BoxIs(ItemStep(env, Whole(torn), it, now).disk, it.id, s)
      && !AgreeAt(env, ItemStep(env, Whole(torn), it, now).doc[it.id], it.id, ItemStep(env, Whole(torn), it, now).disk)
  {
    hide Run, Filing?, FileOps, Torn;
    var torn := Torn(env, d, it.id, s, at);
    TornFacts(env, d, it.id, s, at);
    var rec := d.meta[it.id];
    assert Same(env, it.id, rec, torn, it.secrets);
    assert ReplaceOps(env, it.id, rec, torn, it.secrets, now) == [];
    assert ItemOps(env, Whole(torn), it, now) == [];
    RunNone(torn);
  }

  /** After that crash, a sync that brings the new item files the box that holds the current password:
      the entry's latest "earlier" password is its own. */
  lemma CurrentFiledAsOld(env: Env, d: Disk, it: Item, at: int, now: int)
    requires Live(d.meta, it.id) && AgreeAt(env, d.meta[it.id], it.id, d) && d.meta[it.id].fields.kind != Passkey
    requires d.boxes[it.id].payload.password != "" && d.boxes[it.id].payload.password != it.secrets.password
    ensures var torn := Torn(env, d, it.id, it.secrets, at);
      var filed := Filings(ItemOps(env, Whole(torn), it, now), torn, it.id);
      |filed| == 1 && filed[0].box.payload.password == it.secrets.password
  {
    hide Run, FileOps, Torn, Filings, ItemRec, NextNumber, ReplaceOps;
    var torn := Torn(env, d, it.id, it.secrets, at);
    TornFacts(env, d, it.id, it.secrets, at);
    var rec := d.meta[it.id];
    var ops := ReplaceOps(env, it.id, rec, torn, it.secrets, now);
    ReplaceFilings(env, it.id, rec, torn, it.secrets, now);
    var tail: seq<Op> := if ItemOps(env, Whole(torn), it, now) == ops then []
                         else [Meta(torn.meta[it.id := ItemRec(env, Whole(torn), it, now)])];
    assert ItemOps(env, Whole(torn), it, now) == ops + tail;
    MetaOff(tail, it.id);
    OffFilings(tail, Run(ops, torn), it.id);
    FilingsBoth(ops, tail, torn, it.id);
  }

  /** The disk when set_secrets stops after any one of its file operations. */
  ghost function Stopped(env: Env, d: Disk, id: Id, s: Secrets, at: int, k: nat): Disk
    requires id in d.meta && k <= |SetOps(env, d.meta, d, id, s, at)|
  {
    Run(SetOps(env, d.meta, d, id, s, at)[..k], d)
  }

  /** It stops after the box and before the metadata. */
  ghost predicate Between(env: Env, d: Disk, id: Id, s: Secrets, at: int, k: nat)
    requires id in d.meta
  {
    k == |SetOps(env, d.meta, d, id, s, at)| - 1
  }

  lemma StoppedBetween(env: Env, d: Disk, id: Id, s: Secrets, at: int, k: nat)
    requires id in d.meta && Between(env, d, id, s, at, k)
    ensures Stopped(env, d, id, s, at, k) == Torn(env, d, id, s, at)
  {
    hide ReplaceOps, SetDoc, Run;
    var ops := ReplaceOps(env, id, d.meta[id], d, s, at);
    assert SetOps(env, d.meta, d, id, s, at)[..k] == ops;
  }

  /** Before that: metadata as it was, and the old box or none. */
  lemma StoppedEarlier(env: Env, d: Disk, id: Id, s: Secrets, at: int, k: nat)
    requires Live(d.meta, id) && AgreeAt(env, d.meta[id], id, d) && k < |ReplaceOps(env, id, d.meta[id], d, s, at)|
    ensures k <= |SetOps(env, d.meta, d, id, s, at)|
    ensures var e := Stopped(env, d, id, s, at, k);
      && e.meta == d.meta && (id in e.boxes ==> AgreeAt(env, d.meta[id], id, e))
      && (id !in e.boxes <==> Filing?(env, id, d.meta[id], d, s) && 2 <= k)
  {
    hide SetDoc, Run, Filing?, FileOps, Same;
    var rec := d.meta[id];
    var ops := ReplaceOps(env, id, rec, d, s, at);
    assert SetOps(env, d.meta, d, id, s, at)[..k] == ops[..k];
    forall i | 0 <= i < k ensures !ops[..k][i].Meta? && !ops[..k][i].Write? {
      NoMeta(env, id, rec, d, s, at, i);
    }
    MetaStays(ops[..k], d);
    BoxStays(ops[..k], d, id);
    if Filing?(env, id, rec, d, s) {
      MissingExactly(env, id, rec, d, s, at, k);
    } else {
      assert |ops| <= 1 && ops[..k] == [];
      RunNone(d);
    }
  }

  lemma {:induction false} BoxStays(ops: seq<Op>, d: Disk, id: Id)
    requires forall i :: 0 <= i < |ops| ==> !ops[i].Write?
    ensures id in Run(ops, d).boxes ==> id in d.boxes && Run(ops, d).boxes[id] == d.boxes[id]
  {
    if ops != [] {
      BoxStays(ops[..|ops| - 1], d, id);
    }
  }

  /** After it ran to its end: agreement. */
  lemma StoppedAtEnd(env: Env, d: Disk, id: Id, s: Secrets, at: int)
    requires Live(d.meta, id) && AgreeAt(env, d.meta[id], id, d)
    ensures var e := Run(SetOps(env, d.meta, d, id, s, at), d);
      Live(e.meta, id) && AgreeAt(env, e.meta[id], id, e)
  {
    hide Run, ReplaceOps, ReplaceHist, Same;
    var ops := ReplaceOps(env, id, d.meta[id], d, s, at);
    ReplaceAgrees(env, id, d.meta[id], d, s, at);
    RunThen(ops, Meta(SetDoc(env, d.meta, d, id, s, at)), d);
  }

  ghost predicate SameSecrets(box: Box, s: Secrets) {
    box.payload.password == s.password && box.payload.rest == RestOf(s)
  }

  /** From agreement, an edit is cut off after any of its file operations and a sync follows. Metadata and
      box agree at its end if and only if: cut off between box and metadata, the edit had changed nothing
      or the sync brings the entry with other secrets than the old ones; cut off while the old box was
      being filed, the sync brings the entry at all; cut off anywhere else, always. */
  lemma CrashRepairedExactly(env: Env, d: Disk, id: Id, s: Secrets, at: int, k: nat,
                             items: seq<Item>, gone: set<Id>, now: int)
    requires Live(d.meta, id) && AgreeAt(env, d.meta[id], id, d) && Distinct(items)
    requires k <= |SetOps(env, d.meta, d, id, s, at)|
    ensures var e := SyncEnd(env, Stopped(env, d, id, s, at, k), items, gone, now); var named := ItemFor(items, id);
      && id in e.meta
      && (AgreeAt(env, e.meta[id], id, e) <==>
          if Between(env, d, id, s, at, k) then
            SameSecrets(d.boxes[id], s) || (named.Some? && !SameSecrets(d.boxes[id], named.value.secrets))
          else if Filing?(env, id, d.meta[id], d, s) && 2 <= k < |SetOps(env, d.meta, d, id, s, at)| then named.Some?
          else true)
  {
    hide SyncEnd, SetDoc, ReplaceOps, Run, Filing?;
    var ops := SetOps(env, d.meta, d, id, s, at);
    var stop := Stopped(env, d, id, s, at, k);
    if Between(env, d, id, s, at, k) {
      StoppedBetween(env, d, id, s, at, k);
      TornFacts(env, d, id, s, at);
      TornBox(env, d, id, s, at);
    } else if k == |ops| {
      assert ops[..k] == ops;
      StoppedAtEnd(env, d, id, s, at);
    } else {
      StoppedEarlier(env, d, id, s, at, k);
    }
    SyncRepairsExactly(env, stop, items, gone, now, id);
  }

  /** In between, the box opens with its id and holds the new secrets under the next version, or the old
      box stands when nothing changed. */
  lemma TornBox(env: Env, d: Disk, id: Id, s: Secrets, at: int)
    requires Live(d.meta, id) && AgreeAt(env, d.meta[id], id, d)
    ensures var e := Torn(env, d, id, s, at);
      id in e.boxes && (AgreeAt(env, d.meta[id], id, e) <==> SameSecrets(d.boxes[id], s))
  {
    hide Run, Filing?, FileOps, ReplaceHist;
    var rec := d.meta[id];
    var ops := ReplaceOps(env, id, rec, d, s, at);
    if Same(env, id, rec, d, s) {
      RunNone(d);
    } else {
      var first := ops[..|ops| - 1];
      assert ops == first + [Write(id, NewBox(env, id, rec, s))];
      RunThen(first, Write(id, NewBox(env, id, rec, s)), d);
    }
  }
}
