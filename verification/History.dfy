/** Over any run without a crash, an entry's history is the latest filings, in order, unopened. */
module History {
  import opened Wrappers
  import opened Entries
  import opened Vstore
  import opened Crash
  import opened Keeping

  /** An old box and the number it was filed under. */
  datatype Logged = Logged(n: nat, box: Box)

  /** What the links among `ops` filed for `id`, in order. */
  ghost function Filings(ops: seq<Op>, d: Disk, id: Id): seq<Logged> {
    if ops == [] then []
    else
      var m := |ops| - 1;
      var before := Run(ops[..m], d);
      Filings(ops[..m], d, id)
      + (if ops[m].Link? && ops[m].id == id && id in before.boxes && ops[m].n !in Dir(before, id)
         then [Logged(ops[m].n, before.boxes[id])] else [])
  }

  function Latest<T>(s: seq<T>): seq<T> {
    if |s| > MAX_HISTORY then s[|s| - MAX_HISTORY..] else s
  }

  function HistOf(doc: Doc, id: Id): seq<Filing> {
    if id in doc then doc[id].hist else []
  }

  /** Numbers go up, there are at most fifty, and each has its file. */
  predicate Listed(hist: seq<Filing>, d: Disk, id: Id) {
    |hist| <= MAX_HISTORY && Rising(hist) && OnDisk(hist, d, id)
  }

  predicate OnDisk(hist: seq<Filing>, d: Disk, id: Id) {
    forall i :: 0 <= i < |hist| ==> hist[i].n in Dir(d, id)
  }

  predicate NoTwice(hist: seq<Filing>) {
    forall i, j :: 0 <= i < j < |hist| ==> hist[i].n != hist[j].n
  }

  predicate Rising(hist: seq<Filing>) {
    forall i, j :: 0 <= i < j < |hist| ==> hist[i].n < hist[j].n
  }

  /** The listed numbers with the boxes behind them. */
  function Shelf(hist: seq<Filing>, d: Disk, id: Id): seq<Logged>
    requires Listed(hist, d, id)
  {
    seq(|hist|, i requires 0 <= i < |hist| => Logged(hist[i].n, Dir(d, id)[hist[i].n]))
  }

  lemma LatestTwice<T>(a: seq<T>, b: seq<T>)
    ensures Latest(Latest(a) + b) == Latest(a + b)
  {
  }

  lemma {:induction false} FilingsBoth(a: seq<Op>, b: seq<Op>, d: Disk, id: Id)
    ensures Filings(a + b, d, id) == Filings(a, d, id) + Filings(b, Run(a, d), id)
    decreases |b|
  {
    if b == [] {
      assert a + b == a;
    } else {
      var m := |b| - 1;
      FilingsBoth(a, b[..m], d, id);
      RunBoth(a, b[..m], d);
      assert (a + b)[..|a| + m] == a + b[..m] && (a + b)[|a| + m] == b[m];
    }
  }

  lemma {:induction false} NoLinks(ops: seq<Op>, d: Disk, id: Id)
    requires forall i :: 0 <= i < |ops| ==> ops[i].Link? ==> ops[i].id != id
    ensures Filings(ops, d, id) == []
  {
    if ops != [] {
      NoLinks(ops[..|ops| - 1], d, id);
    }
  }

  lemma OffFilings(ops: seq<Op>, d: Disk, id: Id)
    requires AllOff(ops, id)
    ensures Filings(ops, d, id) == []
  {
  }

  // --- one replacement ---

  lemma OneLink(d: Disk, id: Id, n: nat)
    requires id in d.boxes && n !in Dir(d, id)
    ensures Filings([Link(id, n)], d, id) == [Logged(n, d.boxes[id])]
  {
  }

  /** The link takes effect, and it is the only one. */
  lemma ReplaceFilings(env: Env, id: Id, rec: Rec, d: Disk, s: Secrets, now: int)
    ensures Filings(ReplaceOps(env, id, rec, d, s, now), d, id)
            == if Filing?(env, id, rec, d, s) then [Logged(NextNumber(rec.hist, Dir(d, id)), d.boxes[id])] else []
  {
    hide Overflow, Filings, Run, NextNumber;
    var ops := ReplaceOps(env, id, rec, d, s, now);
    if Filing?(env, id, rec, d, s) {
      var n := NextNumber(rec.hist, Dir(d, id));
      NextIsFresh(rec.hist, Dir(d, id));
      assert ops == [Link(id, n)] + ops[1..];
      FilingsBoth([Link(id, n)], ops[1..], d, id);
      NoLinks(ops[1..], Run([Link(id, n)], d), id);
      OneLink(d, id, n);
    } else {
      NoLinks(ops, d, id);
    }
  }

  /** After its link a filing drops only what is over the limit, never a kept number. */
  lemma KeptNotDropped(env: Env, id: Id, rec: Rec, d: Disk, s: Secrets, now: int, i: nat, j: nat)
    requires Filing?(env, id, rec, d, s) && NoTwice(rec.hist)
    requires var filed := Filed(id, rec, d, now); Overflow(filed) <= i < |filed|
    requires j + 1 < |ReplaceOps(env, id, rec, d, s, now)|
    ensures ReplaceOps(env, id, rec, d, s, now)[j + 1] != Drop(id, Filed(id, rec, d, now)[i].n)
  {
    hide Dir, NextNumber, Filing?;
    NextIsFresh(rec.hist, Dir(d, id));
    FilingIsNew(env, id, rec, d, s);
    var filed := Filed(id, rec, d, now);
    var drops := filed[..Overflow(filed)];
    var ops := ReplaceOps(env, id, rec, d, s, now);
    assert ops == [Link(id, NextNumber(rec.hist, Dir(d, id))), Unlink(id)] + Drops(id, drops)
                  + [Write(id, NewBox(env, id, rec, s))];
    if ops[j + 1].Drop? {
      assert ops[j + 1] == Drop(id, drops[j - 1].n) && drops[j - 1] == filed[j - 1];
    }
  }

  /** After a filing: the kept numbers still have the boxes they had, and the new one the old box. */
  lemma FiledFiles(env: Env, id: Id, rec: Rec, d: Disk, s: Secrets, now: int, i: nat)
    requires Filing?(env, id, rec, d, s) && NoTwice(rec.hist) && OnDisk(rec.hist, d, id)
    requires var filed := Filed(id, rec, d, now); Overflow(filed) <= i < |filed|
    ensures var n := Filed(id, rec, d, now)[i].n; var d' := Run(ReplaceOps(env, id, rec, d, s, now), d);
      && n in Dir(d', id)
      && Dir(d', id)[n] == if i < |rec.hist| then Dir(d, id)[n] else d.boxes[id]
  {
    hide Run, NextNumber, ReplaceOps, Dir, NoTwice;
    var ops := ReplaceOps(env, id, rec, d, s, now);
    var filed := Filed(id, rec, d, now);
    var m := NextNumber(rec.hist, Dir(d, id));
    NextIsFresh(rec.hist, Dir(d, id));
    LinkFirst(env, id, rec, d, s, now);
    assert ops == [Link(id, m)] + ops[1..];
    RunOne(Link(id, m), d);
    RunBoth([Link(id, m)], ops[1..], d);
    LinkedDir(id, m, d);
    var n := filed[i].n;
    forall j | 0 <= j < |ops[1..]| ensures ops[1..][j] != Drop(id, n) {
      KeptNotDropped(env, id, rec, d, s, now, i, j);
    }
    HistoryStays(ops[1..], Apply(Link(id, m), d), id, n);
  }

  lemma LinkFirst(env: Env, id: Id, rec: Rec, d: Disk, s: Secrets, now: int)
    requires Filing?(env, id, rec, d, s)
    ensures var ops := ReplaceOps(env, id, rec, d, s, now); |ops| > 0 && ops[0] == Link(id, NextNumber(rec.hist, Dir(d, id)))
  {
    hide NextNumber, Dir, Overflow;
  }

  lemma LinkedDir(id: Id, m: nat, d: Disk)
    requires id in d.boxes && m !in Dir(d, id)
    ensures Dir(Apply(Link(id, m), d), id) == Dir(d, id)[m := d.boxes[id]]
  {
  }

  /** `filed` is `hist` and one more number, and what is kept of it has its boxes on `d'`. */
  ghost predicate OneMore(hist: seq<Filing>, d: Disk, id: Id, d': Disk, filed: seq<Filing>, box: Box) {
    && |filed| == |hist| + 1
    && (forall i :: 0 <= i < |hist| ==> filed[i] == hist[i] && hist[i].n < filed[|hist|].n && hist[i].n in Dir(d, id))
    && forall i :: Overflow(filed) <= i < |filed| ==>
         filed[i].n in Dir(d', id) && Dir(d', id)[filed[i].n] == if i < |hist| then Dir(d, id)[filed[i].n] else box
  }

  lemma MoreRises(hist: seq<Filing>, filed: seq<Filing>)
    requires Rising(hist) && |filed| == |hist| + 1
    requires forall i :: 0 <= i < |hist| ==> filed[i] == hist[i] && hist[i].n < filed[|hist|].n
    ensures Rising(filed)
  {
  }

  lemma TailRises(hist: seq<Filing>, o: nat)
    requires Rising(hist) && o <= |hist|
    ensures Rising(hist[o..])
  {
  }

  lemma FiledListed(hist: seq<Filing>, d: Disk, id: Id, d': Disk, filed: seq<Filing>, box: Box)
    requires Listed(hist, d, id) && OneMore(hist, d, id, d', filed, box)
    ensures Listed(filed[Overflow(filed)..], d', id)
  {
    hide Dir, Rising;
    MoreRises(hist, filed);
    TailRises(filed, Overflow(filed));
    var kept, o := filed[Overflow(filed)..], Overflow(filed);
    forall i | 0 <= i < |kept| ensures kept[i].n in Dir(d', id) {
      assert kept[i] == filed[o + i];
    }
  }

  /** One more filing, and only the latest fifty kept. */
  lemma FiledShelf(hist: seq<Filing>, d: Disk, id: Id, d': Disk, filed: seq<Filing>, box: Box)
    requires Listed(hist, d, id) && OneMore(hist, d, id, d', filed, box)
    requires Listed(filed[Overflow(filed)..], d', id)
    ensures Shelf(filed[Overflow(filed)..], d', id) == Latest(Shelf(hist, d, id) + [Logged(filed[|hist|].n, box)])
  {
    hide Dir, Listed;
    var kept, o := filed[Overflow(filed)..], Overflow(filed);
    var all := Shelf(hist, d, id) + [Logged(filed[|hist|].n, box)];
    forall i | 0 <= i < |kept| ensures Shelf(kept, d', id)[i] == all[o + i] {
      assert kept[i] == filed[o + i];
    }
    assert Shelf(kept, d', id) == all[o..];
  }

  lemma ReplaceShelf(env: Env, id: Id, rec: Rec, d: Disk, s: Secrets, now: int)
    requires Listed(rec.hist, d, id)
    ensures var hist := ReplaceHist(env, id, rec, d, s, now); var ops := ReplaceOps(env, id, rec, d, s, now);
      && Listed(hist, Run(ops, d), id)
      && Shelf(hist, Run(ops, d), id) == Latest(Shelf(rec.hist, d, id) + Filings(ops, d, id))
  {
    hide Run, Filings, NextNumber, Dir;
    var ops := ReplaceOps(env, id, rec, d, s, now);
    var hist := ReplaceHist(env, id, rec, d, s, now);
    ReplaceFilings(env, id, rec, d, s, now);
    if Filing?(env, id, rec, d, s) {
      var filed := Filed(id, rec, d, now);
      NextIsFresh(rec.hist, Dir(d, id));
      forall i | Overflow(filed) <= i < |filed|
        ensures filed[i].n in Dir(Run(ops, d), id)
        ensures Dir(Run(ops, d), id)[filed[i].n] == if i < |rec.hist| then Dir(d, id)[filed[i].n] else d.boxes[id]
      {
        FiledFiles(env, id, rec, d, s, now, i);
      }
      assert !Same(env, id, rec, d, s) && hist == filed[Overflow(filed)..];
      assert OneMore(rec.hist, d, id, Run(ops, d), filed, d.boxes[id]);
      FiledListed(rec.hist, d, id, Run(ops, d), filed, d.boxes[id]);
      FiledShelf(rec.hist, d, id, Run(ops, d), filed, d.boxes[id]);
    } else {
      forall i | 0 <= i < |ops| ensures !ops[i].Drop? {}
      forall i | 0 <= i < |hist|
        ensures hist[i].n in Dir(Run(ops, d), id) && Dir(Run(ops, d), id)[hist[i].n] == Dir(d, id)[hist[i].n]
      {
        HistoryStays(ops, d, id, hist[i].n);
      }
    }
  }

  // --- agreement of metadata and boxes ---

  ghost predicate Agrees(env: Env, st: St) {
    forall id :: id in st.doc ==> AgreeAt(env, st.doc[id], id, st.disk)
  }

  /** The replacement leaves the box holding exactly `s`. */
  lemma ReplaceAgrees(env: Env, id: Id, rec: Rec, d: Disk, s: Secrets, now: int)
    requires rec.pwmac.None? || AgreeAt(env, rec, id, d)
    ensures var rec' := ReplaceRec(env, id, rec, d, s, now); var d' := Run(ReplaceOps(env, id, rec, d, s, now), d);
      && AgreeAt(env, rec', id, d') && d'.boxes[id].payload.password == s.password
      && d'.boxes[id].payload.rest == RestOf(s)
  {
    hide Filing?, FileOps, ReplaceHist, Run;
    var ops := ReplaceOps(env, id, rec, d, s, now);
    if Same(env, id, rec, d, s) {
      RunNone(d);
    } else {
      var first := ops[..|ops| - 1];
      assert ops == first + [Write(id, NewBox(env, id, rec, s))];
      RunThen(first, Write(id, NewBox(env, id, rec, s)), d);
    }
  }

  /** What one item leaves of its own entry. */
  lemma ItemAgrees(env: Env, st: St, it: Item, now: int)
    requires Agrees(env, st)
    ensures var st' := ItemStep(env, st, it, now);
      && AgreeAt(env, st'.doc[it.id], it.id, st'.disk)
      && st'.disk.boxes[it.id].payload.password == it.secrets.password
      && st'.disk.boxes[it.id].payload.rest == RestOf(it.secrets)
  {
    hide Run, ReplaceOps, ReplaceRec;
    var rec := Start(env, st.doc, it);
    var ops := ReplaceOps(env, it.id, rec, st.disk, it.secrets, now);
    ReplaceAgrees(env, it.id, rec, st.disk, it.secrets, now);
    var m := Meta(st.doc[it.id := ItemRec(env, st, it, now)]);
    RunThen(ops, m, st.disk);
    assert ops + [] == ops;
  }

  lemma ItemKeepsAgreement(env: Env, st: St, it: Item, now: int)
    requires Agrees(env, st)
    ensures Agrees(env, ItemStep(env, st, it, now))
  {
    hide Run, ItemOps, ItemRec;
    var st' := ItemStep(env, st, it, now);
    ItemAgrees(env, st, it, now);
    forall id | id in st'.doc ensures AgreeAt(env, st'.doc[id], id, st'.disk) {
      if id != it.id {
        ItemOff(env, st, it, now, id);
        OffRun(ItemOps(env, st, it, now), st.disk, id);
        assert AgreeAt(env, st.doc[id], id, st.disk);
      }
    }
  }

  lemma {:induction false} ItemsKeepAgreement(env: Env, st: St, items: seq<Item>, now: int)
    requires Agrees(env, st)
    ensures Agrees(env, After(env, st, items, now))
  {
    hide Agrees, ItemStep;
    if items != [] {
      var m := |items| - 1;
      ItemsKeepAgreement(env, st, items[..m], now);
      ItemKeepsAgreement(env, After(env, st, items[..m], now), items[m], now);
    }
  }

  lemma WrittenAgrees(env: Env, doc: Doc, d: Disk, doc': Doc)
    requires Agrees(env, St(doc, d)) && doc'.Keys == doc.Keys
    requires forall id :: id in doc ==>
      (doc'[id].v == doc[id].v && doc'[id].pwmac == doc[id].pwmac && doc'[id].smac == doc[id].smac
       && doc'[id].appleN == doc[id].appleN)
    ensures Agrees(env, St(doc', Apply(Meta(doc'), d)))
  {
  }

  /** A call that ends leaves metadata and boxes in agreement, if it found them so. */
  lemma CallAgrees(env: Env, d: Disk, call: Call)
    requires Agrees(env, St(d.meta, d))
    ensures var d' := Run(CallOps(env, d, call), d); Agrees(env, St(d'.meta, d'))
  {
    hide Run, After, ItemsOps, ReplaceOps, ReplaceRec, AgreeAt;
    RunNone(d);
    CallEndsWritten(env, d, call);
    match call
    case Sync(items, gone, at) =>
      var st := St(d.meta, d);
      var mid := After(env, st, items, at);
      ItemsKeepAgreement(env, st, items, at);
      AfterDisk(env, st, items, at);
      RunThen(ItemsOps(env, st, items, at), Meta(CallDoc(env, d, call)), d);
      WrittenAgrees(env, mid.doc, mid.disk, CallDoc(env, d, call));
    case Set(id, s, at) =>
      if Live(d.meta, id) {
        SetAgrees(env, d, id, s, at);
      }
  }

  lemma SetAgrees(env: Env, d: Disk, id: Id, s: Secrets, at: int)
    requires Agrees(env, St(d.meta, d)) && Live(d.meta, id)
    ensures var d' := Run(SetOps(env, d.meta, d, id, s, at), d); Agrees(env, St(d'.meta, d'))
  {
    hide Run, ReplaceOps, ReplaceRec;
    var ops := ReplaceOps(env, id, d.meta[id], d, s, at);
    var rec := ReplaceRec(env, id, d.meta[id], d, s, at);
    var d1 := Run(ops, d);
    RunThen(ops, Meta(SetDoc(env, d.meta, d, id, s, at)), d);
    ReplaceAgrees(env, id, d.meta[id], d, s, at);
    var doc := d.meta[id := rec];
    forall j | j in doc ensures AgreeAt(env, doc[j], j, d1) {
      if j != id {
        ReplaceOff(env, id, d.meta[id], d, s, at, j);
        OffRun(ops, d, j);
        assert AgreeAt(env, d.meta[j], j, d);
      }
    }
    WrittenAgrees(env, doc, d1, SetDoc(env, d.meta, d, id, s, at));
  }

  lemma ReplaceOff(env: Env, id: Id, rec: Rec, d: Disk, s: Secrets, now: int, j: Id)
    requires j != id
    ensures AllOff(ReplaceOps(env, id, rec, d, s, now), j)
  {
  }

  // --- the shelf over items, calls and runs ---

  /** The shelf of `id` after is the latest of the shelf before and what was filed between. */
  ghost predicate Shelves(id: Id, before: St, ops: seq<Op>, after: St) {
    Listed(HistOf(before.doc, id), before.disk, id) ==>
      && Listed(HistOf(after.doc, id), after.disk, id)
      && Shelf(HistOf(after.doc, id), after.disk, id)
         == Latest(Shelf(HistOf(before.doc, id), before.disk, id) + Filings(ops, before.disk, id))
  }

  lemma ShelvesBoth(id: Id, s0: St, a: seq<Op>, s1: St, b: seq<Op>, s2: St)
    requires s1.disk == Run(a, s0.disk) && Shelves(id, s0, a, s1) && Shelves(id, s1, b, s2)
    ensures Shelves(id, s0, a + b, s2)
  {
    hide Listed, Run, Filings, Latest, Shelf;
    if Listed(HistOf(s0.doc, id), s0.disk, id) {
      var shelf, fa, fb := Shelf(HistOf(s0.doc, id), s0.disk, id), Filings(a, s0.disk, id), Filings(b, s1.disk, id);
      FilingsBoth(a, b, s0.disk, id);
      LatestTwice(shelf + fa, fb);
      assert shelf + fa + fb == shelf + (fa + fb);
    }
  }

  /** Operations off the id, and a document with the same history. */
  lemma ShelvesOff(id: Id, before: St, ops: seq<Op>, after: St)
    requires AllOff(ops, id) && after.disk == Run(ops, before.disk)
    requires HistOf(after.doc, id) == HistOf(before.doc, id)
    ensures Shelves(id, before, ops, after)
  {
    hide Run, Filings, HistOf;
    OffRun(ops, before.disk, id);
    OffFilings(ops, before.disk, id);
  }

  lemma ShelvesReplace(env: Env, id: Id, st: St, rec: Rec, s: Secrets, now: int, st': St)
    requires rec.hist == HistOf(st.doc, id)
    requires st'.disk == Run(ReplaceOps(env, id, rec, st.disk, s, now), st.disk)
    requires HistOf(st'.doc, id) == ReplaceRec(env, id, rec, st.disk, s, now).hist
    ensures Shelves(id, st, ReplaceOps(env, id, rec, st.disk, s, now), st')
  {
    hide Run, Filings, ReplaceOps, HistOf, Listed, Shelf, Same;
    if Listed(rec.hist, st.disk, id) {
      ReplaceShelf(env, id, rec, st.disk, s, now);
    }
  }

  lemma ItemShelves(env: Env, st: St, it: Item, now: int, id: Id)
    ensures Shelves(id, st, ItemOps(env, st, it, now), ItemStep(env, st, it, now))
  {
    hide Run, ReplaceOps, ReplaceRec, Shelves, AllOff;
    var st' := ItemStep(env, st, it, now);
    if it.id != id {
      ItemOff(env, st, it, now, id);
      ShelvesOff(id, st, ItemOps(env, st, it, now), st');
    } else {
      var rec := Start(env, st.doc, it);
      var ops := ReplaceOps(env, id, rec, st.disk, it.secrets, now);
      var s1 := St(st'.doc, Run(ops, st.disk));
      ShelvesReplace(env, id, st, rec, it.secrets, now, s1);
      var tail: seq<Op> := if ItemOps(env, st, it, now) == ops then [] else [Meta(st'.doc)];
      assert ItemOps(env, st, it, now) == ops + tail;
      RunBoth(ops, tail, st.disk);
      assert AllOff(tail, id) by { MetaOff(tail, id); }
      ShelvesOff(id, s1, tail, st');
      ShelvesBoth(id, st, ops, s1, tail, st');
    }
  }

  lemma MetaOff(ops: seq<Op>, id: Id)
    requires forall i :: 0 <= i < |ops| ==> ops[i].Meta?
    ensures AllOff(ops, id)
  {
  }

  lemma {:induction false} ItemsShelves(env: Env, st: St, items: seq<Item>, now: int, id: Id)
    ensures Shelves(id, st, ItemsOps(env, st, items, now), After(env, st, items, now))
  {
    hide Run, ItemOps, ItemStep, Shelves;
    if items == [] {
      RunNone(st.disk);
      ShelvesOff(id, st, [], st);
    } else {
      var m := |items| - 1;
      var mid := After(env, st, items[..m], now);
      ItemsShelves(env, st, items[..m], now, id);
      AfterDisk(env, st, items[..m], now);
      ItemShelves(env, mid, items[m], now, id);
      ShelvesBoth(id, st, ItemsOps(env, st, items[..m], now), mid, ItemOps(env, mid, items[m], now),
                  ItemStep(env, mid, items[m], now));
    }
  }

  function Whole(d: Disk): St { St(d.meta, d) }

  lemma CallShelves(env: Env, d: Disk, call: Call, id: Id)
    ensures Shelves(id, Whole(d), CallOps(env, d, call), Whole(Run(CallOps(env, d, call), d)))
  {
    hide Run, ItemsOps, ReplaceOps, ReplaceRec, Shelves, After, Going, AllOff;
    CallEndsWritten(env, d, call);
    var doc := CallDoc(env, d, call);
    var d' := Run(CallOps(env, d, call), d);
    var tail := [Meta(doc)];
    MetaOff(tail, id);
    match call
    case Sync(items, gone, at) =>
      var mid := After(env, Whole(d), items, at);
      var ops := ItemsOps(env, Whole(d), items, at);
      ItemsShelves(env, Whole(d), items, at, id);
      AfterDisk(env, Whole(d), items, at);
      RunBoth(ops, tail, d);
      ShelvesOff(id, mid, tail, Whole(d'));
      ShelvesBoth(id, Whole(d), ops, mid, tail, Whole(d'));
    case Set(i, s, at) =>
      if !Live(d.meta, i) {
        RunNone(d);
        MetaOff([], id);
        ShelvesOff(id, Whole(d), [], Whole(d));
      } else {
        SetShelves(env, d, i, s, at, id);
      }
  }

  lemma SetShelves(env: Env, d: Disk, i: Id, s: Secrets, at: int, id: Id)
    requires Live(d.meta, i)
    ensures Shelves(id, Whole(d), SetOps(env, d.meta, d, i, s, at), Whole(Run(SetOps(env, d.meta, d, i, s, at), d)))
  {
    hide Run, ReplaceOps, ReplaceRec, Shelves, AllOff;
    var doc := SetDoc(env, d.meta, d, i, s, at);
    var ops := ReplaceOps(env, i, d.meta[i], d, s, at);
    var mid := St(doc, Run(ops, d));
    var d' := Apply(Meta(doc), mid.disk);
    RunThen(ops, Meta(doc), d);
    if i == id {
      ShelvesReplace(env, id, Whole(d), d.meta[id], s, at, mid);
    } else {
      ReplaceOff(env, i, d.meta[i], d, s, at, id);
      ShelvesOff(id, Whole(d), ops, mid);
    }
    RunOne(Meta(doc), mid.disk);
    MetaOff([Meta(doc)], id);
    ShelvesOff(id, mid, [Meta(doc)], Whole(d'));
    ShelvesBoth(id, Whole(d), ops, mid, [Meta(doc)], Whole(d'));
  }

  /** The disk after a run of calls that all end, and the operations of the whole run. */
  ghost function End(env: Env, d: Disk, calls: seq<Call>): Disk {
    if calls == [] then d
    else var before := End(env, d, calls[..|calls| - 1]);
      Run(CallOps(env, before, calls[|calls| - 1]), before)
  }

  ghost function RunOps(env: Env, d: Disk, calls: seq<Call>): seq<Op> {
    if calls == [] then []
    else RunOps(env, d, calls[..|calls| - 1]) + CallOps(env, End(env, d, calls[..|calls| - 1]), calls[|calls| - 1])
  }

  lemma {:induction false} EndIsRun(env: Env, d: Disk, calls: seq<Call>)
    ensures End(env, d, calls) == Run(RunOps(env, d, calls), d)
  {
    hide CallOps;
    if calls != [] {
      var m := |calls| - 1;
      EndIsRun(env, d, calls[..m]);
      RunBoth(RunOps(env, d, calls[..m]), CallOps(env, End(env, d, calls[..m]), calls[m]), d);
    }
  }

  /** Over any run of syncs and edits: the listed history is exactly the latest filings in the order
      they were made, with the very boxes that were filed; numbers rise and nothing was overwritten. */
  lemma {:induction false} HistoryIsTheLatest(env: Env, d: Disk, calls: seq<Call>, id: Id)
    requires Listed(HistOf(d.meta, id), d, id)
    ensures var e := End(env, d, calls);
      && Listed(HistOf(e.meta, id), e, id)
      && Shelf(HistOf(e.meta, id), e, id)
         == Latest(Shelf(HistOf(d.meta, id), d, id) + Filings(RunOps(env, d, calls), d, id))
  {
    hide Run, CallOps, Listed, Shelf;
    RunShelves(env, d, calls, id);
  }

  lemma {:induction false} RunShelves(env: Env, d: Disk, calls: seq<Call>, id: Id)
    ensures Shelves(id, Whole(d), RunOps(env, d, calls), Whole(End(env, d, calls)))
  {
    hide Run, CallOps, Shelves;
    if calls == [] {
      RunNone(d);
      ShelvesOff(id, Whole(d), [], Whole(d));
    } else {
      var m := |calls| - 1;
      var before := End(env, d, calls[..m]);
      RunShelves(env, d, calls[..m], id);
      EndIsRun(env, d, calls[..m]);
      CallShelves(env, before, calls[m], id);
      ShelvesBoth(id, Whole(d), RunOps(env, d, calls[..m]), Whole(before), CallOps(env, before, calls[m]),
                  Whole(Run(CallOps(env, before, calls[m]), before)));
    }
  }

  // --- listed numbers without a file ---

  /** Every number that metadata on disk lists for `id` has its file. */
  predicate Filled(d: Disk, id: Id) { id in d.meta ==> OnDisk(d.meta[id].hist, d, id) }

  ghost predicate AllFilled(d: Disk) { forall id :: Filled(d, id) }

  lemma SameFilled(a: Disk, b: Disk, id: Id)
    requires SameFiles(a, b, id) && (id in a.meta <==> id in b.meta) && (id in a.meta ==> a.meta[id] == b.meta[id])
    ensures Filled(a, id) == Filled(b, id)
  {
  }

  lemma {:induction false} MetaAt(ops: seq<Op>, doc: Doc, d: Disk, k: nat)
    requires k <= |ops| + 1 && forall i :: 0 <= i < |ops| ==> !ops[i].Meta?
    ensures Run((ops + [Meta(doc)])[..k], d).meta == if k <= |ops| then d.meta else doc
  {
    var all := ops + [Meta(doc)];
    if k > |ops| {
      assert all[..k] == all;
      RunThen(ops, Meta(doc), d);
    } else {
      assert all[..k] == ops[..k];
      NoMetaRun(ops[..k], d);
    }
  }

  lemma {:induction false} NoMetaRun(ops: seq<Op>, d: Disk)
    requires forall i :: 0 <= i < |ops| ==> !ops[i].Meta?
    ensures Run(ops, d).meta == d.meta
  {
    if ops != [] {
      NoMetaRun(ops[..|ops| - 1], d);
    }
  }

  lemma ReplaceNoMeta(env: Env, id: Id, rec: Rec, d: Disk, s: Secrets, at: int, i: nat)
    requires i < |ReplaceOps(env, id, rec, d, s, at)|
    ensures !ReplaceOps(env, id, rec, d, s, at)[i].Meta?
  {
    hide Same, Filing?, NextNumber, Overflow;
  }

  /** No drop among the operations, so what had a file has it. */
  lemma NoDropFilled(ops: seq<Op>, d: Disk, id: Id, hist: seq<Filing>)
    requires forall i :: 0 <= i < |ops| ==> !ops[i].Drop?
    requires OnDisk(hist, d, id)
    ensures OnDisk(hist, Run(ops, d), id)
  {
    hide Run;
    forall i | 0 <= i < |hist| ensures hist[i].n in Dir(Run(ops, d), id) {
      HistoryStays(ops, d, id, hist[i].n);
    }
  }

  /** What a replacement does to the entry's files: it drops one with a full history, and none otherwise. */
  lemma DropShape(env: Env, id: Id, rec: Rec, d: Disk, s: Secrets, at: int)
    requires |rec.hist| <= MAX_HISTORY
    ensures var ops := ReplaceOps(env, id, rec, d, s, at);
      if Filing?(env, id, rec, d, s) && |rec.hist| == MAX_HISTORY then
        ops == [Link(id, NextNumber(rec.hist, Dir(d, id))), Unlink(id), Drop(id, rec.hist[0].n),
                Write(id, NewBox(env, id, rec, s))]
      else forall i :: 0 <= i < |ops| ==> !ops[i].Drop?
  {
    hide NextNumber;
    if Filing?(env, id, rec, d, s) && |rec.hist| == MAX_HISTORY {
      var filed := Filed(id, rec, d, at);
      assert filed[..Overflow(filed)] == [rec.hist[0]];
    }
  }

  /** After the drop its number has no file, also once the new box is written. */
  lemma Dropped(id: Id, n: nat, m: nat, box: Box, d: Disk, k: nat)
    requires 3 <= k <= 4
    ensures m !in Dir(Run([Link(id, n), Unlink(id), Drop(id, m), Write(id, box)][..k], d), id)
  {
    hide Run;
    var two := [Link(id, n), Unlink(id)];
    var ops := two + [Drop(id, m)] + [Write(id, box)];
    assert ops[..3] == two + [Drop(id, m)] && ops[..4] == ops;
    assert [Link(id, n), Unlink(id), Drop(id, m), Write(id, box)] == ops;
    RunThen(two, Drop(id, m), d);
    RunThen(two + [Drop(id, m)], Write(id, box), d);
  }

  /** The numbers a record lists while it is replaced: one is lost from the drop on. */
  lemma ListedWhile(env: Env, id: Id, rec: Rec, d: Disk, s: Secrets, at: int, k: nat)
    requires |rec.hist| <= MAX_HISTORY && k <= |ReplaceOps(env, id, rec, d, s, at)|
    requires OnDisk(rec.hist, d, id)
    ensures OnDisk(rec.hist, Run(ReplaceOps(env, id, rec, d, s, at)[..k], d), id)
      <==> !(Filing?(env, id, rec, d, s) && |rec.hist| == MAX_HISTORY && 3 <= k)
  {
    hide Run, ReplaceOps, Filing?, NextNumber, Dir;
    var ops := ReplaceOps(env, id, rec, d, s, at);
    DropShape(env, id, rec, d, s, at);
    if Filing?(env, id, rec, d, s) && |rec.hist| == MAX_HISTORY && 3 <= k {
      Dropped(id, NextNumber(rec.hist, Dir(d, id)), rec.hist[0].n, NewBox(env, id, rec, s), d, k);
    } else {
      NoDropFilled(ops[..k], d, id, rec.hist);
    }
  }

  /** The entry's own numbers while an edit runs. */
  lemma OwnFilled(env: Env, d: Disk, id: Id, s: Secrets, at: int, k: nat)
    requires Live(d.meta, id) && Filled(d, id) && NoTwice(d.meta[id].hist) && |d.meta[id].hist| <= MAX_HISTORY
    requires k <= |SetOps(env, d.meta, d, id, s, at)|
    ensures var ops := SetOps(env, d.meta, d, id, s, at);
      Filled(Run(ops[..k], d), id)
      <==> !(Filing?(env, id, d.meta[id], d, s) && |d.meta[id].hist| == MAX_HISTORY && 3 <= k < |ops|)
  {
    var rec, doc := d.meta[id], SetDoc(env, d.meta, d, id, s, at);
    SetHist(env, d, id, s, at);
    hide Run, SetDoc, ReplaceOps, Filing?, ReplaceHist, NextNumber, Dir, NoTwice, OnDisk;
    var rops := ReplaceOps(env, id, rec, d, s, at);
    forall i | 0 <= i < |rops| ensures !rops[i].Meta? {
      ReplaceNoMeta(env, id, rec, d, s, at, i);
    }
    MetaAt(rops, doc, d, k);
    var all := rops + [Meta(doc)];
    if k <= |rops| {
      assert all[..k] == rops[..k];
      ListedWhile(env, id, rec, d, s, at, k);
    } else {
      assert all[..k] == all;
      RunThen(rops, Meta(doc), d);
      ReplaceFilled(env, id, rec, d, s, at);
      MetaDir(doc[id].hist, doc, Run(rops, d), id);
    }
  }

  lemma MetaDir(hist: seq<Filing>, doc: Doc, d: Disk, id: Id)
    ensures OnDisk(hist, Apply(Meta(doc), d), id) == OnDisk(hist, d, id)
  {
  }

  lemma SetHist(env: Env, d: Disk, id: Id, s: Secrets, at: int)
    requires id in d.meta
    ensures var doc := SetDoc(env, d.meta, d, id, s, at);
      && doc.Keys == d.meta.Keys && doc[id].hist == ReplaceHist(env, id, d.meta[id], d, s, at)
      && forall j :: j in d.meta && j != id ==> doc[j] == d.meta[j]
  {
    hide Filed, Filing?;
  }

  /** After a whole replacement what the new record lists has its file. */
  lemma ReplaceFilled(env: Env, id: Id, rec: Rec, d: Disk, s: Secrets, at: int)
    requires NoTwice(rec.hist) && OnDisk(rec.hist, d, id)
    ensures OnDisk(ReplaceHist(env, id, rec, d, s, at), Run(ReplaceOps(env, id, rec, d, s, at), d), id)
  {
    hide Run, NextNumber, Dir;
    var hist, ops := ReplaceHist(env, id, rec, d, s, at), ReplaceOps(env, id, rec, d, s, at);
    if Filing?(env, id, rec, d, s) {
      var filed := Filed(id, rec, d, at);
      assert !Same(env, id, rec, d, s) && hist == filed[Overflow(filed)..];
      forall i | 0 <= i < |hist| ensures hist[i].n in Dir(Run(ops, d), id) {
        FiledFiles(env, id, rec, d, s, at, Overflow(filed) + i);
        assert hist[i] == filed[Overflow(filed) + i];
      }
    } else {
      forall i | 0 <= i < |ops| ensures !ops[i].Drop? {}
      NoDropFilled(ops, d, id, rec.hist);
    }
  }

  /** From a disk where every listed number has its file: at each crash point of an edit that still holds,
      if and only if it did not file into a full history and stop after the oldest box was dropped and
      before the metadata was written. */
  lemma RetentionTears(env: Env, d: Disk, id: Id, s: Secrets, at: int, k: nat)
    requires Live(d.meta, id) && AllFilled(d) && NoTwice(d.meta[id].hist) && |d.meta[id].hist| <= MAX_HISTORY
    requires k <= |SetOps(env, d.meta, d, id, s, at)|
    ensures var ops := SetOps(env, d.meta, d, id, s, at);
      AllFilled(Run(ops[..k], d))
      <==> !(Filing?(env, id, d.meta[id], d, s) && |d.meta[id].hist| == MAX_HISTORY && 3 <= k < |ops|)
  {
    assert Filled(d, id);
    OwnFilled(env, d, id, s, at, k);
    SetHist(env, d, id, s, at);
    hide Run, SetDoc, Filing?, ReplaceOps, Filled;
    var ops := SetOps(env, d.meta, d, id, s, at);
    var e := Run(ops[..k], d);
    forall j | j != id ensures Filled(e, j) {
      SetOff(env, d, id, s, at, j);
      OffRun(ops[..k], d, j);
      PrefixMeta(env, d, id, s, at, k);
      assert Filled(d, j);
      SameFilled(e, d, j);
    }
  }

  lemma PrefixMeta(env: Env, d: Disk, id: Id, s: Secrets, at: int, k: nat)
    requires Live(d.meta, id) && k <= |SetOps(env, d.meta, d, id, s, at)|
    ensures Run(SetOps(env, d.meta, d, id, s, at)[..k], d).meta in {d.meta, SetDoc(env, d.meta, d, id, s, at)}
  {
    hide Run, SetDoc, ReplaceOps;
    var rops := ReplaceOps(env, id, d.meta[id], d, s, at);
    forall i | 0 <= i < |rops| ensures !rops[i].Meta? {
      ReplaceNoMeta(env, id, d.meta[id], d, s, at, i);
    }
    MetaAt(rops, SetDoc(env, d.meta, d, id, s, at), d, k);
  }

  // --- when a box is filed ---

  /** A live entry's box is filed exactly when a real password gives way to another one. */
  lemma FiledExactly(env: Env, d: Disk, id: Id, rec: Rec, s: Secrets, now: int)
    requires AgreeAt(env, rec, id, d)
    ensures var box := d.boxes[id]; var p := box.payload.password;
      Filings(ReplaceOps(env, id, rec, d, s, now), d, id)
      == if rec.fields.kind != Passkey && p != "" && p != s.password
         then [Logged(NextNumber(rec.hist, Dir(d, id)), box)] else []
  {
    ReplaceFilings(env, id, rec, d, s, now);
  }

  /** The same of one item of a sync, for an entry that was live before. */
  lemma SyncFilesExactly(env: Env, st: St, it: Item, now: int)
    requires Live(st.doc, it.id) && AgreeAt(env, st.doc[it.id], it.id, st.disk)
    ensures var rec := st.doc[it.id]; var box := st.disk.boxes[it.id]; var p := box.payload.password;
      Filings(ItemOps(env, st, it, now), st.disk, it.id)
      == if rec.fields.kind != Passkey && p != "" && p != it.secrets.password
         then [Logged(NextNumber(rec.hist, Dir(st.disk, it.id)), box)] else []
  {
    hide Run, ReplaceOps, ItemRec, Filings, NextNumber, AgreeAt;
    var id, rec := it.id, st.doc[it.id];
    var ops := ReplaceOps(env, id, rec, st.disk, it.secrets, now);
    FiledExactly(env, st.disk, id, rec, it.secrets, now);
    var tail: seq<Op> := if ItemOps(env, st, it, now) == ops then [] else [Meta(st.doc[id := ItemRec(env, st, it, now)])];
    assert ItemOps(env, st, it, now) == ops + tail;
    MetaOff(tail, id);
    OffFilings(tail, Run(ops, st.disk), id);
    FilingsBoth(ops, tail, st.disk, id);
  }

  ghost predicate RealOnes(filed: seq<Logged>) {
    forall i :: 0 <= i < |filed| ==> filed[i].box.payload.password != ""
  }

  lemma ItemFilesReal(env: Env, st: St, it: Item, now: int, id: Id)
    requires Agrees(env, st)
    ensures RealOnes(Filings(ItemOps(env, st, it, now), st.disk, id))
  {
    hide Run, ReplaceOps, ItemRec, Filings, NextNumber;
    if it.id != id {
      ItemOff(env, st, it, now, id);
      OffFilings(ItemOps(env, st, it, now), st.disk, id);
    } else {
      var rec := Start(env, st.doc, it);
      var ops := ReplaceOps(env, id, rec, st.disk, it.secrets, now);
      assert id in st.doc ==> AgreeAt(env, st.doc[id], id, st.disk);
      ReplaceFilings(env, id, rec, st.disk, it.secrets, now);
      var tail: seq<Op> := if ItemOps(env, st, it, now) == ops then [] else [Meta(st.doc[id := ItemRec(env, st, it, now)])];
      assert ItemOps(env, st, it, now) == ops + tail;
      MetaOff(tail, id);
      OffFilings(tail, Run(ops, st.disk), id);
      FilingsBoth(ops, tail, st.disk, id);
    }
  }

  lemma {:induction false} ItemsFileReal(env: Env, st: St, items: seq<Item>, now: int, id: Id)
    requires Agrees(env, st)
    ensures RealOnes(Filings(ItemsOps(env, st, items, now), st.disk, id))
  {
    hide Run, ItemOps, Agrees, Filings;
    if items == [] {
      NoLinks([], st.disk, id);
    } else {
      var m := |items| - 1;
      var mid := After(env, st, items[..m], now);
      ItemsFileReal(env, st, items[..m], now, id);
      ItemsKeepAgreement(env, st, items[..m], now);
      AfterDisk(env, st, items[..m], now);
      ItemFilesReal(env, mid, items[m], now, id);
      FilingsBoth(ItemsOps(env, st, items[..m], now), ItemOps(env, mid, items[m], now), st.disk, id);
    }
  }

  lemma CallFilesReal(env: Env, d: Disk, call: Call, id: Id)
    requires Agrees(env, Whole(d))
    ensures RealOnes(Filings(CallOps(env, d, call), d, id))
  {
    hide Run, ItemsOps, ReplaceOps, Filings, SyncDoc, SetDoc, NextNumber;
    var tail := [Meta(CallDoc(env, d, call))];
    MetaOff(tail, id);
    match call
    case Sync(items, gone, at) =>
      var ops := ItemsOps(env, Whole(d), items, at);
      ItemsFileReal(env, Whole(d), items, at, id);
      OffFilings(tail, Run(ops, d), id);
      FilingsBoth(ops, tail, d, id);
    case Set(i, s, at) =>
      if !Live(d.meta, i) {
        NoLinks([], d, id);
      } else if i != id {
        SetOff(env, d, i, s, at, id);
        OffFilings(CallOps(env, d, call), d, id);
      } else {
        var ops := ReplaceOps(env, id, d.meta[id], d, s, at);
        assert AgreeAt(env, d.meta[id], id, d);
        ReplaceFilings(env, id, d.meta[id], d, s, at);
        OffFilings(tail, Run(ops, d), id);
        FilingsBoth(ops, tail, d, id);
      }
  }

  /** Over any run from agreement, no blank password is ever filed. */
  lemma {:induction false} NoBlankFiled(env: Env, d: Disk, calls: seq<Call>, id: Id)
    requires Agrees(env, Whole(d))
    ensures Agrees(env, Whole(End(env, d, calls)))
    ensures RealOnes(Filings(RunOps(env, d, calls), d, id))
  {
    hide Run, CallOps, Agrees, Filings;
    if calls == [] {
      NoLinks([], d, id);
    } else {
      var m := |calls| - 1;
      var before := End(env, d, calls[..m]);
      NoBlankFiled(env, d, calls[..m], id);
      EndIsRun(env, d, calls[..m]);
      CallAgrees(env, before, calls[m]);
      CallFilesReal(env, before, calls[m], id);
      FilingsBoth(RunOps(env, d, calls[..m]), CallOps(env, before, calls[m]), d, id);
    }
  }

  // --- over runs: exactly the passwords that gave way ---

  lemma ItemOwn(env: Env, st: St, it: Item, now: int)
    ensures ItemStep(env, st, it, now).doc[it.id].fields == Shown(env, it)
    ensures ItemStep(env, st, it, now).doc[it.id].deleted.None?
  {
  }

  /** The box whose real password gave way between two states of a login row; a row that comes back from a
      tombstone is of the kind it comes back as. */
  ghost function GaveWay(before: St, after: St, id: Id): seq<Box> {
    if id in before.doc && id in after.doc && id in before.disk.boxes && id in after.disk.boxes
       && before.disk.boxes[id].payload.password != ""
       && before.disk.boxes[id].payload.password != after.disk.boxes[id].payload.password
       && (if before.doc[id].deleted.None? then before.doc[id] else after.doc[id]).fields.kind != Passkey
    then [before.disk.boxes[id]] else []
  }

  /** From item to item of a sync. */
  ghost function ItemsGaveWay(env: Env, st: St, items: seq<Item>, now: int, id: Id): seq<Box> {
    if items == [] then []
    else ItemsGaveWay(env, st, items[..|items| - 1], now, id)
         + GaveWay(After(env, st, items[..|items| - 1], now), After(env, st, items, now), id)
  }

  ghost function CallGaveWay(env: Env, d: Disk, call: Call, id: Id): seq<Box> {
    match call
    case Sync(items, _, at) => ItemsGaveWay(env, Whole(d), items, at, id)
    case Set(_, _, _) => GaveWay(Whole(d), Whole(Run(CallOps(env, d, call), d)), id)
  }

  ghost function RunGaveWay(env: Env, d: Disk, calls: seq<Call>, id: Id): seq<Box> {
    if calls == [] then []
    else RunGaveWay(env, d, calls[..|calls| - 1], id)
         + CallGaveWay(env, End(env, d, calls[..|calls| - 1]), calls[|calls| - 1], id)
  }

  function Boxes(filed: seq<Logged>): (b: seq<Box>)
    ensures |b| == |filed|
  {
    seq(|filed|, i requires 0 <= i < |filed| => filed[i].box)
  }

  lemma BoxesBoth(a: seq<Logged>, b: seq<Logged>)
    ensures Boxes(a + b) == Boxes(a) + Boxes(b)
  {
  }

  lemma OneBox(n: nat, box: Box)
    ensures Boxes([Logged(n, box)]) == [box] && Boxes([]) == []
  {
  }

  lemma ItemGaveWay(env: Env, st: St, it: Item, now: int, id: Id)
    requires Agrees(env, st)
    ensures Boxes(Filings(ItemOps(env, st, it, now), st.disk, id)) == GaveWay(st, ItemStep(env, st, it, now), id)
  {
    if it.id != id {
      hide Run, ItemOps, ItemRec, Filings;
      ItemOff(env, st, it, now, id);
      OffRun(ItemOps(env, st, it, now), st.disk, id);
      OffFilings(ItemOps(env, st, it, now), st.disk, id);
    } else {
      OwnGaveWay(env, st, it, now);
    }
  }

  lemma OwnGaveWay(env: Env, st: St, it: Item, now: int)
    requires Agrees(env, st)
    ensures Boxes(Filings(ItemOps(env, st, it, now), st.disk, it.id)) == GaveWay(st, ItemStep(env, st, it, now), it.id)
  {
    var id, rec := it.id, Start(env, st.doc, it);
    ItemAgrees(env, st, it, now);
    ItemOwn(env, st, it, now);
    ItemFilings(env, st, it, now);
    assert id in st.doc ==> AgreeAt(env, st.doc[id], id, st.disk) && AgreeAt(env, rec, id, st.disk);
    hide Run, ItemOps, ReplaceOps, ItemRec, Filings, NextNumber, Agrees;
    if id in st.doc {
      FiledExactly(env, st.disk, id, rec, it.secrets, now);
      OneBox(NextNumber(rec.hist, Dir(st.disk, id)), st.disk.boxes[id]);
    } else {
      ReplaceFilings(env, id, rec, st.disk, it.secrets, now);
    }
  }

  /** The metadata written after a filing files nothing. */
  lemma ItemFilings(env: Env, st: St, it: Item, now: int)
    ensures Filings(ItemOps(env, st, it, now), st.disk, it.id)
            == Filings(ReplaceOps(env, it.id, Start(env, st.doc, it), st.disk, it.secrets, now), st.disk, it.id)
  {
    hide Run, ReplaceOps, ItemRec, Filings;
    var ops := ReplaceOps(env, it.id, Start(env, st.doc, it), st.disk, it.secrets, now);
    var tail: seq<Op> := if ItemOps(env, st, it, now) == ops then [] else [Meta(st.doc[it.id := ItemRec(env, st, it, now)])];
    assert ItemOps(env, st, it, now) == ops + tail;
    MetaOff(tail, it.id);
    OffFilings(tail, Run(ops, st.disk), it.id);
    FilingsBoth(ops, tail, st.disk, it.id);
  }

  lemma {:induction false} ItemsFiled(env: Env, st: St, items: seq<Item>, now: int, id: Id)
    requires Agrees(env, st)
    ensures Boxes(Filings(ItemsOps(env, st, items, now), st.disk, id)) == ItemsGaveWay(env, st, items, now, id)
  {
    hide Run, ItemOps, ItemStep, Agrees, Filings, GaveWay, Boxes;
    if items == [] {
      NoLinks([], st.disk, id);
      OneBox(0, Sealed(0, Payload(id, 0, "", Rest("", "", "", []))));
    } else {
      var m := |items| - 1;
      var mid := After(env, st, items[..m], now);
      ItemsFiled(env, st, items[..m], now, id);
      ItemsKeepAgreement(env, st, items[..m], now);
      AfterDisk(env, st, items[..m], now);
      ItemGaveWay(env, mid, items[m], now, id);
      FilingsBoth(ItemsOps(env, st, items[..m], now), ItemOps(env, mid, items[m], now), st.disk, id);
      BoxesBoth(Filings(ItemsOps(env, st, items[..m], now), st.disk, id),
                Filings(ItemOps(env, mid, items[m], now), mid.disk, id));
    }
  }

  lemma MetaFilesNothing(ops: seq<Op>, doc: Doc, d: Disk, id: Id)
    ensures Filings(ops + [Meta(doc)], d, id) == Filings(ops, d, id)
  {
    hide Run, Filings;
    MetaOff([Meta(doc)], id);
    OffFilings([Meta(doc)], Run(ops, d), id);
    FilingsBoth(ops, [Meta(doc)], d, id);
  }

  lemma SetKinds(env: Env, d: Disk, id: Id, s: Secrets, at: int)
    requires id in d.meta
    ensures var doc := SetDoc(env, d.meta, d, id, s, at);
      doc.Keys == d.meta.Keys && forall j :: j in doc ==> doc[j].fields.kind == d.meta[j].fields.kind
  {
    hide ReplaceHist, Same;
  }

  /** What an edit files is what its replacement files, and the disk is the replacement's. */
  lemma SetFiles(env: Env, d: Disk, i: Id, s: Secrets, at: int, id: Id)
    requires Live(d.meta, i)
    ensures var ops, e := ReplaceOps(env, i, d.meta[i], d, s, at), Run(CallOps(env, d, Set(i, s, at)), d);
      && Filings(CallOps(env, d, Set(i, s, at)), d, id) == Filings(ops, d, id)
      && e.boxes == Run(ops, d).boxes && e.meta == SetDoc(env, d.meta, d, i, s, at)
  {
    hide ReplaceOps, SetDoc, Filings, Run;
    var ops, doc := ReplaceOps(env, i, d.meta[i], d, s, at), SetDoc(env, d.meta, d, i, s, at);
    RunThen(ops, Meta(doc), d);
    MetaFilesNothing(ops, doc, d, id);
  }

  lemma SetGaveWay(env: Env, d: Disk, i: Id, s: Secrets, at: int, id: Id)
    requires Agrees(env, Whole(d)) && Live(d.meta, i)
    ensures Boxes(Filings(CallOps(env, d, Set(i, s, at)), d, id)) == CallGaveWay(env, d, Set(i, s, at), id)
  {
    assert AgreeAt(env, d.meta[i], i, d);
    hide Run, ReplaceOps, SetDoc, Filings, NextNumber, CallOps, Agrees, AgreeAt;
    var ops := ReplaceOps(env, i, d.meta[i], d, s, at);
    SetKinds(env, d, i, s, at);
    SetFiles(env, d, i, s, at, id);
    if i != id {
      ReplaceOff(env, i, d.meta[i], d, s, at, id);
      OffRun(ops, d, id);
      OffFilings(ops, d, id);
    } else {
      ReplaceAgrees(env, id, d.meta[id], d, s, at);
      FiledExactly(env, d, id, d.meta[id], s, at);
      OneBox(NextNumber(d.meta[id].hist, Dir(d, id)), d.boxes[id]);
      BoxThere(env, d.meta[id], id, d);
      BoxThere(env, ReplaceRec(env, id, d.meta[id], d, s, at), id, Run(ops, d));
    }
  }

  lemma BoxThere(env: Env, rec: Rec, id: Id, d: Disk)
    requires AgreeAt(env, rec, id, d)
    ensures id in d.boxes
  {
  }

  lemma CallFiled(env: Env, d: Disk, call: Call, id: Id)
    requires Agrees(env, Whole(d))
    ensures Boxes(Filings(CallOps(env, d, call), d, id)) == CallGaveWay(env, d, call, id)
  {
    hide Run, ItemsOps, ReplaceOps, Filings, SyncDoc, SetDoc, GaveWay, Agrees;
    match call
    case Sync(items, gone, at) =>
      ItemsFiled(env, Whole(d), items, at, id);
      MetaFilesNothing(ItemsOps(env, Whole(d), items, at), CallDoc(env, d, call), d, id);
    case Set(i, s, at) =>
      if Live(d.meta, i) {
        SetGaveWay(env, d, i, s, at, id);
      } else {
        NoLinks([], d, id);
        RunNone(d);
        NothingGaveWay(Whole(d), id);
      }
  }

  lemma NothingGaveWay(st: St, id: Id)
    ensures GaveWay(st, st, id) == []
  {
  }

  /** Over any run from agreement, the boxes filed for an id are exactly the boxes of its login row whose
      real password gave way to another one, in order. */
  lemma {:induction false} RunFiledExactly(env: Env, d: Disk, calls: seq<Call>, id: Id)
    requires Agrees(env, Whole(d))
    ensures Boxes(Filings(RunOps(env, d, calls), d, id)) == RunGaveWay(env, d, calls, id)
  {
    hide Run, CallOps, Agrees, Filings, CallGaveWay, Boxes;
    if calls == [] {
      NoLinks([], d, id);
      OneBox(0, Sealed(0, Payload(id, 0, "", Rest("", "", "", []))));
    } else {
      var m := |calls| - 1;
      var before := End(env, d, calls[..m]);
      RunFiledExactly(env, d, calls[..m], id);
      NoBlankFiled(env, d, calls[..m], id);
      EndIsRun(env, d, calls[..m]);
      CallFiled(env, before, calls[m], id);
      FilingsBoth(RunOps(env, d, calls[..m]), CallOps(env, before, calls[m]), d, id);
      BoxesBoth(Filings(RunOps(env, d, calls[..m]), d, id), Filings(CallOps(env, before, calls[m]), before, id));
    }
  }
}
