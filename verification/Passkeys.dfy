/** Rows of kind "passkey": what a store is fed decides whether a password can be lost with one. */
module Passkeys {
  import opened Wrappers
  import opened Entries
  import opened Vstore
  import opened Crash
  import opened Keeping
  import opened History
  import opened SyncRefines

  const EMPTY: Disk := Disk(map[], map[], map[])

  /** A passkey row holds no password. */
  ghost predicate BlankRows(st: St) {
    forall id :: id in st.doc && st.doc[id].fields.kind == Passkey && id in st.disk.boxes
      ==> st.disk.boxes[id].payload.password == ""
  }

  predicate BlankItem(it: Item) { it.kind == Passkey ==> it.secrets.password == "" }

  /** What the keychain pipeline and the window hand in: a passkey item has a blank password, and no edit
      goes to a passkey row. */
  predicate Plain(d: Disk, call: Call) {
    match call
    case Sync(items, _, _) => forall i :: 0 <= i < |items| ==> BlankItem(items[i])
    case Set(id, _, _) => Live(d.meta, id) ==> d.meta[id].fields.kind != Passkey
  }

  ghost predicate PlainRun(env: Env, d: Disk, calls: seq<Call>) {
    forall i :: 0 <= i < |calls| ==> Plain(End(env, d, calls[..i]), calls[i])
  }

  lemma ItemBlank(env: Env, st: St, it: Item, now: int)
    requires Agrees(env, st) && BlankRows(st) && BlankItem(it)
    ensures BlankRows(ItemStep(env, st, it, now))
  {
    hide ItemStep, Agrees;
    var st' := ItemStep(env, st, it, now);
    ItemDomain(env, st, it, now);
    ItemAgrees(env, st, it, now);
    ItemOwn(env, st, it, now);
    forall id | id in st'.doc && id != it.id ensures st'.doc[id] == st.doc[id] && SameFiles(st'.disk, st.disk, id) {
      ItemOther(env, st, it, now, id);
    }
  }

  lemma {:induction false} ItemsBlank(env: Env, st: St, items: seq<Item>, now: int)
    requires Agrees(env, st) && BlankRows(st) && forall i :: 0 <= i < |items| ==> BlankItem(items[i])
    ensures BlankRows(After(env, st, items, now))
  {
    hide ItemStep, Agrees, BlankRows, BlankItem;
    if items != [] {
      var m := |items| - 1;
      ItemsBlank(env, st, items[..m], now);
      ItemsKeepAgreement(env, st, items[..m], now);
      ItemBlank(env, After(env, st, items[..m], now), items[m], now);
    }
  }

  /** Same kinds, same boxes. */
  lemma SameBlank(a: St, b: St)
    requires BlankRows(a) && b.doc.Keys == a.doc.Keys && b.disk.boxes == a.disk.boxes
    requires forall id :: id in a.doc ==> b.doc[id].fields.kind == a.doc[id].fields.kind
    ensures BlankRows(b)
  {
  }

  lemma SetBlank(env: Env, d: Disk, id: Id, s: Secrets, at: int)
    requires BlankRows(Whole(d)) && Live(d.meta, id) && d.meta[id].fields.kind != Passkey
    ensures BlankRows(Whole(Run(SetOps(env, d.meta, d, id, s, at), d)))
  {
    var doc := SetDoc(env, d.meta, d, id, s, at);
    var ops := SetOps(env, d.meta, d, id, s, at);
    SetKinds(env, d, id, s, at);
    CallEndsWritten(env, d, Set(id, s, at));
    assert CallOps(env, d, Set(id, s, at)) == ops && CallDoc(env, d, Set(id, s, at)) == doc;
    hide SetDoc, SetOps, Run, CallOps, CallDoc;
    var e := Run(ops, d);
    forall j | j in e.meta && e.meta[j].fields.kind == Passkey && j in e.boxes ensures e.boxes[j].payload.password == "" {
      SetOff(env, d, id, s, at, j);
      OffRun(ops, d, j);
    }
  }

  lemma CallBlank(env: Env, d: Disk, call: Call)
    requires Agrees(env, Whole(d)) && BlankRows(Whole(d)) && Plain(d, call)
    ensures BlankRows(Whole(Run(CallOps(env, d, call), d)))
  {
    match call
    case Sync(items, gone, at) =>
      hide Run, ItemsOps, After, BlankRows, Agrees;
      var st := Whole(d);
      var mid := After(env, st, items, at);
      ItemsBlank(env, st, items, at);
      AfterDisk(env, st, items, at);
      RunThen(ItemsOps(env, st, items, at), Meta(CallDoc(env, d, call)), d);
      SameBlank(mid, Whole(Run(CallOps(env, d, call), d)));
    case Set(id, s, at) =>
      if Live(d.meta, id) { SetBlank(env, d, id, s, at); } else { RunNone(d); }
  }

  lemma {:induction false} RunBlank(env: Env, d: Disk, calls: seq<Call>)
    requires Agrees(env, Whole(d)) && BlankRows(Whole(d)) && PlainRun(env, d, calls)
    ensures Agrees(env, Whole(End(env, d, calls))) && BlankRows(Whole(End(env, d, calls)))
  {
    hide Agrees, BlankRows, CallOps, Run, Plain;
    if calls != [] {
      var m := |calls| - 1;
      forall i | 0 <= i < m ensures Plain(End(env, d, calls[..m][..i]), calls[..m][i]) {
        assert calls[..m][..i] == calls[..i];
      }
      RunBlank(env, d, calls[..m]);
      var before := End(env, d, calls[..m]);
      assert Plain(before, calls[m]);
      CallAgrees(env, before, calls[m]);
      CallBlank(env, before, calls[m]);
    }
  }

  /** Fed as the program feeds it, from any agreeing store whose passkey rows are blank: passkey rows stay
      blank, and at every crash point of every further call each live entry's non-blank password is in its
      current or a history box. */
  lemma PasswordsAlwaysKept(env: Env, d: Disk, calls: seq<Call>, call: Call, id: Id)
    requires Agrees(env, Whole(d)) && BlankRows(Whole(d)) && PlainRun(env, d, calls)
    requires call.Sync? ==> Distinct(call.items)
    ensures var e := End(env, d, calls);
      && BlankRows(Whole(e)) && Agrees(env, Whole(e))
      && (Live(e.meta, id) ==> id in e.boxes)
      && (Live(e.meta, id) && e.boxes[id].payload.password != "" ==>
          KeptAlong(env, CallOps(env, e, call), e, id, e.boxes[id].payload.password))
  {
    hide CallOps, KeptAlong, End, Plain;
    RunBlank(env, d, calls);
    var e := End(env, d, calls);
    if Live(e.meta, id) {
      assert AgreeAt(env, e.meta[id], id, e);
      if e.boxes[id].payload.password != "" {
        PasswordKept(env, e, call, id);
      }
    }
  }

  lemma EmptyIsPlain(env: Env)
    ensures Agrees(env, Whole(EMPTY)) && BlankRows(Whole(EMPTY))
  {
  }

  lemma FirstOps(env: Env, it: Item, at: int)
    ensures ItemOps(env, Whole(EMPTY), it, at) == [Write(it.id, NewBox(env, it.id, Start(env, map[], it), it.secrets))]
  {
    hide Run, NextNumber, Overflow;
  }

  /** One sync of a new passkey item with a password into an empty store. */
  lemma FirstSync(env: Env, it: Item, at: int)
    ensures var d := Run(CallOps(env, EMPTY, Sync([it], {}, at)), EMPTY);
      && Agrees(env, Whole(d)) && Live(d.meta, it.id) && d.meta[it.id].fields.kind == it.kind
      && it.id in d.boxes && d.boxes[it.id].payload.password == it.secrets.password && Dir(d, it.id) == map[]
  {
    hide Run, ItemOps, ItemStep, After, ItemsOps, Agrees, NewBox;
    var call, st := Sync([it], {}, at), Whole(EMPTY);
    var doc := CallDoc(env, EMPTY, call);
    var write := Write(it.id, NewBox(env, it.id, Start(env, map[], it), it.secrets));
    EmptyIsPlain(env);
    CallAgrees(env, EMPTY, call);
    OneItem(env, st, it, at);
    FirstOps(env, it, at);
    ItemOwn(env, st, it, at);
    ItemDomain(env, st, it, at);
    BoxOf(env, it);
    RunOne(write, EMPTY);
    RunThen([write], Meta(doc), EMPTY);
  }

  lemma BoxOf(env: Env, it: Item)
    ensures NewBox(env, it.id, Start(env, map[], it), it.secrets).payload.password == it.secrets.password
  {
  }

  lemma OneItem(env: Env, st: St, it: Item, at: int)
    ensures After(env, st, [it], at) == ItemStep(env, st, it, at) && ItemsOps(env, st, [it], at) == ItemOps(env, st, it, at)
  {
    assert [it][..0] == [];
    assert [] + ItemOps(env, st, it, at) == ItemOps(env, st, it, at);
  }

  /** Fed otherwise: one sync of a passkey item with a password into an empty store and one edit of the row
      with another password, no crash, and the first password is in no box. */
  lemma PasskeyRowLoses(env: Env, it: Item, second: Secrets, at: int, later: int)
    requires it.kind == Passkey && it.secrets.password != "" && second.password != it.secrets.password
    ensures var calls := [Sync([it], {}, at), Set(it.id, second, later)];
      !Kept(env, End(env, EMPTY, calls), it.id, it.secrets.password)
  {
    var sync, edit := Sync([it], {}, at), Set(it.id, second, later);
    var d := Run(CallOps(env, EMPTY, sync), EMPTY);
    FirstSync(env, it, at);
    TwoCalls(env, EMPTY, sync, edit);
    EditLoses(env, d, it.id, second, later);
  }

  lemma TwoCalls(env: Env, d: Disk, a: Call, b: Call)
    ensures End(env, d, [a, b]) == var e := Run(CallOps(env, d, a), d); Run(CallOps(env, e, b), e)
  {
    hide CallOps, Run;
    assert [a, b][..1] == [a] && [a][..0] == [];
    assert End(env, d, [a]) == Run(CallOps(env, d, a), d);
  }

  lemma EditLoses(env: Env, d: Disk, id: Id, s: Secrets, at: int)
    requires Agrees(env, Whole(d)) && Live(d.meta, id) && d.meta[id].fields.kind == Passkey
    requires id in d.boxes && d.boxes[id].payload.password != s.password && Dir(d, id) == map[]
    ensures !Kept(env, Run(CallOps(env, d, Set(id, s, at)), d), id, d.boxes[id].payload.password)
  {
    hide Run, SetDoc;
    var rec := d.meta[id];
    assert AgreeAt(env, rec, id, d);
    var ops := ReplaceOps(env, id, rec, d, s, at);
    assert ops == [Write(id, NewBox(env, id, rec, s))];
    RunOne(ops[0], d);
    RunThen(ops, Meta(SetDoc(env, d.meta, d, id, s, at)), d);
  }
}
