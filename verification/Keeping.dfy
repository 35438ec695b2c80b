/** An old password is not lost: it is in the current box or in a history box at every crash point. */
module Keeping {
  import opened Wrappers
  import opened Entries
  import opened Vstore
  import opened Crash

  /** The record's MACs, version and count of Apple's earlier passwords are those of the box on disk. */
  ghost predicate AgreeAt(env: Env, rec: Rec, id: Id, d: Disk) {
    && id in d.boxes
    && OpenBox(env.key, d.boxes[id], id, None) == Ok(d.boxes[id].payload)
    && var p := d.boxes[id].payload;
       p.v == rec.v && rec.pwmac == Some(PwMac(env.mk, p.password)) && rec.smac == Some(RestMac(env.mk, p.rest))
       && rec.appleN == |p.rest.apple|
  }

  predicate Holds(env: Env, box: Box, id: Id, p: string) {
    OpenBox(env.key, box, id, None).Ok? && box.payload.password == p
  }

  ghost predicate InHistory(env: Env, d: Disk, id: Id, p: string) {
    exists n :: n in Dir(d, id) && Holds(env, Dir(d, id)[n], id, p)
  }

  ghost predicate Kept(env: Env, d: Disk, id: Id, p: string) {
    (id in d.boxes && Holds(env, d.boxes[id], id, p)) || InHistory(env, d, id, p)
  }

  ghost predicate KeptAlong(env: Env, ops: seq<Op>, d: Disk, id: Id, p: string) {
    forall k :: 0 <= k <= |ops| ==> Kept(env, Run(ops[..k], d), id, p)
  }

  lemma KeptAlongBoth(env: Env, a: seq<Op>, b: seq<Op>, d: Disk, id: Id, p: string)
    ensures KeptAlong(env, a + b, d, id, p)
            <==> KeptAlong(env, a, d, id, p) && KeptAlong(env, b, Run(a, d), id, p)
  {
    hide Kept, Run;
    var d' := Run(a, d);
    forall k | 0 <= k <= |b| ensures Run((a + b)[..|a| + k], d) == Run(b[..k], d') {
      assert (a + b)[..|a| + k] == a + b[..k];
      RunBoth(a, b[..k], d);
    }
    assert forall k :: 0 <= k <= |a| ==> (a + b)[..k] == a[..k];
    if KeptAlong(env, a + b, d, id, p) {
      forall k | 0 <= k <= |a| ensures Kept(env, Run(a[..k], d), id, p) {
        assert Kept(env, Run((a + b)[..k], d), id, p);
      }
      forall k | 0 <= k <= |b| ensures Kept(env, Run(b[..k], d'), id, p) {
        assert Kept(env, Run((a + b)[..|a| + k], d), id, p);
      }
    }
    if KeptAlong(env, a, d, id, p) && KeptAlong(env, b, d', id, p) {
      forall k | 0 <= k <= |a + b| ensures Kept(env, Run((a + b)[..k], d), id, p) {
        if k > |a| {
          assert Kept(env, Run(b[..k - |a|], d'), id, p);
        } else {
          assert Kept(env, Run(a[..k], d), id, p);
        }
      }
    }
  }

  /** Only a drop of that number takes a history box away, and nothing replaces one. */
  lemma {:induction false} HistoryStays(ops: seq<Op>, d: Disk, id: Id, n: nat)
    requires n in Dir(d, id) && forall i :: 0 <= i < |ops| ==> ops[i] != Drop(id, n)
    ensures n in Dir(Run(ops, d), id) && Dir(Run(ops, d), id)[n] == Dir(d, id)[n]
  {
    if ops != [] {
      HistoryStays(ops[..|ops| - 1], d, id, n);
    }
  }

  predicate Off(op: Op, id: Id) {
    op.Meta? || op.id != id
  }

  predicate AllOff(ops: seq<Op>, id: Id) {
    forall i :: 0 <= i < |ops| ==> Off(ops[i], id)
  }

  predicate SameFiles(a: Disk, b: Disk, id: Id) {
    && (id in a.boxes <==> id in b.boxes)
    && (id in a.boxes ==> a.boxes[id] == b.boxes[id])
    && Dir(a, id) == Dir(b, id)
  }

  lemma {:induction false} OffRun(ops: seq<Op>, d: Disk, id: Id)
    requires AllOff(ops, id)
    ensures SameFiles(Run(ops, d), d, id)
  {
    if ops != [] {
      var m := |ops| - 1;
      OffRun(ops[..m], d, id);
      assert Off(ops[m], id);
    }
  }

  lemma OffKept(env: Env, ops: seq<Op>, d: Disk, id: Id, p: string)
    requires AllOff(ops, id)
    ensures KeptAlong(env, ops, d, id, p) <==> Kept(env, d, id, p)
  {
    hide Run, OpenBox;
    RunNone(d);
    assert ops[..0] == [];
    forall k | 0 <= k <= |ops| ensures Kept(env, Run(ops[..k], d), id, p) <==> Kept(env, d, id, p) {
      OffRun(ops[..k], d, id);
    }
    if KeptAlong(env, ops, d, id, p) {
      assert Kept(env, Run(ops[..0], d), id, p);
    }
  }

  /** The new box alone decides when the old one is not filed. */
  lemma PlainWrite(env: Env, id: Id, d: Disk, p: string, box: Box)
    requires id in d.boxes && Holds(env, d.boxes[id], id, p) && OpenBox(env.key, box, id, None).Ok?
    ensures KeptAlong(env, [Write(id, box)], d, id, p) <==> box.payload.password == p || InHistory(env, d, id, p)
  {
    hide Run, OpenBox;
    var ops := [Write(id, box)];
    RunNone(d);
    RunOne(Write(id, box), d);
    assert ops[..0] == [] && ops[..1] == ops;
    var d' := Run(ops, d);
    assert Dir(d', id) == Dir(d, id);
    if KeptAlong(env, ops, d, id, p) {
      assert Kept(env, Run(ops[..1], d), id, p);
    }
  }

  /** A filed box is on disk from the link on: the unlink, the drops and the new box leave it. */
  lemma FilingKeeps(env: Env, id: Id, rec: Rec, d: Disk, s: Secrets, now: int, p: string)
    requires AgreeAt(env, rec, id, d) && Holds(env, d.boxes[id], id, p) && Filing?(env, id, rec, d, s)
    ensures KeptAlong(env, ReplaceOps(env, id, rec, d, s, now), d, id, p)
  {
    hide Run, Filing?;
    var ops := ReplaceOps(env, id, rec, d, s, now);
    var n := NextNumber(rec.hist, Dir(d, id));
    NextIsFresh(rec.hist, Dir(d, id));
    assert !Same(env, id, rec, d, s) by { FilingIsNew(env, id, rec, d, s); }
    assert ops[0] == Link(id, n);
    var rest := ops[1..];
    assert forall i :: 0 <= i < |rest| ==> rest[i] != Drop(id, n);
    forall k | 0 <= k <= |ops| ensures Kept(env, Run(ops[..k], d), id, p) {
      if k == 0 {
        RunNone(d);
      } else {
        assert ops[..k] == [Link(id, n)] + rest[..k - 1];
        RunBoth([Link(id, n)], rest[..k - 1], d);
        RunOne(Link(id, n), d);
        HistoryStays(rest[..k - 1], Apply(Link(id, n), d), id, n);
      }
    }
  }

  /** A filing means another password. */
  lemma FilingIsNew(env: Env, id: Id, rec: Rec, d: Disk, s: Secrets)
    requires Filing?(env, id, rec, d, s)
    ensures !Same(env, id, rec, d, s)
  {
  }

  /** One replacement keeps the old password exactly when the row is no passkey row, the password
      stays, or history has it already. */
  lemma ReplaceKeeps(env: Env, id: Id, rec: Rec, d: Disk, s: Secrets, now: int, p: string)
    requires AgreeAt(env, rec, id, d) && d.boxes[id].payload.password == p && p != ""
    ensures KeptAlong(env, ReplaceOps(env, id, rec, d, s, now), d, id, p)
            <==> rec.fields.kind != Passkey || s.password == p || InHistory(env, d, id, p)
  {
    hide Run, KeptAlong, InHistory, FileOps;
    var ops := ReplaceOps(env, id, rec, d, s, now);
    if Filing?(env, id, rec, d, s) {
      FilingKeeps(env, id, rec, d, s, now, p);
    } else if Same(env, id, rec, d, s) {
      OffKept(env, ops, d, id, p);
    } else {
      assert ops == [Write(id, NewBox(env, id, rec, s))];
      PlainWrite(env, id, d, p, NewBox(env, id, rec, s));
    }
  }

  predicate Distinct(items: seq<Item>) {
    forall i, j :: 0 <= i < j < |items| ==> items[i].id != items[j].id
  }

  /** The password a call hands in for `id`, if it names it. */
  function Named(items: seq<Item>, id: Id): Option<string> {
    if items == [] then None
    else if items[|items| - 1].id == id then Some(items[|items| - 1].secrets.password)
    else Named(items[..|items| - 1], id)
  }

  function NewPassword(call: Call, id: Id): Option<string> {
    match call
    case Sync(items, _, _) => Named(items, id)
    case Set(i, s, _) => if i == id then Some(s.password) else None
  }

  /** What a caller can check before the call: no new password, a login row, the same password, or
      one that history has. */
  ghost predicate Keeps(env: Env, d: Disk, id: Id, p: string, kind: Kind, pw: Option<string>) {
    pw.None? || kind != Passkey || pw.value == p || InHistory(env, d, id, p)
  }

  lemma {:induction false} NamedOff(items: seq<Item>, id: Id)
    requires forall i :: 0 <= i < |items| ==> items[i].id != id
    ensures Named(items, id) == None
  {
    if items != [] {
      NamedOff(items[..|items| - 1], id);
    }
  }

  lemma ItemOff(env: Env, st: St, it: Item, now: int, id: Id)
    requires it.id != id
    ensures AllOff(ItemOps(env, st, it, now), id)
  {
    hide Run, Same, Filing?, NextNumber, Overflow, ItemRec;
  }

  lemma {:induction false} ItemsOff(env: Env, st: St, items: seq<Item>, now: int, id: Id)
    requires (forall i :: 0 <= i < |items| ==> items[i].id != id) && id in st.doc
    ensures AllOff(ItemsOps(env, st, items, now), id)
    ensures id in After(env, st, items, now).doc && After(env, st, items, now).doc[id] == st.doc[id]
  {
    hide ItemOps, Run;
    if items != [] {
      var m := |items| - 1;
      ItemsOff(env, st, items[..m], now, id);
      ItemOff(env, After(env, st, items[..m], now), items[m], now, id);
    }
  }

  lemma ItemKeeps(env: Env, st: St, it: Item, now: int, p: string)
    requires Live(st.doc, it.id) && AgreeAt(env, st.doc[it.id], it.id, st.disk)
    requires st.disk.boxes[it.id].payload.password == p && p != ""
    ensures KeptAlong(env, ItemOps(env, st, it, now), st.disk, it.id, p)
            <==> Keeps(env, st.disk, it.id, p, st.doc[it.id].fields.kind, Some(it.secrets.password))
  {
    hide KeptAlong, InHistory, ReplaceOps, Run, ItemRec;
    var rec := st.doc[it.id];
    var ops := ReplaceOps(env, it.id, rec, st.disk, it.secrets, now);
    ReplaceKeeps(env, it.id, rec, st.disk, it.secrets, now, p);
    if ItemOps(env, st, it, now) == ops {
    } else {
      var m := Meta(st.doc[it.id := ItemRec(env, st, it, now)]);
      MetaKeeps(env, ops, m.doc, st.disk, it.id, p);
      assert ops + [] == ops;
    }
  }

  lemma MetaKeeps(env: Env, ops: seq<Op>, doc: Doc, d: Disk, id: Id, p: string)
    ensures KeptAlong(env, ops + [Meta(doc)], d, id, p) <==> KeptAlong(env, ops, d, id, p)
  {
    hide Kept, Run;
    KeptAlongBoth(env, ops, [Meta(doc)], d, id, p);
    OffKept(env, [Meta(doc)], Run(ops, d), id, p);
    if KeptAlong(env, ops, d, id, p) {
      assert ops[..|ops|] == ops;
      assert Kept(env, Run(ops[..|ops|], d), id, p);
    }
  }

  lemma {:induction false} ItemsKeep(env: Env, st: St, items: seq<Item>, now: int, id: Id, p: string)
    requires Live(st.doc, id) && AgreeAt(env, st.doc[id], id, st.disk) && Distinct(items)
    requires st.disk.boxes[id].payload.password == p && p != ""
    ensures KeptAlong(env, ItemsOps(env, st, items, now), st.disk, id, p)
            <==> Keeps(env, st.disk, id, p, st.doc[id].fields.kind, Named(items, id))
  {
    hide ItemOps, ItemStep, Kept, Run;
    if items == [] {
      assert Kept(env, st.disk, id, p) by { BoxKeeps(env, st.disk, id, p); }
      OffKept(env, [], st.disk, id, p);
    } else {
      var m := |items| - 1;
      var mid := After(env, st, items[..m], now);
      var a, b := ItemsOps(env, st, items[..m], now), ItemOps(env, mid, items[m], now);
      AfterDisk(env, st, items[..m], now);
      ItemsKeep(env, st, items[..m], now, id, p);
      KeptAlongBoth(env, a, b, st.disk, id, p);
      if items[m].id == id {
        ItemsOff(env, st, items[..m], now, id);
        NamedOff(items[..m], id);
        OffRun(a, st.disk, id);
        ItemKeeps(env, mid, items[m], now, p);
        assert InHistory(env, st.disk, id, p) <==> InHistory(env, mid.disk, id, p);
      } else {
        ItemOff(env, mid, items[m], now, id);
        OffKept(env, b, mid.disk, id, p);
        if KeptAlong(env, a, st.disk, id, p) {
          assert a[..|a|] == a;
          assert Kept(env, Run(a[..|a|], st.disk), id, p);
        }
      }
    }
  }

  lemma BoxKeeps(env: Env, d: Disk, id: Id, p: string)
    requires id in d.boxes && Holds(env, d.boxes[id], id, p)
    ensures Kept(env, d, id, p)
  {
  }

  /** From agreement, at every crash point of a call, the non-blank password a live entry held is in
      its current box or in a history box: exactly when `Keeps` says so. */
  lemma PasswordKept(env: Env, d: Disk, call: Call, id: Id)
    requires Live(d.meta, id) && AgreeAt(env, d.meta[id], id, d) && d.boxes[id].payload.password != ""
    requires call.Sync? ==> Distinct(call.items)
    ensures var p := d.boxes[id].payload.password;
      KeptAlong(env, CallOps(env, d, call), d, id, p)
      <==> Keeps(env, d, id, p, d.meta[id].fields.kind, NewPassword(call, id))
  {
    hide KeptAlong, InHistory, ReplaceOps, ItemsOps, Run, SyncDoc, SetDoc;
    var p := d.boxes[id].payload.password;
    match call
    case Sync(items, gone, at) =>
      ItemsKeep(env, St(d.meta, d), items, at, id, p);
      MetaKeeps(env, ItemsOps(env, St(d.meta, d), items, at), CallDoc(env, d, call), d, id, p);
    case Set(i, s, at) =>
      if i == id {
        ReplaceKeeps(env, id, d.meta[id], d, s, at, p);
        MetaKeeps(env, ReplaceOps(env, id, d.meta[id], d, s, at), CallDoc(env, d, call), d, id, p);
      } else {
        SetOff(env, d, i, s, at, id);
        OffKept(env, CallOps(env, d, call), d, id, p);
        BoxKeeps(env, d, id, p);
      }
  }

  lemma SetOff(env: Env, d: Disk, i: Id, s: Secrets, at: int, id: Id)
    requires i != id
    ensures AllOff(CallOps(env, d, Set(i, s, at)), id)
  {
    hide Same, Filing?, NextNumber, Overflow, SetDoc;
  }

  lemma {:induction false} StaysOut(ops: seq<Op>, d: Disk, id: Id)
    requires id !in d.boxes && forall i :: 0 <= i < |ops| ==> !ops[i].Write?
    ensures id !in Run(ops, d).boxes
  {
    if ops != [] {
      StaysOut(ops[..|ops| - 1], d, id);
    }
  }

  /** While a box is being filed the entry has no current box: exactly from the unlink to the write. */
  lemma MissingExactly(env: Env, id: Id, rec: Rec, d: Disk, s: Secrets, now: int, k: nat)
    requires Filing?(env, id, rec, d, s) && k <= |ReplaceOps(env, id, rec, d, s, now)|
    ensures var ops := ReplaceOps(env, id, rec, d, s, now);
      id !in Run(ops[..k], d).boxes <==> 2 <= k < |ops|
  {
    hide Run, NextNumber, Overflow;
    var ops := ReplaceOps(env, id, rec, d, s, now);
    var n := NextNumber(rec.hist, Dir(d, id));
    RunNone(d);
    RunOne(Link(id, n), d);
    assert ops[..0] == [] && ops[..1] == [Link(id, n)];
    if 2 <= k {
      var two := [Link(id, n), Unlink(id)];
      RunThen([Link(id, n)], Unlink(id), d);
      assert [Link(id, n)] + [Unlink(id)] == two && ops[..2] == two;
      if k < |ops| {
        var rest := ops[2..k];
        assert ops[..k] == two + rest;
        RunBoth(two, rest, d);
        StaysOut(rest, Run(two, d), id);
      } else {
        var first := ops[..|ops| - 1];
        assert ops[..k] == first + [ops[|ops| - 1]];
        RunThen(first, ops[|ops| - 1], d);
      }
    }
  }
}
