/** Moving a store to new keys: build a second tree, read it back, exchange the two names. */
module Rotation {
  import opened Wrappers
  import opened Entries
  import opened Vstore

  /** A file sealed under a subkey of one root key; another root does not open it. */
  datatype File<T> = Enc(root: Key, value: T)

  /** A credential blob: what it opens to on this machine, and whether the TPM binds it. */
  datatype Cred = Cred(holds: Key, tpm: bool)

  /** One user directory. An absent session file and an empty session read alike. */
  datatype Tree = Tree(
    list: Option<Cred>, secret: Option<Cred>, pub: Option<File<Key>>, keysJson: Option<string>,
    boxes: map<Id, Box>, hist: map<(Id, nat), Box>, meta: Option<File<Doc>>,
    session: Option<File<string>>, aliases: Option<File<seq<string>>>, nick: Option<File<map<Id, string>>>,
    plain: map<string, string>)

  const NO_TREE := Tree(None, None, None, None, map[], map[], None, None, None, None, map[])

  /** The unlocked store in memory. */
  datatype Mem = Mem(root: Key, pk: Key, doc: Doc, nick: map<Id, string>)

  datatype Fault = Damaged | NotFound

  // --- readers ---

  /** A sealed file, or the default when there is none. */
  function Read<T>(f: Option<File<T>>, root: Key, none: T): Result<T, Fault> {
    if f.None? then Ok(none) else if f.value.root == root then Ok(f.value.value) else Err(Damaged)
  }

  function Unlock(t: Tree): Result<Mem, Fault> {
    if t.keysJson.None? || t.list.None? || t.pub.None? || t.meta.None? then Err(Damaged)
    else
      var root := t.list.value.holds;
      var nick := Read(t.nick, root, map[]);
      if t.pub.value.root != root || t.meta.value.root != root || nick.Err? then Err(Damaged)
      else Ok(Mem(root, t.pub.value.value, t.meta.value.value, nick.value))
  }

  /** SK_secret, when it is the one the public key belongs to. */
  function Unseal(m: Mem, t: Tree): Result<Key, Fault> {
    if t.secret.None? || t.secret.value.holds != m.pk then Err(Damaged) else Ok(t.secret.value.holds)
  }

  function FromPayload(p: Payload): Secrets {
    Secrets(p.password, p.rest.notes, p.rest.seed, p.rest.params, p.rest.apple)
  }

  function OpenEntry(m: Mem, t: Tree, id: Id): Result<Secrets, Fault> {
    if !Live(m.doc, id) then Err(NotFound)
    else if id !in t.boxes || Unseal(m, t).Err? then Err(Damaged)
    else match OpenBox(Unseal(m, t).value, t.boxes[id], id, Some(m.doc[id].v))
      case Ok(p) => Ok(FromPayload(p))
      case Err(_) => Err(Damaged)
  }

  predicate Filled(t: Tree, id: Id, hist: seq<Filing>) {
    forall i :: 0 <= i < |hist| ==> (id, hist[i].n) in t.hist
  }

  predicate PastOpens(sk: Key, t: Tree, id: Id, hist: seq<Filing>)
    requires Filled(t, id, hist)
  {
    forall i :: 0 <= i < |hist| ==> Opens(sk, id, t.hist[(id, hist[i].n)])
  }

  function Past(t: Tree, id: Id, hist: seq<Filing>): seq<(int, string)>
    requires Filled(t, id, hist)
  {
    seq(|hist|, i requires 0 <= i < |hist| => (hist[i].at, t.hist[(id, hist[i].n)].payload.password))
  }

  /** The earlier passwords this store filed, oldest first, beside Apple's own list. */
  function History(m: Mem, t: Tree, id: Id): Result<(seq<(int, string)>, seq<(string, string)>), Fault> {
    if !Live(m.doc, id) then Err(NotFound)
    else
      var hist, sk := m.doc[id].hist, Unseal(m, t);
      if id !in t.boxes || !Filled(t, id, hist) || sk.Err? then Err(Damaged)
      else if OpenBox(sk.value, t.boxes[id], id, Some(m.doc[id].v)).Err? || !PastOpens(sk.value, t, id, hist)
      then Err(Damaged)
      else Ok((Past(t, id, hist), t.boxes[id].payload.rest.apple))
  }

  /** One row of the list: shown fields, nickname, how many earlier passwords. */
  function ListMeta(m: Mem): map<Id, (Fields, string, nat)> {
    map id | id in m.doc && m.doc[id].deleted.None? ::
      (m.doc[id].fields, if id in m.nick then m.nick[id] else "", |m.doc[id].hist| + m.doc[id].appleN)
  }

  function Session(m: Mem, t: Tree): Result<string, Fault> { Read(t.session, m.root, "") }

  function Aliases(m: Mem, t: Tree): Result<seq<string>, Fault> { Read(t.aliases, m.root, []) }

  // --- the rotation as a function ---

  /** What the machine and the random source give: new keys, their blobs, and whether a TPM is there. */
  datatype Inputs = Inputs(root: Key, pair: Key, list: Cred, secret: Cred, tpmPresent: bool)

  predicate BlobsVerify(inp: Inputs) {
    inp.list == Cred(inp.root, true) && inp.secret == Cred(inp.pair, true)
  }

  predicate Opens(sk: Key, id: Id, box: Box) { OpenBox(sk, box, id, None).Ok? }

  /** Every box on disk opens, referenced by metadata or not. */
  predicate AllOpen(sk: Key, t: Tree) {
    && (forall id :: id in t.boxes ==> Opens(sk, id, t.boxes[id]))
    && (forall h :: h in t.hist ==> Opens(sk, h.0, t.hist[h]))
  }

  /** Exactly when the move to TPM-sealed keys succeeds. */
  predicate CanRotate(m: Mem, t: Tree, inp: Inputs) {
    && t.keysJson != Some("host+tpm2") && inp.tpmPresent && Unseal(m, t).Ok? && BlobsVerify(inp)
    && AllOpen(m.pk, t) && Session(m, t).Ok? && Aliases(m, t).Ok?
  }

  function Reseal(pair: Key, box: Box): Box { Sealed(pair, box.payload) }

  /** MACs under the new key for a record with a box; none for one without. */
  function NewRec(rec: Rec, root: Key, box: Option<Box>): Rec {
    if box.None? then rec.(pwmac := None, smac := None)
    else
      var s := FromPayload(box.value.payload);
      rec.(pwmac := Some(PwMac(root, s.password)), smac := Some(RestMac(root, RestOf(s))))
  }

  function BoxAt(t: Tree, id: Id): Option<Box> { if id in t.boxes then Some(t.boxes[id]) else None }

  function NewDoc(doc: Doc, t: Tree, root: Key): Doc {
    map id | id in doc :: NewRec(doc[id], root, BoxAt(t, id))
  }

  function Rotated(m: Mem, t: Tree, inp: Inputs): Tree
    requires Session(m, t).Ok? && Aliases(m, t).Ok?
  {
    Tree(Some(inp.list), Some(inp.secret), Some(Enc(inp.root, inp.pair)), Some("host+tpm2"),
         map id | id in t.boxes :: Reseal(inp.pair, t.boxes[id]),
         map h | h in t.hist :: Reseal(inp.pair, t.hist[h]),
         Some(Enc(inp.root, NewDoc(m.doc, t, inp.root))),
         if Session(m, t).value == "" then None else Some(Enc(inp.root, Session(m, t).value)),
         if t.aliases.None? then None else Some(Enc(inp.root, Aliases(m, t).value)),
         if t.nick.None? then None else Some(Enc(inp.root, m.nick)),
         t.plain)
  }

  function NewMem(m: Mem, t: Tree, inp: Inputs): Mem {
    Mem(inp.root, inp.pair, NewDoc(m.doc, t, inp.root), m.nick)
  }

  // --- what the rotation preserves ---

  lemma RotatedUnlocks(m: Mem, t: Tree, inp: Inputs)
    requires CanRotate(m, t, inp) && Unlock(t) == Ok(m)
    ensures Unlock(Rotated(m, t, inp)) == Ok(NewMem(m, t, inp))
    ensures Unseal(NewMem(m, t, inp), Rotated(m, t, inp)) == Ok(inp.pair)
  {
  }

  /** A fresh unlock of the new tree gives every answer the old one gave: entries, histories, the list,
      session, aliases and nicknames, and every failure to answer as well. */
  lemma MeaningKept(m: Mem, t: Tree, inp: Inputs, id: Id)
    requires CanRotate(m, t, inp) && Unlock(t) == Ok(m)
    ensures var t' := Rotated(m, t, inp);
      && Unlock(t').Ok?
      && var m' := Unlock(t').value;
      && OpenEntry(m', t', id) == OpenEntry(m, t, id)
      && History(m', t', id) == History(m, t, id)
      && ListMeta(m') == ListMeta(m)
      && Session(m', t') == Session(m, t)
      && Aliases(m', t') == Aliases(m, t)
      && m'.nick == m.nick && t'.plain == t.plain
  {
    var t', m' := Rotated(m, t, inp), NewMem(m, t, inp);
    hide OpenEntry, History, Unlock, AllOpen, BlobsVerify, NewDoc, Session, Aliases, ListMeta;
    RotatedUnlocks(m, t, inp);
    EntryKept(m, t, inp, id);
    HistoryKept(m, t, inp, id);
    ListKept(m, t, inp);
    SmallFilesKept(m, t, inp);
  }

  lemma ListKept(m: Mem, t: Tree, inp: Inputs)
    ensures ListMeta(NewMem(m, t, inp)) == ListMeta(m)
  {
    var m' := NewMem(m, t, inp);
    assert forall id :: id in m.doc ==> m'.doc[id].deleted == m.doc[id].deleted && m'.doc[id].fields == m.doc[id].fields;
  }

  lemma SmallFilesKept(m: Mem, t: Tree, inp: Inputs)
    requires CanRotate(m, t, inp) && Unlock(t) == Ok(m)
    ensures Session(NewMem(m, t, inp), Rotated(m, t, inp)) == Session(m, t)
    ensures Aliases(NewMem(m, t, inp), Rotated(m, t, inp)) == Aliases(m, t)
  {
  }

  /** What the old keys sealed, the new ones read: the session, the aliases and every nickname in the list. */
  lemma SmallFilesRead(m: Mem, t: Tree, inp: Inputs, nick: map<Id, string>, id: Id)
    requires CanRotate(m, t, inp) && Unlock(t) == Ok(m)
    ensures var t', m' := Rotated(m, t, inp), NewMem(m, t, inp);
      && Session(m', t') == Ok(if t.session.None? then "" else t.session.value.value)
      && Aliases(m', t') == Ok(if t.aliases.None? then [] else t.aliases.value.value)
      && (t.nick == Some(Enc(m.root, nick)) && id in m.doc && m.doc[id].deleted.None? ==>
            id in ListMeta(m') && ListMeta(m')[id].1 == if id in nick then nick[id] else "")
  {
  }

  lemma EntryKept(m: Mem, t: Tree, inp: Inputs, id: Id)
    requires CanRotate(m, t, inp) && Unlock(t) == Ok(m)
    ensures OpenEntry(NewMem(m, t, inp), Rotated(m, t, inp), id) == OpenEntry(m, t, id)
  {
    if id in t.boxes {
      assert Opens(m.pk, id, t.boxes[id]);
    }
  }

  lemma HistoryKept(m: Mem, t: Tree, inp: Inputs, id: Id)
    requires CanRotate(m, t, inp) && Unlock(t) == Ok(m)
    ensures History(NewMem(m, t, inp), Rotated(m, t, inp), id) == History(m, t, id)
  {
    hide Unlock, ReadsBack, Session, Aliases, BlobsVerify;
    var t' := Rotated(m, t, inp);
    RotatedUnlocks(m, t, inp);
    if Live(m.doc, id) && id in t.boxes {
      var hist := m.doc[id].hist;
      assert NewMem(m, t, inp).doc[id].hist == hist;
      assert Opens(m.pk, id, t.boxes[id]);
      assert Filled(t', id, hist) <==> Filled(t, id, hist);
      if Filled(t, id, hist) {
        PastKept(m.pk, inp.pair, t, t', id, hist);
      }
    }
  }

  lemma PastKept(sk0: Key, sk1: Key, t: Tree, t': Tree, id: Id, hist: seq<Filing>)
    requires AllOpen(sk0, t) && Filled(t, id, hist)
    requires t'.hist == map h | h in t.hist :: Reseal(sk1, t.hist[h])
    ensures Filled(t', id, hist) && PastOpens(sk0, t, id, hist) && PastOpens(sk1, t', id, hist)
    ensures Past(t', id, hist) == Past(t, id, hist)
  {
  }

  /** Metadata and boxes agree under the new keys, whatever they did before; a record without a box
      has no MAC. */
  lemma MacsAgree(m: Mem, t: Tree, inp: Inputs, id: Id)
    requires CanRotate(m, t, inp) && id in m.doc
    ensures var t' := Rotated(m, t, inp); var rec := t'.meta.value.value[id];
      if id in t'.boxes then
        && var p := t'.boxes[id].payload;
        && rec.pwmac == Some(PwMac(inp.root, p.password))
        && rec.smac == Some(RestMac(inp.root, p.rest.(params := if p.rest.seed == "" then "" else p.rest.params)))
      else rec.pwmac.None? && rec.smac.None?
  {
  }

  /** With fresh keys, the old ones open no box, blob or sealed file of the new tree. */
  lemma OldKeysOpenNothing(m: Mem, t: Tree, inp: Inputs)
    requires CanRotate(m, t, inp) && inp.root != m.root && inp.pair != m.pk
    ensures var t' := Rotated(m, t, inp);
      && (forall id, v :: id in t'.boxes ==> OpenBox(m.pk, t'.boxes[id], id, v).Err?)
      && (forall h, v :: h in t'.hist ==> OpenBox(m.pk, t'.hist[h], h.0, v).Err?)
      && t'.list.value.holds != m.root && t'.secret.value.holds != m.pk
      && Read(t'.meta, m.root, map[]).Err?
      && (t'.session.Some? ==> Session(m, t').Err?) && (t'.aliases.Some? ==> Aliases(m, t').Err?)
      && (t'.nick.Some? ==> Read(t'.nick, m.root, map[]).Err?)
  {
  }

  // --- the rotation as it runs ---

  /** What the verification pass compares: payloads by file, the document, session and nicknames. */
  predicate ReadsBack(t: Tree, boxes: map<Id, Payload>, hist: map<(Id, nat), Payload>, doc: Doc,
                      session: string, nick: map<Id, string>) {
    && Unlock(t).Ok?
    && var m := Unlock(t).value;
    && Unseal(m, t).Ok?
    && var sk := Unseal(m, t).value;
    && (forall id :: id in boxes ==> id in t.boxes && OpenBox(sk, t.boxes[id], id, None) == Ok(boxes[id]))
    && (forall h :: h in hist ==> h in t.hist && OpenBox(sk, t.hist[h], h.0, None) == Ok(hist[h]))
    && m.doc == doc && Session(m, t) == Ok(session) && m.nick == nick
  }

  /** Some number of states of the old tree, then only the new one. */
  ghost predicate OldThenNew(log: seq<Tree>, before: Tree, after: Tree) {
    exists j :: 0 <= j <= |log| && Switches(log, j, before, after)
  }

  ghost predicate Switches(log: seq<Tree>, j: nat, before: Tree, after: Tree) {
    forall i :: 0 <= i < |log| ==> log[i] == if i < j then before else after
  }

  function Resealed<K>(done: set<K>, boxes: map<K, Box>, pair: Key): map<K, Box>
    requires done <= boxes.Keys
  {
    map k | k in done :: Reseal(pair, boxes[k])
  }

  function Payloads<K>(done: set<K>, boxes: map<K, Box>): map<K, Payload>
    requires done <= boxes.Keys
  {
    map k | k in done :: boxes[k].payload
  }

  /** Records whose box was resealed have their new MACs; the others wait. */
  function DocSoFar(doc: Doc, t: Tree, root: Key, done: set<Id>): Doc {
    map id | id in doc :: if id in done then NewRec(doc[id], root, BoxAt(t, id)) else doc[id]
  }

  lemma ResealedStep<K>(done: set<K>, boxes: map<K, Box>, pair: Key, k: K)
    requires done <= boxes.Keys && k in boxes
    ensures Resealed(done + {k}, boxes, pair) == Resealed(done, boxes, pair)[k := Reseal(pair, boxes[k])]
    ensures Payloads(done + {k}, boxes) == Payloads(done, boxes)[k := boxes[k].payload]
    ensures Payloads(done, boxes).Keys == done
  {
  }

  lemma DocStep(doc: Doc, t: Tree, root: Key, done: set<Id>, id: Id)
    requires id in t.boxes && id !in done
    ensures DocSoFar(doc, t, root, done).Keys == doc.Keys
    ensures var d := DocSoFar(doc, t, root, done);
      DocSoFar(doc, t, root, done + {id}) == if id in doc then d[id := NewRec(d[id], root, Some(t.boxes[id]))] else d
  {
  }

  lemma DocDone(doc: Doc, t: Tree, root: Key)
    ensures NewDoc(doc, t, root) == (var d := DocSoFar(doc, t, root, t.boxes.Keys);
      map id | id in d :: if id in t.boxes then d[id] else d[id].(pwmac := None, smac := None))
  {
  }

  lemma PayloadKeys<K>(boxes: map<K, Box>)
    ensures Payloads(boxes.Keys, boxes).Keys == boxes.Keys
  {
  }

  lemma NoneYet<K>(doc: Doc, t: Tree, root: Key, boxes: map<K, Box>, pair: Key)
    ensures DocSoFar(doc, t, root, {}) == doc && Resealed({}, boxes, pair) == map[] && Payloads({}, boxes) == map[]
  {
  }

  /** u<uid> and u<uid>.rotate beside the memory of the unlocked store; `log` is u<uid> after each
      step that reaches the disk. */
  class UserDirs {
    var main: Tree
    var rot: Option<Tree>
    var mem: Mem
    ghost var log: seq<Tree>

    constructor (main: Tree, rot: Option<Tree>, mem: Mem)
      ensures this.main == main && this.rot == rot && this.mem == mem && log == []
    {
      this.main, this.rot, this.mem, log := main, rot, mem, [];
    }

    /** One file of the new tree, written whole. */
    method Put(t: Tree, ghost before: seq<Tree>)
      requires Still(main, before)
      modifies `rot, `log
      ensures rot == Some(t) && Still(main, before)
    {
      rot := Some(t);
      log := log + [main];
    }

    method RemoveRot()
      modifies `rot, `log
      ensures rot == None && log == old(log) + [main]
    {
      rot := None;
      log := log + [main];
    }

    /** The two names swap in one step. */
    method Exchange(t: Tree)
      modifies `main, `rot, `log
      ensures main == t && rot == Some(old(main)) && log == old(log) + [main]
    {
      rot, main := Some(main), t;
      log := log + [main];
    }

    ghost predicate Still(was: Tree, before: seq<Tree>)
      reads this
    {
      && main == was && |before| <= |log| && log[..|before|] == before
      && forall i :: |before| <= i < |log| ==> log[i] == was
    }

    method ResealBoxes(sk: Key, inp: Inputs, t0: Tree, ghost before: seq<Tree>)
      returns (ok: bool, t: Tree, doc: Doc, want: map<Id, Payload>)
      requires Still(main, before) && t0.boxes == map[]
      modifies `rot, `log
      ensures Still(old(main), before)
      ensures ok <==> forall id :: id in main.boxes ==> Opens(sk, id, main.boxes[id])
      ensures ok ==> t == t0.(boxes := Resealed(main.boxes.Keys, main.boxes, inp.pair))
      ensures ok ==> doc == NewDoc(mem.doc, main, inp.root) && want == Payloads(main.boxes.Keys, main.boxes)
    {
      hide Still, Resealed, DocSoFar, Payloads, NewDoc;
      NoneYet(mem.doc, main, inp.root, main.boxes, inp.pair);
      t, doc, want := t0, mem.doc, map[];
      var left := main.boxes.Keys;
      ghost var was := main;
      ghost var done: set<Id> := {};
      while left != {}
        invariant Still(was, before)
        invariant left <= main.boxes.Keys && done == main.boxes.Keys - left
        invariant forall id :: id in done ==> Opens(sk, id, main.boxes[id])
        invariant t == t0.(boxes := Resealed(done, main.boxes, inp.pair))
        invariant doc == DocSoFar(mem.doc, main, inp.root, done) && want == Payloads(done, main.boxes)
        decreases left
      {
        var id: Id :| id in left;
        ResealedStep(done, main.boxes, inp.pair, id);
        DocStep(mem.doc, main, inp.root, done, id);
        match OpenBox(sk, main.boxes[id], id, None) {
          case Err(_) =>
            assert !Opens(sk, id, main.boxes[id]);
            return false, t, doc, want;
          case Ok(p) =>
            t := t.(boxes := t.boxes[id := Sealed(inp.pair, p)]);
            Put(t, before);
            want := want[id := p];
            if id in doc {
              var s := FromPayload(p);
              doc := doc[id := doc[id].(pwmac := Some(PwMac(inp.root, s.password)),
                                        smac := Some(RestMac(inp.root, RestOf(s))))];
            }
        }
        left := left - {id};
        done := done + {id};
      }
      ok := true;
      assert done == main.boxes.Keys;
      DocDone(mem.doc, main, inp.root);
      PayloadKeys(main.boxes);
      doc := map id | id in doc ::
        if id in want then doc[id] else doc[id].(pwmac := None, smac := None);
    }

    method ResealHistory(sk: Key, inp: Inputs, t0: Tree, ghost before: seq<Tree>)
      returns (ok: bool, t: Tree, want: map<(Id, nat), Payload>)
      requires Still(main, before) && t0.hist == map[]
      modifies `rot, `log
      ensures Still(old(main), before)
      ensures ok <==> forall h :: h in main.hist ==> Opens(sk, h.0, main.hist[h])
      ensures ok ==> t == t0.(hist := Resealed(main.hist.Keys, main.hist, inp.pair))
      ensures ok ==> want == Payloads(main.hist.Keys, main.hist)
    {
      hide Still;
      t, want := t0, map[];
      var left := main.hist.Keys;
      ghost var was := main;
      ghost var done: set<(Id, nat)> := {};
      while left != {}
        invariant Still(was, before)
        invariant left <= main.hist.Keys && done == main.hist.Keys - left
        invariant forall h :: h in done ==> Opens(sk, h.0, main.hist[h])
        invariant t == t0.(hist := Resealed(done, main.hist, inp.pair)) && want == Payloads(done, main.hist)
        decreases left
      {
        var h: (Id, nat) :| h in left;
        match OpenBox(sk, main.hist[h], h.0, None) {
          case Err(_) =>
            assert !Opens(sk, h.0, main.hist[h]);
            return false, t, want;
          case Ok(p) =>
            t := t.(hist := t.hist[h := Sealed(inp.pair, p)]);
            Put(t, before);
            want := want[h := p];
        }
        left := left - {h};
        done := done + {h};
      }
      ok := true;
      assert done == main.hist.Keys;
    }

    /** Write the whole store under new keys beside the old one and read it back. */
    method BuildRotated(sk: Key, inp: Inputs, ghost before: seq<Tree>) returns (ok: bool, t: Tree, doc: Doc)
      requires Unlock(main) == Ok(mem) && sk == mem.pk && Still(main, before)
      modifies `rot, `log
      ensures Still(old(main), before)
      ensures ok <==> BlobsVerify(inp) && AllOpen(sk, main) && Session(mem, main).Ok? && Aliases(mem, main).Ok?
      ensures ok ==> t == Rotated(mem, main, inp) && doc == NewDoc(mem.doc, main, inp.root)
    {
      hide Still, Session, Aliases, Opens, ReadsBack, Unlock;
      t, doc := NO_TREE, map[];
      if inp.list.holds != inp.root || inp.secret.holds != inp.pair || !inp.list.tpm || !inp.secret.tpm {
        return false, t, doc;
      }
      t := t.(list := Some(inp.list));
      Put(t, before);
      t := t.(secret := Some(inp.secret));
      Put(t, before);
      t := t.(pub := Some(Enc(inp.root, inp.pair)));
      Put(t, before);
      var wantBoxes, wantHist;
      ok, t, doc, wantBoxes := ResealBoxes(sk, inp, t, before);
      if !ok { return; }
      ok, t, wantHist := ResealHistory(sk, inp, t, before);
      if !ok { return; }
      ok, t := WriteRest(inp, t, doc, before);
      if !ok { return; }
      ReadBackHolds(mem, main, inp);
      ok := ReadsBack(t, wantBoxes, wantHist, doc, Session(mem, main).value, mem.nick);
    }

    method WriteRest(inp: Inputs, t0: Tree, doc: Doc, ghost before: seq<Tree>) returns (ok: bool, t: Tree)
      requires Still(main, before)
      modifies `rot, `log
      ensures Still(old(main), before)
      ensures ok <==> Session(mem, main).Ok? && Aliases(mem, main).Ok?
      ensures ok ==> t == t0.(meta := Some(Enc(inp.root, doc)),
        session := if Session(mem, main).value == "" then t0.session else Some(Enc(inp.root, Session(mem, main).value)),
        aliases := if main.aliases.None? then t0.aliases else Some(Enc(inp.root, Aliases(mem, main).value)),
        nick := if main.nick.None? then t0.nick else Some(Enc(inp.root, mem.nick)),
        plain := main.plain, keysJson := Some("host+tpm2"))
    {
      hide Still, Session;
      t := t0.(meta := Some(Enc(inp.root, doc)));
      Put(t, before);
      if Session(mem, main).Err? { return false, t; }
      var session := Session(mem, main).value;
      if session != "" {
        t := t.(session := Some(Enc(inp.root, session)));
        Put(t, before);
      }
      if main.aliases.Some? {
        if Aliases(mem, main).Err? { return false, t; }
        t := t.(aliases := Some(Enc(inp.root, Aliases(mem, main).value)));
        Put(t, before);
      }
      if main.nick.Some? {
        t := t.(nick := Some(Enc(inp.root, mem.nick)));
        Put(t, before);
      }
      t := t.(plain := main.plain);
      Put(t, before);
      t := t.(keysJson := Some("host+tpm2"));
      Put(t, before);
      ok := true;
    }

    /** Move to new TPM-sealed keys, or change nothing. At every step u<uid> is the whole old tree, or
        from the exchange on the whole new one. */
    method ResealIfTpmAvailable(inp: Inputs) returns (ok: bool)
      requires Unlock(main) == Ok(mem)
      modifies this
      ensures ok <==> CanRotate(old(mem), old(main), inp)
      ensures !ok ==> main == old(main) && mem == old(mem) && rot in {old(rot), None}
      ensures ok ==> main == Rotated(old(mem), old(main), inp) && mem == NewMem(old(mem), old(main), inp) && rot == None
      ensures Unlock(main) == Ok(mem)
      ensures |old(log)| <= |log| && OldThenNew(log[|old(log)|..], old(main), main)
    {
      ghost var before, was := log, main;
      if main.keysJson == Some("host+tpm2") || !inp.tpmPresent {
        assert Switches(log[|before|..], 0, main, main);
        return false;
      }
      RemoveRot();
      var sk := Unseal(mem, main);
      if sk.Err? {
        assert Switches(log[|before|..], 0, main, main);
        return false;
      }
      var t, doc;
      ok, t, doc := BuildRotated(sk.value, inp, before);
      if !ok {
        RemoveRot();
        assert Switches(log[|before|..], 0, main, main);
        return;
      }
      RotatedUnlocks(mem, main, inp);
      ghost var j := |log| - |before|;
      Exchange(t);
      RemoveRot();
      mem := Mem(inp.root, inp.pair, doc, mem.nick);
      assert Switches(log[|before|..], j, was, main);
    }
  }

  /** Wherever the process dies, an unlock of u<uid> answers as the old store did. */
  lemma AnyCrashAnswers(m: Mem, t: Tree, inp: Inputs, log: seq<Tree>, i: nat, id: Id)
    requires CanRotate(m, t, inp) && Unlock(t) == Ok(m) && OldThenNew(log, t, Rotated(m, t, inp)) && i < |log|
    ensures Unlock(log[i]).Ok?
    ensures var m' := Unlock(log[i]).value;
      && OpenEntry(m', log[i], id) == OpenEntry(m, t, id) && History(m', log[i], id) == History(m, t, id)
      && ListMeta(m') == ListMeta(m)
  {
    hide OpenEntry, History, Unlock, Rotated, ListMeta, Session, Aliases, AllOpen, Unseal;
    MeaningKept(m, t, inp, id);
    var j :| 0 <= j <= |log| && Switches(log, j, t, Rotated(m, t, inp));
    assert log[i] == if i < j then t else Rotated(m, t, inp);
  }

  /** The verification pass accepts the tree that was built: it refuses only what the machine broke. */
  lemma ReadBackHolds(m: Mem, t: Tree, inp: Inputs)
    requires Unlock(t) == Ok(m) && BlobsVerify(inp) && AllOpen(m.pk, t) && Session(m, t).Ok? && Aliases(m, t).Ok?
    ensures ReadsBack(Rotated(m, t, inp), Payloads(t.boxes.Keys, t.boxes), Payloads(t.hist.Keys, t.hist),
                      NewDoc(m.doc, t, inp.root), Session(m, t).value, m.nick)
  {
    hide NewDoc;
    forall id | id in t.boxes ensures OpenBox(inp.pair, Reseal(inp.pair, t.boxes[id]), id, None) == Ok(t.boxes[id].payload) {
      assert Opens(m.pk, id, t.boxes[id]);
    }
    forall h | h in t.hist ensures OpenBox(inp.pair, Reseal(inp.pair, t.hist[h]), h.0, None) == Ok(t.hist[h].payload) {
      assert Opens(m.pk, h.0, t.hist[h]);
    }
  }
}
