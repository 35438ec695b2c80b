/** What each row of the credential store says, in terms of the keychain items themselves. */
module HostRows {
  import opened Wrappers
  import opened Host

  // --- said of raw items ------------------------------------------------------------------------

  function PasswordOf(it: Item): string {
    if it.data.Text? && it.data.text != "" then it.data.text else it.password
  }

  function TitleOf(it: Item): string { if it.labl != "" then it.labl else it.site }

  /** A login row: neither a key nor a metadata blob, a credential by its names, with a site or an account
      and an account or a password. */
  predicate Admitted(env: Env, it: Item) {
    && it.class_ != "keys" && !it.data.Blob? && env.isCredential(it.site, TitleOf(it))
    && (it.site != "" || it.account != "") && (it.account != "" || PasswordOf(it) != "")
  }

  function Admits(env: Env, items: seq<Item>): seq<Item> {
    if items == [] then []
    else Admits(env, items[..|items| - 1]) + if Admitted(env, items[|items| - 1]) then [items[|items| - 1]] else []
  }

  /** A readable metadata blob; the data of a class `keys` item is never one. */
  predicate Readable(it: Item) { it.class_ != "keys" && it.data.Blob? && it.data.meta.Some? }

  /** The readable blobs of one account at one site, live or deleted, in order. */
  function BlobsOf(items: seq<Item>, deleted: bool, site: string, account: string): seq<Meta> {
    if items == [] then []
    else
      var it := items[|items| - 1];
      BlobsOf(items[..|items| - 1], deleted, site, account)
      + if Readable(it) && Deleted(it) == deleted && it.site == site && it.account == account
        then [it.data.meta.value] else []
  }

  /** What the first blob to say anything says. */
  function FirstSaid<T(==)>(blobs: seq<Meta>, says: Meta -> T, nothing: T): T {
    if blobs == [] then nothing
    else if says(blobs[0]) != nothing then says(blobs[0]) else FirstSaid(blobs[1..], says, nothing)
  }

  /** Some item other than a blob or a passkey sits at this account and site. */
  predicate Occupied(env: Env, items: seq<Item>, deleted: bool, site: string, account: string) {
    exists o :: o in items && !IsPasskey(env, o) && (o.class_ == "keys" || !o.data.Blob?)
                && Deleted(o) == deleted && o.site == site && o.account == account
  }

  /** A blob that names an account at a site where no password item is. */
  predicate Stub(env: Env, items: seq<Item>, it: Item) {
    && Readable(it) && it.site != "" && it.account != "" && env.isCredential(it.site, it.labl)
    && !Occupied(env, items, Deleted(it), it.site, it.account)
  }

  function StubSites(env: Env, items: seq<Item>, deleted: bool, account: string): set<string> {
    set it | it in items && Stub(env, items, it) && Deleted(it) == deleted && it.account == account :: it.site
  }

  /** The readable blobs that are deleted, or those that are live, with the account each belongs to. */
  function Records(items: seq<Item>, deleted: bool): seq<Sidecar> {
    if items == [] then []
    else
      var it := items[|items| - 1];
      Records(items[..|items| - 1], deleted)
      + if Readable(it) && Deleted(it) == deleted then [Sidecar(deleted, it.site, it.account, it.data.meta.value)] else []
  }

  /** (rp id, user, the account whose extras apply) of a passkey item. */
  function AccountOf(env: Env, items: seq<Item>, p: Item): (string, string, Option<(string, string)>) {
    PasskeyAccount(env, p, Records(items, Deleted(p)))
  }

  /** A passkey item that is shown at all. */
  predicate Usable(env: Env, items: seq<Item>, p: Item) {
    IsPasskey(env, p) && var rp := AccountOf(env, items, p).0; rp != "" && env.isCredential(rp, rp)
  }

  /** A passkey item of this login's account, live or deleted alike. */
  predicate Names(env: Env, items: seq<Item>, p: Item, it: Item) {
    && Usable(env, items, p) && Deleted(p) == Deleted(it)
    && var (rp, user, _) := AccountOf(env, items, p); user == it.account && env.host(it.site) == env.host(rp)
  }

  function Rest(env: Env, items: seq<Item>): seq<Item> { Passkeys(env, StripAll(items), false) }

  function TheIndex(env: Env, items: seq<Item>): Index {
    IndexAll(env, PasswordKeys(Rest(env, items)), Rest(env, items))
  }

  // --- the rest of the items ----------------------------------------------------------------------

  lemma RestSnoc(env: Env, items: seq<Item>)
    requires items != []
    ensures var m := |items| - 1;
      Rest(env, items) == Rest(env, items[..m]) + if IsPasskey(env, items[m]) then [] else [Strip(items[m])]
  {
    var m := |items| - 1;
    assert StripAll(items) == StripAll(items[..m]) + [Strip(items[m])];
    PasskeysSnoc(env, StripAll(items[..m]), Strip(items[m]), false);
  }

  lemma {:induction false} InRest(env: Env, items: seq<Item>, it: Item)
    ensures it in Rest(env, items) <==> exists o :: o in items && !IsPasskey(env, o) && Strip(o) == it
  {
    hide Rest, IsPasskey, Strip;
    if items == [] {
      EmptyRest(env);
    } else {
      var m := |items| - 1;
      assert items == items[..m] + [items[m]];
      RestSnoc(env, items);
      InRest(env, items[..m], it);
    }
  }

  lemma EmptyRest(env: Env)
    ensures Rest(env, []) == []
  {
    assert StripAll([]) == [];
  }

  lemma {:induction false} RestBlobs(env: Env, items: seq<Item>, d: bool, site: string, account: string)
    ensures BlobsOf(Rest(env, items), d, site, account) == BlobsOf(items, d, site, account)
  {
    hide Rest, Deleted;
    if items == [] {
      EmptyRest(env);
    } else {
      var m := |items| - 1;
      RestSnoc(env, items);
      RestBlobs(env, items[..m], d, site, account);
      assert IsPasskey(env, items[m]) ==> !Readable(items[m]);
      BlobsSnoc(Rest(env, items[..m]), Strip(items[m]), d, site, account);
      assert BlobsOf(items[..m], d, site, account) + [] == BlobsOf(items[..m], d, site, account);
      assert Rest(env, items[..m]) + [] == Rest(env, items[..m]);
    }
  }

  lemma BlobsSnoc(items: seq<Item>, it: Item, d: bool, site: string, account: string)
    ensures BlobsOf(items + [it], d, site, account) == BlobsOf(items, d, site, account)
      + if Readable(it) && Deleted(it) == d && it.site == site && it.account == account then [it.data.meta.value] else []
  {
    assert (items + [it])[..|items|] == items;
  }

  // --- what the index holds -----------------------------------------------------------------------

  lemma {:induction false} SaidSnoc<T>(blobs: seq<Meta>, m: Meta, says: Meta -> T, nothing: T)
    ensures FirstSaid(blobs + [m], says, nothing)
      == if FirstSaid(blobs, says, nothing) != nothing then FirstSaid(blobs, says, nothing) else says(m)
  {
    if blobs == [] {
      assert [] + [m] == [m] && [m][1..] == [];
      assert FirstSaid([m][1..], says, nothing) == nothing;
    } else {
      assert (blobs + [m])[1..] == blobs[1..] + [m];
      SaidSnoc(blobs[1..], m, says, nothing);
    }
  }

  function Said(blobs: seq<Meta>): Extra {
    Extra(FirstSaid(blobs, (m: Meta) => m.sites, []), FirstSaid(blobs, (m: Meta) => m.title, ""),
          FirstSaid(blobs, (m: Meta) => m.totp, None), FirstSaid(blobs, (m: Meta) => m.notes, ""),
          FirstSaid(blobs, (m: Meta) => m.history, []))
  }

  lemma SaidMore(blobs: seq<Meta>, m: Meta)
    ensures Said(blobs + [m]) == Fill(Said(blobs), m)
    ensures !Says(m) ==> Said(blobs + [m]) == Said(blobs)
  {
    SaidSnoc(blobs, m, (m: Meta) => m.sites, []);
    SaidSnoc(blobs, m, (m: Meta) => m.title, "");
    SaidSnoc(blobs, m, (m: Meta) => m.totp, None);
    SaidSnoc(blobs, m, (m: Meta) => m.notes, "");
    SaidSnoc(blobs, m, (m: Meta) => m.history, []);
  }

  predicate NoKeyBlobs(rest: seq<Item>) { forall i :: 0 <= i < |rest| && rest[i].class_ == "keys" ==> !rest[i].data.Blob? }

  lemma {:induction false} ExtraIs(env: Env, pw: set<Key>, rest: seq<Item>, d: bool, site: string, account: string)
    requires NoKeyBlobs(rest)
    ensures SlotOf(IndexAll(env, pw, rest).extras, (d, site, account)) == Said(BlobsOf(rest, d, site, account))
  {
    hide Said, Fill, Says, Deleted, IsStub;
    if rest == [] {
      assert Said([]) == NO_EXTRA by { NothingSaid(); }
    } else {
      var m := |rest| - 1;
      var it := rest[m];
      ExtraIs(env, pw, rest[..m], d, site, account);
      if Readable(it) { SaidMore(BlobsOf(rest[..m], d, site, account), it.data.meta.value); }
      assert BlobsOf(rest[..m], d, site, account) + [] == BlobsOf(rest[..m], d, site, account);
    }
  }

  lemma NothingSaid()
    ensures Said([]) == NO_EXTRA
  {
  }

  /** The sites stubs of the rest name for one account. */
  function RestStubs(env: Env, pw: set<Key>, rest: seq<Item>, k: (bool, string)): set<string> {
    set it | it in rest && it.data.Blob? && it.data.meta.Some? && IsStub(env, pw, it) && (Deleted(it), it.account) == k :: it.site
  }

  lemma {:induction false} StubsAre(env: Env, pw: set<Key>, rest: seq<Item>, k: (bool, string))
    ensures StubsOf(IndexAll(env, pw, rest).stubs, k) == RestStubs(env, pw, rest, k)
  {
    hide IsStub, Deleted, Fill, Says;
    if rest != [] {
      var m := |rest| - 1;
      assert rest == rest[..m] + [rest[m]];
      StubsAre(env, pw, rest[..m], k);
      StubsSnoc(env, pw, rest[..m], rest[m], k);
    }
  }

  lemma StubsSnoc(env: Env, pw: set<Key>, rest: seq<Item>, it: Item, k: (bool, string))
    ensures RestStubs(env, pw, rest + [it], k) == RestStubs(env, pw, rest, k) +
      if it.data.Blob? && it.data.meta.Some? && IsStub(env, pw, it) && (Deleted(it), it.account) == k then {it.site} else {}
  {
  }

  lemma OccupiedIs(env: Env, items: seq<Item>, d: bool, site: string, account: string)
    ensures (d, site, account) in PasswordKeys(Rest(env, items)) <==> Occupied(env, items, d, site, account)
  {
    hide Rest, Deleted, IsPasskey;
    var k := (d, site, account);
    if k in PasswordKeys(Rest(env, items)) {
      var it :| it in Rest(env, items) && !it.data.Blob? && KeyOf(it) == k;
      InRest(env, items, it);
      var o :| o in items && !IsPasskey(env, o) && Strip(o) == it;
      SameKey(o);
    }
    if Occupied(env, items, d, site, account) {
      var o :| o in items && !IsPasskey(env, o) && (o.class_ == "keys" || !o.data.Blob?)
               && Deleted(o) == d && o.site == site && o.account == account;
      InRest(env, items, Strip(o));
      SameKey(o);
      assert Strip(o) in Rest(env, items) && !Strip(o).data.Blob?;
    }
  }

  lemma SameKey(it: Item)
    ensures KeyOf(Strip(it)) == KeyOf(it)
  {
  }

  lemma StubSitesAre(env: Env, items: seq<Item>, d: bool, account: string)
    ensures RestStubs(env, PasswordKeys(Rest(env, items)), Rest(env, items), (d, account)) == StubSites(env, items, d, account)
  {
    hide Rest, Deleted, Occupied, PasswordKeys;
    var pw, rest := PasswordKeys(Rest(env, items)), Rest(env, items);
    forall site | site in RestStubs(env, pw, rest, (d, account)) ensures site in StubSites(env, items, d, account) {
      var it :| it in rest && it.data.Blob? && it.data.meta.Some? && IsStub(env, pw, it)
                && (Deleted(it), it.account) == (d, account) && it.site == site;
      InRest(env, items, it);
      OccupiedIs(env, items, d, site, account);
      var o :| o in items && !IsPasskey(env, o) && Strip(o) == it;
      assert o == it && Stub(env, items, it);
    }
    forall site | site in StubSites(env, items, d, account) ensures site in RestStubs(env, pw, rest, (d, account)) {
      var it :| it in items && Stub(env, items, it) && Deleted(it) == d && it.account == account && it.site == site;
      InRest(env, items, it);
      OccupiedIs(env, items, d, site, account);
      assert Strip(it) == it && it in rest && IsStub(env, pw, it);
    }
  }

  // --- logins -------------------------------------------------------------------------------------

  function LoginEach(env: Env, ix: Index, items: seq<Item>): (c: seq<Credential>)
    ensures |c| == |items|
  {
    seq(|items|, i requires 0 <= i < |items| => Login(env, ix, items[i]))
  }

  lemma KeptIs(env: Env, it: Item)
    ensures Admitted(env, it) <==> !IsPasskey(env, it) && Kept(env, Strip(it))
    ensures Admitted(env, it) ==> Strip(it) == it
  {
  }

  lemma {:induction false} LoginsAre(env: Env, ix: Index, items: seq<Item>)
    ensures Logins(env, ix, Rest(env, items)) == LoginEach(env, ix, Admits(env, items))
  {
    hide Rest, Deleted, Login, Kept, Admitted, Strip, IsPasskey;
    if items == [] {
      EmptyRest(env);
    } else {
      var m := |items| - 1;
      RestSnoc(env, items);
      KeptIs(env, items[m]);
      LoginsAre(env, ix, items[..m]);
      assert Rest(env, items[..m]) + [] == Rest(env, items[..m]);
      LoginsSnoc(env, ix, Rest(env, items[..m]), Strip(items[m]));
      assert LoginEach(env, ix, Admits(env, items[..m]) + [items[m]])
        == LoginEach(env, ix, Admits(env, items[..m])) + [Login(env, ix, items[m])];
      assert Admits(env, items[..m]) + [] == Admits(env, items[..m]);
      assert Logins(env, ix, Rest(env, items[..m])) + [] == Logins(env, ix, Rest(env, items[..m]));
    }
  }

  /** The rows of the store start with the logins: in order, exactly the admitted items, each with its own
      site, account, password, title and time, with what the first blob of that account to say it says, and
      with the other sites that stubs name for the account. */
  lemma LoginRows(env: Env, items: seq<Item>, j: nat)
    requires j < |Admits(env, items)|
    ensures |Admits(env, items)| <= |FromItems(env, items)|
    ensures var it, row := Admits(env, items)[j], FromItems(env, items)[j];
      && row.domain == it.site && row.username == it.account && row.password == PasswordOf(it)
      && row.title == TitleOf(it) && row.mdat == it.mdat && row.deleted == Deleted(it) && !row.passkeyOnly
      && var said := BlobsOf(items, Deleted(it), it.site, it.account);
      && row.totp == FirstSaid(said, (m: Meta) => m.totp, None)
      && row.notes == FirstSaid(said, (m: Meta) => m.notes, "")
      && row.history == FirstSaid(said, (m: Meta) => m.history, [])
      && row.appleTitle == FirstSaid(said, (m: Meta) => m.title, "")
      && row.sites == FirstSaid(said, (m: Meta) => m.sites, [])
      && row.aliases == (set d | d in StubSites(env, items, Deleted(it), it.account) && !env.matches(d, it.site))
      && (row.hasPasskey <==> exists p :: p in items && Names(env, items, p, it))
  {
    var it, ix := Admits(env, items)[j], TheIndex(env, items);
    var logins, keys := Logins(env, ix, Rest(env, items)), Passkeys(env, StripAll(items), true);
    LoginFields(env, items, it);
    LoginsAre(env, ix, items);
    hide Login, Admits, FirstSaid, TheIndex, BlobsOf, StubSites, Deleted, Names, Claims, Claimed;
    PasskeyFlagExactly(env, ix, logins, keys, j);
    StoreIs(env, items);
    ClaimedIs(env, items, it);
  }

  lemma StoreIs(env: Env, items: seq<Item>)
    ensures var ix := TheIndex(env, items);
      FromItems(env, items) == AddPasskeys(env, ix, Logins(env, ix, Rest(env, items)), Passkeys(env, StripAll(items), true))
  {
  }

  lemma {:induction false} RestNoKeyBlobs(env: Env, items: seq<Item>)
    ensures NoKeyBlobs(Rest(env, items))
  {
    hide Rest, IsPasskey;
    if items == [] { EmptyRest(env); }
    else { RestNoKeyBlobs(env, items[..|items| - 1]); RestSnoc(env, items); }
  }

  lemma LoginFields(env: Env, items: seq<Item>, it: Item)
    ensures var row := Login(env, TheIndex(env, items), it);
      && row.domain == it.site && row.username == it.account && row.password == PasswordOf(it)
      && row.title == TitleOf(it) && row.mdat == it.mdat && row.deleted == Deleted(it) && !row.passkeyOnly && !row.hasPasskey
      && Extra(row.sites, row.appleTitle, row.totp, row.notes, row.history)
         == Said(BlobsOf(items, Deleted(it), it.site, it.account))
      && row.aliases == (set d | d in StubSites(env, items, Deleted(it), it.account) && !env.matches(d, it.site))
  {
    var rest := Rest(env, items);
    var pw := PasswordKeys(rest);
    hide Rest, PasswordKeys, BlobsOf, StubSites, Said, IndexAll, Deleted;
    RestNoKeyBlobs(env, items);
    ExtraIs(env, pw, rest, Deleted(it), it.site, it.account);
    RestBlobs(env, items, Deleted(it), it.site, it.account);
    StubsAre(env, pw, rest, (Deleted(it), it.account));
    StubSitesAre(env, items, Deleted(it), it.account);
  }

  // --- passkeys -----------------------------------------------------------------------------------

  lemma {:induction false} InKeys(env: Env, items: seq<Item>, it: Item)
    ensures it in Passkeys(env, StripAll(items), true) <==> exists o :: o in items && IsPasskey(env, o) && Strip(o) == it
  {
    hide IsPasskey, Strip;
    if items == [] {
      assert StripAll(items) == [];
    } else {
      var m := |items| - 1;
      assert items == items[..m] + [items[m]];
      KeysSnoc(env, items);
      InKeys(env, items[..m], it);
    }
  }

  lemma KeysSnoc(env: Env, items: seq<Item>)
    requires items != []
    ensures var m := |items| - 1;
      Passkeys(env, StripAll(items), true)
      == Passkeys(env, StripAll(items[..m]), true) + if IsPasskey(env, items[m]) then [Strip(items[m])] else []
  {
    var m := |items| - 1;
    assert StripAll(items) == StripAll(items[..m]) + [Strip(items[m])];
    PasskeysSnoc(env, StripAll(items[..m]), Strip(items[m]), true);
  }

  lemma {:induction false} SidecarsAre(env: Env, pw: set<Key>, rest: seq<Item>, d: bool)
    requires NoKeyBlobs(rest)
    ensures Same(d, IndexAll(env, pw, rest).sidecars) == Records(rest, d)
  {
    hide IsStub, Deleted, Fill, Says;
    if rest != [] {
      var m := |rest| - 1;
      var it, ix := rest[m], IndexAll(env, pw, rest[..m]);
      SidecarsAre(env, pw, rest[..m], d);
      if Readable(it) { SameSnoc(d, ix.sidecars, Sidecar(Deleted(it), it.site, it.account, it.data.meta.value)); }
      assert Records(rest[..m], d) + [] == Records(rest[..m], d);
    }
  }

  lemma RecordsSnoc(items: seq<Item>, it: Item, d: bool)
    ensures Records(items + [it], d) == Records(items, d)
      + if Readable(it) && Deleted(it) == d then [Sidecar(d, it.site, it.account, it.data.meta.value)] else []
  {
    assert (items + [it])[..|items|] == items;
  }

  lemma {:induction false} RestRecords(env: Env, items: seq<Item>, d: bool)
    ensures Records(Rest(env, items), d) == Records(items, d)
  {
    hide Rest, Deleted;
    if items == [] {
      EmptyRest(env);
    } else {
      var m := |items| - 1;
      RestSnoc(env, items);
      RestRecords(env, items[..m], d);
      assert IsPasskey(env, items[m]) ==> !Readable(items[m]);
      RecordsSnoc(Rest(env, items[..m]), Strip(items[m]), d);
      assert Records(items[..m], d) + [] == Records(items[..m], d);
      assert Rest(env, items[..m]) + [] == Rest(env, items[..m]);
    }
  }

  /** The account the third pass finds is the one of the raw items. */
  lemma AccountIs(env: Env, items: seq<Item>, p: Item)
    ensures PasskeyAccount(env, Strip(p), Same(Deleted(Strip(p)), TheIndex(env, items).sidecars)) == AccountOf(env, items, p)
  {
    hide Rest, PasswordKeys, IndexAll;
    RestNoKeyBlobs(env, items);
    SidecarsAre(env, PasswordKeys(Rest(env, items)), Rest(env, items), Deleted(p));
    RestRecords(env, items, Deleted(p));
  }

  lemma ClaimsIs(env: Env, items: seq<Item>, p: Item, it: Item)
    requires IsPasskey(env, p)
    ensures Claims(env, TheIndex(env, items), Strip(p), Login(env, TheIndex(env, items), it)) <==> Names(env, items, p, it)
  {
    AccountIs(env, items, p);
    hide TheIndex, PasskeyAccount;
  }

  lemma ClaimedIs(env: Env, items: seq<Item>, it: Item)
    ensures Claimed(env, TheIndex(env, items), Passkeys(env, StripAll(items), true), Login(env, TheIndex(env, items), it))
      <==> exists p :: p in items && Names(env, items, p, it)
  {
    var ix, keys := TheIndex(env, items), Passkeys(env, StripAll(items), true);
    var c := Login(env, ix, it);
    hide TheIndex, Passkeys, StripAll, Claims, Login, Strip, IsPasskey;
    if Claimed(env, ix, keys, c) {
      var i :| 0 <= i < |keys| && Claims(env, ix, keys[i], c);
      InKeys(env, items, keys[i]);
      var o :| o in items && IsPasskey(env, o) && Strip(o) == keys[i];
      ClaimsIs(env, items, o, it);
    }
    if exists p :: p in items && Names(env, items, p, it) {
      var p :| p in items && Names(env, items, p, it);
      InKeys(env, items, Strip(p));
      ClaimsIs(env, items, p, it);
    }
  }

  /** Usable passkey items that name none of the logins. */
  predicate Alone(env: Env, all: seq<Item>, p: Item) {
    Usable(env, all, p) && forall it :: it in Admits(env, all) ==> !Names(env, all, p, it)
  }

  function Lone(env: Env, all: seq<Item>, items: seq<Item>): seq<Item> {
    if items == [] then []
    else Lone(env, all, items[..|items| - 1]) + if Alone(env, all, items[|items| - 1]) then [items[|items| - 1]] else []
  }

  /** The row of a passkey without a login: no password, and what the record of its account says. */
  function LoneRow(env: Env, all: seq<Item>, p: Item): Credential {
    var (rp, user, account) := AccountOf(env, all, p);
    var said := if account.None? then [] else BlobsOf(all, Deleted(p), account.value.0, account.value.1);
    Credential(domain := rp, username := user, password := "", title := rp, mdat := p.mdat, totp := None,
               notes := FirstSaid(said, (m: Meta) => m.notes, ""), history := [],
               appleTitle := FirstSaid(said, (m: Meta) => m.title, ""), aliases := {},
               sites := FirstSaid(said, (m: Meta) => m.sites, []), deleted := Deleted(p),
               passkeyOnly := true, hasPasskey := true)
  }

  function LoneRows(env: Env, all: seq<Item>, items: seq<Item>): (c: seq<Credential>)
    ensures |c| == |items|
  {
    seq(|items|, i requires 0 <= i < |items| => LoneRow(env, all, items[i]))
  }

  /** Later passkeys neither hide nor add a login that an earlier one could hit. */
  lemma HitsStay(env: Env, ix: Index, logins: seq<Credential>, keys: seq<Item>, d: bool, user: string, rp: string)
    ensures AnyHit(env, AddPasskeys(env, ix, logins, keys), d, user, rp) <==> AnyHit(env, logins, d, user, rp)
  {
    hide AddPasskeys, Claimed;
    var out := AddPasskeys(env, ix, logins, keys);
    if AnyHit(env, out, d, user, rp) {
      var c :| c in out && Hit(env, c, d, user, rp);
      var i :| 0 <= i < |out| && out[i] == c;
      if i < |logins| {
        PasskeyFlagExactly(env, ix, logins, keys, i);
        assert logins[i] in logins && Hit(env, logins[i], d, user, rp);
      } else {
        OnlyRows(env, ix, logins, keys);
      }
    }
    if AnyHit(env, logins, d, user, rp) {
      var c :| c in logins && Hit(env, c, d, user, rp);
      var i :| 0 <= i < |logins| && logins[i] == c;
      PasskeyFlagExactly(env, ix, logins, keys, i);
      assert out[i] in out && Hit(env, out[i], d, user, rp);
    }
  }

  lemma {:induction false} OnlyRows(env: Env, ix: Index, logins: seq<Credential>, keys: seq<Item>)
    ensures |logins| <= |AddPasskeys(env, ix, logins, keys)|
    ensures forall j :: |logins| <= j < |AddPasskeys(env, ix, logins, keys)| ==> AddPasskeys(env, ix, logins, keys)[j].passkeyOnly
  {
    hide PasskeyAccount;
    if keys != [] {
      var before, it := AddPasskeys(env, ix, logins, keys[..|keys| - 1]), keys[|keys| - 1];
      OnlyRows(env, ix, logins, keys[..|keys| - 1]);
      var (rp, user, _) := PasskeyAccount(env, it, Same(Deleted(it), ix.sidecars));
      MarkAt(env, before, Deleted(it), user, rp);
    }
  }

  /** What one passkey item adds. */
  function Added(env: Env, ix: Index, logins: seq<Credential>, it: Item): seq<Credential> {
    var (rp, user, sidecar) := PasskeyAccount(env, it, Same(Deleted(it), ix.sidecars));
    if rp == "" || !env.isCredential(rp, rp) || AnyHit(env, logins, Deleted(it), user, rp) then []
    else
      var x := if sidecar.Some? then SlotOf(ix.extras, (Deleted(it), sidecar.value.0, sidecar.value.1)) else NO_EXTRA;
      [PasskeyRow(it, rp, user, x)]
  }

  function AddedAll(env: Env, ix: Index, logins: seq<Credential>, keys: seq<Item>): seq<Credential> {
    if keys == [] then [] else AddedAll(env, ix, logins, keys[..|keys| - 1]) + Added(env, ix, logins, keys[|keys| - 1])
  }

  lemma AddedOne(env: Env, ix: Index, logins: seq<Credential>, keys: seq<Item>, it: Item)
    ensures var before := AddPasskeys(env, ix, logins, keys); var after := AddPasskey(env, ix, before, it);
      |logins| <= |before| <= |after| && after[|logins|..] == before[|logins|..] + Added(env, ix, logins, it)
  {
    hide PasskeyAccount, AnyHit, Mark;
    var before := AddPasskeys(env, ix, logins, keys);
    var (rp, user, sidecar) := PasskeyAccount(env, it, Same(Deleted(it), ix.sidecars));
    HitsStay(env, ix, logins, keys, Deleted(it), user, rp);
    OnlyRows(env, ix, logins, keys);
    MarkAt(env, before, Deleted(it), user, rp);
    assert before[|logins|..] + [] == before[|logins|..];
  }

  lemma {:induction false} TailIs(env: Env, ix: Index, logins: seq<Credential>, keys: seq<Item>)
    ensures var out := AddPasskeys(env, ix, logins, keys);
      |logins| <= |out| && out[|logins|..] == AddedAll(env, ix, logins, keys)
  {
    hide AddPasskey, Added;
    if keys != [] {
      TailIs(env, ix, logins, keys[..|keys| - 1]);
      AddedOne(env, ix, logins, keys[..|keys| - 1], keys[|keys| - 1]);
    }
  }

  lemma HitsAre(env: Env, items: seq<Item>, p: Item)
    requires Usable(env, items, p)
    ensures var (rp, user, _) := AccountOf(env, items, p);
      AnyHit(env, Logins(env, TheIndex(env, items), Rest(env, items)), Deleted(p), user, rp) <==> !Alone(env, items, p)
  {
    var ix := TheIndex(env, items);
    var (rp, user, _) := AccountOf(env, items, p);
    var logins, adm := Logins(env, ix, Rest(env, items)), Admits(env, items);
    LoginsAre(env, ix, items);
    hide TheIndex, Admits, AccountOf, Rest, Logins, Deleted, Usable;
    forall i | 0 <= i < |adm| ensures Hit(env, logins[i], Deleted(p), user, rp) <==> Names(env, items, p, adm[i]) {}
    if AnyHit(env, logins, Deleted(p), user, rp) {
      var c :| c in logins && Hit(env, c, Deleted(p), user, rp);
      var i :| 0 <= i < |logins| && logins[i] == c;
      assert adm[i] in adm;
    }
    if !Alone(env, items, p) {
      var it :| it in adm && Names(env, items, p, it);
      var i :| 0 <= i < |adm| && adm[i] == it;
      assert logins[i] in logins;
    }
  }

  lemma AddedIs(env: Env, items: seq<Item>, p: Item)
    requires IsPasskey(env, p)
    ensures Added(env, TheIndex(env, items), Logins(env, TheIndex(env, items), Rest(env, items)), Strip(p))
      == if Alone(env, items, p) then [LoneRow(env, items, p)] else []
  {
    var account := AccountOf(env, items, p).2;
    if account.Some? { SlotIs(env, items, Deleted(p), account.value.0, account.value.1); }
    NothingSaid();
    AccountIs(env, items, p);
    if Usable(env, items, p) { HitsAre(env, items, p); }
    hide TheIndex, Logins, Rest, AccountOf, PasskeyAccount, FirstSaid, Same, BlobsOf, AnyHit;
  }

  lemma SlotIs(env: Env, items: seq<Item>, d: bool, site: string, account: string)
    ensures SlotOf(TheIndex(env, items).extras, (d, site, account)) == Said(BlobsOf(items, d, site, account))
  {
    hide Rest, PasswordKeys, IndexAll, BlobsOf, Said;
    RestNoKeyBlobs(env, items);
    ExtraIs(env, PasswordKeys(Rest(env, items)), Rest(env, items), d, site, account);
    RestBlobs(env, items, d, site, account);
  }

  lemma {:induction false} AddedAllIs(env: Env, all: seq<Item>, items: seq<Item>)
    ensures AddedAll(env, TheIndex(env, all), Logins(env, TheIndex(env, all), Rest(env, all)),
                     Passkeys(env, StripAll(items), true))
      == LoneRows(env, all, Lone(env, all, items))
  {
    var ix := TheIndex(env, all);
    var logins := Logins(env, ix, Rest(env, all));
    hide TheIndex, Logins, Rest, Added, Alone, LoneRow, Strip, IsPasskey;
    if items == [] {
      assert StripAll(items) == [];
    } else {
      var m := |items| - 1;
      var it, before := items[m], Passkeys(env, StripAll(items[..m]), true);
      KeysSnoc(env, items);
      AddedAllIs(env, all, items[..m]);
      assert before + [] == before && Lone(env, all, items[..m]) + [] == Lone(env, all, items[..m]);
      assert (before + [Strip(it)])[..|before|] == before;
      LoneIsPasskey(env, all, it);
      if IsPasskey(env, it) { AddedIs(env, all, it); }
      assert AddedAll(env, ix, logins, before) + [] == AddedAll(env, ix, logins, before);
      assert LoneRows(env, all, Lone(env, all, items[..m]) + [it]) == LoneRows(env, all, Lone(env, all, items[..m])) + [LoneRow(env, all, it)];
    }
  }

  lemma LoneIsPasskey(env: Env, all: seq<Item>, p: Item)
    ensures Alone(env, all, p) ==> IsPasskey(env, p)
  {
  }

  /** After the logins come, in order, exactly the usable passkeys that belong to none of them, each with
      its site, its user, no password and its own time. */
  lemma PasskeyRows(env: Env, items: seq<Item>)
    ensures var rows, n := FromItems(env, items), |Admits(env, items)|;
      n <= |rows| && rows[n..] == LoneRows(env, items, Lone(env, items, items))
  {
    var ix := TheIndex(env, items);
    LoginsAre(env, ix, items);
    StoreIs(env, items);
    TailIs(env, ix, Logins(env, ix, Rest(env, items)), Passkeys(env, StripAll(items), true));
    AddedAllIs(env, items, items);
  }

  // --- whose passkey it is ------------------------------------------------------------------------

  /** A record that holds the credential id, at the item's host where it names one. */
  predicate HoldsId(env: Env, it: Item, sc: Sidecar) {
    && it.klbl.Some? && |it.klbl.value| >= 16 && it.klbl.value in sc.meta.ids
    && (var rp := Or(it.labl, it.srvr); rp == "" || env.host(sc.site) == env.host(rp))
  }

  predicate AtHost(env: Env, it: Item, sc: Sidecar) {
    sc.account != "" && env.host(sc.site) == env.host(Or(it.labl, it.srvr))
  }

  /** The first record with a property. */
  predicate FirstOf(same: seq<Sidecar>, i: int, p: Sidecar -> bool) {
    0 <= i < |same| && p(same[i]) && forall j :: 0 <= j < i ==> !p(same[j])
  }

  predicate NoneOf(same: seq<Sidecar>, p: Sidecar -> bool) { forall i :: 0 <= i < |same| ==> !p(same[i]) }

  lemma {:induction false} FirstFound(same: seq<Sidecar>, p: Sidecar -> bool)
    ensures First(same, p).None? <==> NoneOf(same, p)
    ensures forall i :: FirstOf(same, i, p) ==> First(same, p) == Some(same[i])
  {
    if same != [] {
      FirstFound(same[1..], p);
      assert forall j :: 0 < j < |same| ==> same[j] == same[1..][j - 1];
      forall i | FirstOf(same, i, p) ensures First(same, p) == Some(same[i]) {
        if i > 0 { assert FirstOf(same[1..], i - 1, p); }
      }
      if NoneOf(same[1..], p) && !p(same[0]) { assert NoneOf(same, p); }
    }
  }

  lemma {:induction false} KeepHead(same: seq<Sidecar>, p: Sidecar -> bool)
    ensures Keep(same, p) == [] <==> NoneOf(same, p)
    ensures forall i :: FirstOf(same, i, p) ==> Keep(same, p) != [] && Keep(same, p)[0] == same[i]
  {
    if same != [] {
      var m := |same| - 1;
      KeepHead(same[..m], p);
      forall i | FirstOf(same, i, p) ensures Keep(same, p) != [] && Keep(same, p)[0] == same[i] {
        if i < m { assert FirstOf(same[..m], i, p); } else { assert NoneOf(same[..m], p); }
      }
      if NoneOf(same, p) { assert NoneOf(same[..m], p); }
    }
  }

  lemma {:induction false} KeepHas(same: seq<Sidecar>, p: Sidecar -> bool, sc: Sidecar)
    ensures sc in Keep(same, p) <==> sc in same && p(sc)
  {
    if same != [] {
      assert same == same[..|same| - 1] + [same[|same| - 1]];
      KeepHas(same[..|same| - 1], p, sc);
    }
  }

  lemma FirstSnoc(same: seq<Sidecar>, sc: Sidecar, p: Sidecar -> bool)
    ensures First(same + [sc], p) == if First(same, p).Some? then First(same, p) else if p(sc) then Some(sc) else None
    decreases |same|
  {
    if same != [] {
      assert (same + [sc])[1..] == same[1..] + [sc];
      FirstSnoc(same[1..], sc, p);
    }
  }

  lemma {:induction false} FirstKept(same: seq<Sidecar>, p: Sidecar -> bool, q: Sidecar -> bool)
    ensures First(Keep(same, p), q) == First(same, (sc: Sidecar) => p(sc) && q(sc))
  {
    if same != [] {
      var m := |same| - 1;
      FirstKept(same[..m], p, q);
      assert same == same[..m] + [same[m]];
      FirstSnoc(same[..m], same[m], (sc: Sidecar) => p(sc) && q(sc));
      FirstSnoc(Keep(same[..m], p), same[m], q);
      assert Keep(same[..m], p) + [] == Keep(same[..m], p);
    }
  }

  /** The first record that holds the credential id gives the account; the item's own names come first. */
  lemma AccountById(env: Env, it: Item, same: seq<Sidecar>, i: int)
    requires FirstOf(same, i, (sc: Sidecar) => HoldsId(env, it, sc))
    ensures var rp := if it.labl != "" then it.labl else it.srvr;
      PasskeyAccount(env, it, same)
      == (if rp != "" then rp else same[i].site, if it.acct != "" then it.acct else same[i].account,
          Some((same[i].site, same[i].account)))
  {
    var rp := Or(it.labl, it.srvr);
    var p := (sc: Sidecar) => (rp == "" || env.host(sc.site) == env.host(rp)) && it.klbl.value in sc.meta.ids;
    assert FirstOf(same, i, p);
    FirstFound(same, p);
  }

  /** Without one, an item that names its user keeps it, with the extras of that account at its host. */
  lemma AccountByUser(env: Env, it: Item, same: seq<Sidecar>)
    requires NoneOf(same, (sc: Sidecar) => HoldsId(env, it, sc))
    requires Or(it.labl, it.srvr) != "" && it.acct != ""
    ensures var (rp, user, account) := PasskeyAccount(env, it, same);
      && rp == Or(it.labl, it.srvr) && user == it.acct
      && (forall i :: FirstOf(same, i, (sc: Sidecar) => AtHost(env, it, sc) && sc.account == it.acct) ==>
            account == Some((same[i].site, it.acct)))
      && (NoneOf(same, (sc: Sidecar) => AtHost(env, it, sc) && sc.account == it.acct) ==> account == None)
  {
    NotById(env, it, same);
    var rp := Or(it.labl, it.srvr);
    var p := (sc: Sidecar) => sc.account != "" && env.host(sc.site) == env.host(rp);
    var q := (sc: Sidecar) => sc.account == it.acct;
    var both := (sc: Sidecar) => p(sc) && q(sc);
    FirstKept(same, p, q);
    FirstFound(same, both);
    forall i | FirstOf(same, i, (sc: Sidecar) => AtHost(env, it, sc) && sc.account == it.acct) ensures FirstOf(same, i, both) {}
    if NoneOf(same, (sc: Sidecar) => AtHost(env, it, sc) && sc.account == it.acct) { assert NoneOf(same, both); }
  }

  /** An item without a user takes the only account that records name at its host, and none if they name
      two; an item without a host is not shown. */
  lemma AccountByHost(env: Env, it: Item, same: seq<Sidecar>)
    requires NoneOf(same, (sc: Sidecar) => HoldsId(env, it, sc))
    ensures Or(it.labl, it.srvr) == "" ==> PasskeyAccount(env, it, same) == ("", "", None)
    ensures Or(it.labl, it.srvr) != "" && it.acct == "" ==> (
      var (rp, user, account) := PasskeyAccount(env, it, same);
      && rp == Or(it.labl, it.srvr)
      && (forall i :: FirstOf(same, i, (sc: Sidecar) => AtHost(env, it, sc)) ==>
            if forall sc :: sc in same && AtHost(env, it, sc) ==> sc.account == same[i].account
            then user == same[i].account && account == Some((same[i].site, user)) else user == "" && account == None)
      && (NoneOf(same, (sc: Sidecar) => AtHost(env, it, sc)) ==> user == "" && account == None))
  {
    NotById(env, it, same);
    var rp := Or(it.labl, it.srvr);
    var p := (sc: Sidecar) => sc.account != "" && env.host(sc.site) == env.host(rp);
    var at := Keep(same, p);
    KeepHead(same, p);
    forall sc ensures sc in at <==> sc in same && AtHost(env, it, sc) { KeepHas(same, p, sc); }
    forall i | FirstOf(same, i, (sc: Sidecar) => AtHost(env, it, sc)) ensures at != [] && at[0] == same[i] {
      assert FirstOf(same, i, p);
    }
    if NoneOf(same, (sc: Sidecar) => AtHost(env, it, sc)) { assert NoneOf(same, p); }
  }

  lemma NotById(env: Env, it: Item, same: seq<Sidecar>)
    requires NoneOf(same, (sc: Sidecar) => HoldsId(env, it, sc))
    ensures it.klbl.Some? && |it.klbl.value| >= 16 ==>
      var rp := Or(it.labl, it.srvr);
      First(same, (sc: Sidecar) => (rp == "" || env.host(sc.site) == env.host(rp)) && it.klbl.value in sc.meta.ids).None?
  {
    if it.klbl.Some? && |it.klbl.value| >= 16 {
      var rp := Or(it.labl, it.srvr);
      var p := (sc: Sidecar) => (rp == "" || env.host(sc.site) == env.host(rp)) && it.klbl.value in sc.meta.ids;
      FirstFound(same, p);
      forall i | 0 <= i < |same| ensures !p(same[i]) { assert !HoldsId(env, it, same[i]); }
    }
  }
}
