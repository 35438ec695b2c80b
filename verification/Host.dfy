/** Decrypted keychain items to credentials: three passes, with Recently Deleted kept apart in each. */
module Host {
  import opened Wrappers

  /** What the model does not look inside: host names, record names, case. */
  datatype Env = Env(
    host: string -> string, isCredential: (string, string) -> bool, matches: (string, string) -> bool,
    lower: string -> string)

  /** The attributes kept of a metadata blob; `ids` are the credential ids found anywhere in it. */
  datatype Meta = Meta(sites: seq<string>, title: string, totp: Option<string>, notes: string,
                       history: seq<(int, string)>, ids: set<string>)

  /** v_Data: absent, a password, or a metadata blob that may not be readable. */
  datatype Data = Absent | Text(text: string) | Blob(meta: Option<Meta>)

  /** An item; `site` and `account` are the first present of the names the source tries. */
  datatype Item = Item(agrp: string, class_: string, site: string, account: string, acct: string, srvr: string,
                       labl: string, klbl: Option<string>, data: Data, password: string, mdat: int)

  datatype Credential = Credential(
    domain: string, username: string, password: string, title: string, mdat: int, totp: Option<string>,
    notes: string, history: seq<(int, string)>, appleTitle: string, aliases: set<string>, sites: seq<string>,
    deleted: bool, passkeyOnly: bool, hasPasskey: bool)

  const SUFFIX := "-recently-deleted"
  const WEBAUTHN := "com.apple.webkit.webauthn"

  predicate EndsWith(s: string, t: string) { |t| <= |s| && s[|s| - |t|..] == t }

  predicate Deleted(it: Item) { EndsWith(it.agrp, SUFFIX) }

  function BaseGroup(it: Item): string {
    if Deleted(it) then it.agrp[..|it.agrp| - |SUFFIX|] else it.agrp
  }

  predicate IsPasskey(env: Env, it: Item) { it.class_ == "keys" && env.lower(BaseGroup(it)) == WEBAUTHN }

  /** The private key of a class `keys` item is deleted before anything reads it. */
  function Strip(it: Item): Item { if it.class_ == "keys" then it.(data := Absent) else it }

  function StripAll(items: seq<Item>): seq<Item> {
    seq(|items|, i requires 0 <= i < |items| => Strip(items[i]))
  }

  method StripInPlace(items: array<Item>)
    modifies items
    ensures items[..] == StripAll(old(items[..]))
  {
    for i := 0 to items.Length
      invariant forall k :: 0 <= k < i ==> items[k] == Strip(old(items[k]))
      invariant forall k :: i <= k < items.Length ==> items[k] == old(items[k])
    {
      if items[i].class_ == "keys" {
        items[i] := items[i].(data := Absent);
      }
    }
  }

  // --- selecting ---

  function Keep<T>(s: seq<T>, p: T -> bool): seq<T> {
    if s == [] then []
    else Keep(s[..|s| - 1], p) + if p(s[|s| - 1]) then [s[|s| - 1]] else []
  }

  /** Only the Recently Deleted items, or only the live ones. */
  function Only(d: bool, items: seq<Item>): seq<Item> {
    if items == [] then []
    else Only(d, items[..|items| - 1]) + if Deleted(items[|items| - 1]) == d then [items[|items| - 1]] else []
  }

  function Of(d: bool, creds: seq<Credential>): seq<Credential> {
    if creds == [] then []
    else Of(d, creds[..|creds| - 1]) + if creds[|creds| - 1].deleted == d then [creds[|creds| - 1]] else []
  }

  function Passkeys(env: Env, items: seq<Item>, yes: bool): seq<Item> {
    if items == [] then []
    else Passkeys(env, items[..|items| - 1], yes)
         + if IsPasskey(env, items[|items| - 1]) == yes then [items[|items| - 1]] else []
  }

  // --- the first pass ---

  type Key = (bool, string, string)

  datatype Extra = Extra(sites: seq<string>, title: string, totp: Option<string>, notes: string, history: seq<(int, string)>)

  const NO_EXTRA := Extra([], "", None, "", [])

  datatype Sidecar = Sidecar(deleted: bool, site: string, account: string, meta: Meta)

  datatype Index = Index(stubs: map<(bool, string), set<string>>, extras: map<Key, Extra>, sidecars: seq<Sidecar>)

  function KeyOf(it: Item): Key { (Deleted(it), it.site, it.account) }

  function PasswordKeys(rest: seq<Item>): set<Key> {
    set it | it in rest && !it.data.Blob? :: KeyOf(it)
  }

  predicate Says(m: Meta) { m.totp.Some? || m.notes != "" || m.history != [] || m.title != "" || m.sites != [] }

  /** What the slot lacks is taken from the record; the first record to say something wins. */
  function Fill(x: Extra, m: Meta): Extra {
    Extra(if x.sites == [] then m.sites else x.sites, if x.title == "" then m.title else x.title,
          if x.totp.None? then m.totp else x.totp, if x.notes == "" then m.notes else x.notes,
          if x.history == [] then m.history else x.history)
  }

  function SlotOf(extras: map<Key, Extra>, k: Key): Extra { if k in extras then extras[k] else NO_EXTRA }

  function StubsOf(stubs: map<(bool, string), set<string>>, k: (bool, string)): set<string> {
    if k in stubs then stubs[k] else {}
  }

  predicate IsStub(env: Env, pw: set<Key>, it: Item) {
    KeyOf(it) !in pw && it.site != "" && it.account != "" && env.isCredential(it.site, it.labl)
  }

  function IndexItem(env: Env, pw: set<Key>, ix: Index, it: Item): Index {
    if !it.data.Blob? || it.data.meta.None? then ix
    else
      var m, k, s := it.data.meta.value, KeyOf(it), (Deleted(it), it.account);
      Index(if IsStub(env, pw, it) then ix.stubs[s := StubsOf(ix.stubs, s) + {it.site}] else ix.stubs,
            if Says(m) then ix.extras[k := Fill(SlotOf(ix.extras, k), m)] else ix.extras,
            ix.sidecars + [Sidecar(k.0, k.1, k.2, m)])
  }

  function IndexAll(env: Env, pw: set<Key>, rest: seq<Item>): Index {
    if rest == [] then Index(map[], map[], [])
    else IndexItem(env, pw, IndexAll(env, pw, rest[..|rest| - 1]), rest[|rest| - 1])
  }

  // --- the second pass ---

  function Shown(it: Item): string {
    match it.data
    case Text(t) => if t == "" then it.password else t
    case _ => it.password
  }

  function Title(it: Item): string { if it.labl == "" then it.site else it.labl }

  predicate Kept(env: Env, it: Item) {
    && !it.data.Blob? && it.class_ != "keys" && env.isCredential(it.site, Title(it))
    && (it.site != "" || it.account != "") && (it.account != "" || Shown(it) != "")
  }

  function Login(env: Env, ix: Index, it: Item): Credential {
    var x := SlotOf(ix.extras, KeyOf(it));
    Credential(it.site, it.account, Shown(it), Title(it), it.mdat, x.totp, x.notes, x.history, x.title,
               (set d | d in StubsOf(ix.stubs, (Deleted(it), it.account)) && !env.matches(d, it.site)),
               x.sites, Deleted(it), false, false)
  }

  function Logins(env: Env, ix: Index, rest: seq<Item>): seq<Credential> {
    if rest == [] then []
    else Logins(env, ix, rest[..|rest| - 1])
         + if Kept(env, rest[|rest| - 1]) then [Login(env, ix, rest[|rest| - 1])] else []
  }

  // --- the third pass ---

  function Same(d: bool, sidecars: seq<Sidecar>): seq<Sidecar> {
    if sidecars == [] then []
    else Same(d, sidecars[..|sidecars| - 1]) + if sidecars[|sidecars| - 1].deleted == d then [sidecars[|sidecars| - 1]] else []
  }

  function First(s: seq<Sidecar>, p: Sidecar -> bool): Option<Sidecar> {
    if s == [] then None else if p(s[0]) then Some(s[0]) else First(s[1..], p)
  }

  function Or(s: string, t: string): string { if s == "" then t else s }

  /** (rp id, user, the account whose extras apply) for a passkey item. */
  function PasskeyAccount(env: Env, it: Item, same: seq<Sidecar>): (string, string, Option<(string, string)>) {
    var rp, user := Or(it.labl, it.srvr), it.acct;
    var byId := if it.klbl.Some? && |it.klbl.value| >= 16
      then First(same, (sc: Sidecar) => (rp == "" || env.host(sc.site) == env.host(rp)) && it.klbl.value in sc.meta.ids)
      else None;
    if byId.Some? then (Or(rp, byId.value.site), Or(user, byId.value.account), Some((byId.value.site, byId.value.account)))
    else if rp == "" then ("", "", None)
    else
      var at := Keep(same, (sc: Sidecar) => sc.account != "" && env.host(sc.site) == env.host(rp));
      if user != "" then
        var mine := First(at, (sc: Sidecar) => sc.account == user);
        (rp, user, if mine.Some? then Some((mine.value.site, user)) else None)
      else if at != [] && forall sc :: sc in at ==> sc.account == at[0].account then
        (rp, at[0].account, Some((at[0].site, at[0].account)))
      else (rp, "", None)
  }

  predicate Hit(env: Env, c: Credential, d: bool, user: string, rp: string) {
    !c.passkeyOnly && c.deleted == d && c.username == user && env.host(c.domain) == env.host(rp)
  }

  predicate AnyHit(env: Env, creds: seq<Credential>, d: bool, user: string, rp: string) {
    exists c :: c in creds && Hit(env, c, d, user, rp)
  }

  function Mark(env: Env, creds: seq<Credential>, d: bool, user: string, rp: string): seq<Credential> {
    if creds == [] then []
    else
      var c := creds[|creds| - 1];
      Mark(env, creds[..|creds| - 1], d, user, rp) + [if Hit(env, c, d, user, rp) then c.(hasPasskey := true) else c]
  }

  function PasskeyRow(it: Item, rp: string, user: string, x: Extra): Credential {
    Credential(rp, user, "", rp, it.mdat, None, x.notes, [], x.title, {}, x.sites, Deleted(it), true, true)
  }

  function AddPasskey(env: Env, ix: Index, creds: seq<Credential>, it: Item): seq<Credential> {
    var d := Deleted(it);
    var (rp, user, sidecar) := PasskeyAccount(env, it, Same(d, ix.sidecars));
    if rp == "" || !env.isCredential(rp, rp) then creds
    else if AnyHit(env, creds, d, user, rp) then Mark(env, creds, d, user, rp)
    else
      var x := if sidecar.Some? then SlotOf(ix.extras, (d, sidecar.value.0, sidecar.value.1)) else NO_EXTRA;
      creds + [PasskeyRow(it, rp, user, x)]
  }

  function AddPasskeys(env: Env, ix: Index, creds: seq<Credential>, keys: seq<Item>): seq<Credential> {
    if keys == [] then creds
    else AddPasskey(env, ix, AddPasskeys(env, ix, creds, keys[..|keys| - 1]), keys[|keys| - 1])
  }

  function FromItems(env: Env, items: seq<Item>): seq<Credential> {
    var all := StripAll(items);
    var rest := Passkeys(env, all, false);
    var ix := IndexAll(env, PasswordKeys(rest), rest);
    AddPasskeys(env, ix, Logins(env, ix, rest), Passkeys(env, all, true))
  }

  // --- apart in every pass ---

  function KeysOf(d: bool, pw: set<Key>): set<Key> { set k | k in pw && k.0 == d }

  function StubsOn(d: bool, m: map<(bool, string), set<string>>): map<(bool, string), set<string>> {
    map k | k in m && k.0 == d :: m[k]
  }

  function ExtrasOn(d: bool, m: map<Key, Extra>): map<Key, Extra> {
    map k | k in m && k.0 == d :: m[k]
  }

  function IndexOf(d: bool, ix: Index): Index {
    Index(StubsOn(d, ix.stubs), ExtrasOn(d, ix.extras), Same(d, ix.sidecars))
  }

  lemma StubsApart(d: bool, m: map<(bool, string), set<string>>, k: (bool, string), v: set<string>)
    ensures StubsOn(d, m[k := v]) == if k.0 == d then StubsOn(d, m)[k := v] else StubsOn(d, m)
    ensures k.0 == d ==> StubsOf(StubsOn(d, m), k) == StubsOf(m, k)
  {
  }

  lemma ExtrasApart(d: bool, m: map<Key, Extra>, k: Key, v: Extra)
    ensures ExtrasOn(d, m[k := v]) == if k.0 == d then ExtrasOn(d, m)[k := v] else ExtrasOn(d, m)
    ensures k.0 == d ==> SlotOf(ExtrasOn(d, m), k) == SlotOf(m, k)
  {
  }

  lemma {:induction false} OnlyStrips(d: bool, items: seq<Item>)
    ensures Only(d, StripAll(items)) == StripAll(Only(d, items))
  {
    if items == [] {
      assert StripAll(items) == [] && StripAll([]) == [];
    } else {
      var m := |items| - 1;
      OnlyStrips(d, items[..m]);
      assert StripAll(items)[..m] == StripAll(items[..m]);
      assert StripAll(Only(d, items[..m]) + [items[m]]) == StripAll(Only(d, items[..m])) + [Strip(items[m])];
      assert Only(d, items[..m]) + [] == Only(d, items[..m]);
    }
  }

  lemma {:induction false} OnlySplits(env: Env, d: bool, items: seq<Item>, yes: bool)
    ensures Only(d, Passkeys(env, items, yes)) == Passkeys(env, Only(d, items), yes)
  {
    hide IsPasskey, Deleted;
    if items != [] {
      var m := |items| - 1;
      var it := items[m];
      OnlySplits(env, d, items[..m], yes);
      OnlySnoc(d, Passkeys(env, items[..m], yes), it);
      PasskeysSnoc(env, Only(d, items[..m]), it, yes);
      assert Passkeys(env, items[..m], yes) + [] == Passkeys(env, items[..m], yes);
      assert Only(d, items[..m]) + [] == Only(d, items[..m]);
    }
  }

  lemma OnlySnoc(d: bool, items: seq<Item>, it: Item)
    ensures Only(d, items + [it]) == Only(d, items) + if Deleted(it) == d then [it] else []
  {
  }

  lemma PasskeysSnoc(env: Env, items: seq<Item>, it: Item, yes: bool)
    ensures Passkeys(env, items + [it], yes) == Passkeys(env, items, yes) + if IsPasskey(env, it) == yes then [it] else []
  {
  }

  lemma {:induction false} OnlyHas(d: bool, items: seq<Item>, it: Item)
    ensures it in Only(d, items) <==> it in items && Deleted(it) == d
  {
    if items != [] {
      var m := |items| - 1;
      assert items == items[..m] + [items[m]];
      OnlyHas(d, items[..m], it);
    }
  }

  lemma PasswordKeysApart(d: bool, rest: seq<Item>)
    ensures PasswordKeys(Only(d, rest)) == KeysOf(d, PasswordKeys(rest))
  {
    forall k ensures k in PasswordKeys(Only(d, rest)) <==> k in KeysOf(d, PasswordKeys(rest)) {
      if k in PasswordKeys(Only(d, rest)) {
        var it :| it in Only(d, rest) && !it.data.Blob? && KeyOf(it) == k;
        OnlyHas(d, rest, it);
      }
      if k in KeysOf(d, PasswordKeys(rest)) {
        var it :| it in rest && !it.data.Blob? && KeyOf(it) == k;
        OnlyHas(d, rest, it);
      }
    }
  }

  lemma SameSnoc(d: bool, s: seq<Sidecar>, sc: Sidecar)
    ensures Same(d, s + [sc]) == Same(d, s) + if sc.deleted == d then [sc] else []
  {
  }

  lemma {:induction false} SameTwice(d: bool, s: seq<Sidecar>)
    ensures Same(d, Same(d, s)) == Same(d, s)
  {
    if s != [] {
      var m := |s| - 1;
      SameTwice(d, s[..m]);
      SameSnoc(d, Same(d, s[..m]), s[m]);
      assert Same(d, s[..m]) + [] == Same(d, s[..m]);
    }
  }

  /** Indexing one item moves the part of its own flag as if the other part were not there. */
  lemma IndexItemApart(env: Env, d: bool, pw: set<Key>, ix: Index, it: Item)
    ensures IndexOf(d, IndexItem(env, pw, ix, it))
            == if Deleted(it) == d then IndexItem(env, KeysOf(d, pw), IndexOf(d, ix), it) else IndexOf(d, ix)
  {
    hide Deleted, Fill, Says, StubsOn, ExtrasOn, StubsOf, SlotOf, KeysOf;
    if it.data.Blob? && it.data.meta.Some? {
      var m, k, s := it.data.meta.value, KeyOf(it), (Deleted(it), it.account);
      SameSnoc(d, ix.sidecars, Sidecar(k.0, k.1, k.2, m));
      assert Same(d, ix.sidecars) + [] == Same(d, ix.sidecars);
      StubsApart(d, ix.stubs, s, StubsOf(ix.stubs, s) + {it.site});
      ExtrasApart(d, ix.extras, k, Fill(SlotOf(ix.extras, k), m));
      StubFlag(env, d, pw, it);
    }
  }

  lemma StubFlag(env: Env, d: bool, pw: set<Key>, it: Item)
    ensures Deleted(it) == d ==> (IsStub(env, pw, it) <==> IsStub(env, KeysOf(d, pw), it))
  {
  }

  lemma {:induction false} IndexApart(env: Env, d: bool, pw: set<Key>, rest: seq<Item>)
    ensures IndexOf(d, IndexAll(env, pw, rest)) == IndexAll(env, KeysOf(d, pw), Only(d, rest))
  {
    hide IndexItem, Deleted;
    if rest == [] {
      assert IndexOf(d, Index(map[], map[], [])) == Index(map[], map[], []);
    } else {
      var m := |rest| - 1;
      IndexApart(env, d, pw, rest[..m]);
      IndexItemApart(env, d, pw, IndexAll(env, pw, rest[..m]), rest[m]);
      assert (Only(d, rest[..m]) + [rest[m]])[..|Only(d, rest[..m])|] == Only(d, rest[..m]);
      assert Only(d, rest[..m]) + [] == Only(d, rest[..m]);
    }
  }

  lemma LoginApart(env: Env, ix: Index, it: Item)
    ensures Login(env, ix, it) == Login(env, IndexOf(Deleted(it), ix), it)
  {
  }

  lemma OfSnoc(d: bool, creds: seq<Credential>, c: Credential)
    ensures Of(d, creds + [c]) == Of(d, creds) + if c.deleted == d then [c] else []
  {
  }

  lemma LoginsSnoc(env: Env, ix: Index, rest: seq<Item>, it: Item)
    ensures Logins(env, ix, rest + [it]) == Logins(env, ix, rest) + if Kept(env, it) then [Login(env, ix, it)] else []
  {
  }

  lemma {:induction false} LoginsApart(env: Env, d: bool, ix: Index, rest: seq<Item>)
    ensures Of(d, Logins(env, ix, rest)) == Logins(env, IndexOf(d, ix), Only(d, rest))
  {
    hide Login, Kept, Deleted, IndexOf;
    if rest != [] {
      var m := |rest| - 1;
      var it := rest[m];
      LoginsApart(env, d, ix, rest[..m]);
      LoginApart(env, ix, it);
      LoginFlag(env, ix, it);
      OfSnoc(d, Logins(env, ix, rest[..m]), Login(env, ix, it));
      LoginsSnoc(env, IndexOf(d, ix), Only(d, rest[..m]), it);
      assert Logins(env, ix, rest[..m]) + [] == Logins(env, ix, rest[..m]);
      assert Only(d, rest[..m]) + [] == Only(d, rest[..m]);
    }
  }

  lemma LoginFlag(env: Env, ix: Index, it: Item)
    ensures Login(env, ix, it).deleted == Deleted(it)
  {
  }

  lemma {:induction false} MarkApart(env: Env, d: bool, creds: seq<Credential>, e: bool, user: string, rp: string)
    ensures Of(d, Mark(env, creds, e, user, rp)) == if d == e then Mark(env, Of(d, creds), e, user, rp) else Of(d, creds)
  {
    if creds != [] {
      var m := |creds| - 1;
      var c := creds[m];
      MarkApart(env, d, creds[..m], e, user, rp);
      var c' := if Hit(env, c, e, user, rp) then c.(hasPasskey := true) else c;
      OfSnoc(d, Mark(env, creds[..m], e, user, rp), c');
      assert (Of(d, creds[..m]) + [c])[..|Of(d, creds[..m])|] == Of(d, creds[..m]);
      assert Of(d, creds[..m]) + [] == Of(d, creds[..m]);
    }
  }

  lemma AnyHitApart(env: Env, d: bool, creds: seq<Credential>, user: string, rp: string)
    ensures AnyHit(env, creds, d, user, rp) == AnyHit(env, Of(d, creds), d, user, rp)
  {
  }

  lemma PasskeyApart(env: Env, d: bool, ix: Index, creds: seq<Credential>, it: Item)
    ensures Of(d, AddPasskey(env, ix, creds, it))
            == if Deleted(it) == d then AddPasskey(env, IndexOf(d, ix), Of(d, creds), it) else Of(d, creds)
  {
    hide Deleted, PasskeyAccount, Hit, AnyHit, Mark, Of;
    var e := Deleted(it);
    SameTwice(d, ix.sidecars);
    var (rp, user, sidecar) := PasskeyAccount(env, it, Same(e, ix.sidecars));
    MarkApart(env, d, creds, e, user, rp);
    AnyHitApart(env, e, creds, user, rp);
    var k := if sidecar.Some? then (e, sidecar.value.0, sidecar.value.1) else (e, "", "");
    ExtrasApart(d, ix.extras, k, NO_EXTRA);
    var x := if sidecar.Some? then SlotOf(ix.extras, k) else NO_EXTRA;
    OfSnoc(d, creds, PasskeyRow(it, rp, user, x));
    assert Of(d, creds) + [] == Of(d, creds);
  }

  lemma {:induction false} PasskeysApart(env: Env, d: bool, ix: Index, creds: seq<Credential>, keys: seq<Item>)
    ensures Of(d, AddPasskeys(env, ix, creds, keys)) == AddPasskeys(env, IndexOf(d, ix), Of(d, creds), Only(d, keys))
  {
    hide Deleted, AddPasskey, Of, IndexOf;
    if keys != [] {
      var m := |keys| - 1;
      PasskeysApart(env, d, ix, creds, keys[..m]);
      PasskeyApart(env, d, ix, AddPasskeys(env, ix, creds, keys[..m]), keys[m]);
      assert (Only(d, keys[..m]) + [keys[m]])[..|Only(d, keys[..m])|] == Only(d, keys[..m]);
      assert Only(d, keys[..m]) + [] == Only(d, keys[..m]);
    }
  }

  /** For every list of items: the live credentials are those of the live items alone, in order and in
      every field, and the deleted ones those of the deleted items alone. */
  lemma DeletedStaysApart(env: Env, items: seq<Item>, d: bool)
    ensures Of(d, FromItems(env, items)) == FromItems(env, Only(d, items))
  {
    hide Of, Only, Passkeys, IndexAll, Logins, AddPasskeys, IndexOf, PasswordKeys, KeysOf, StripAll;
    var all := StripAll(items);
    var rest, keys := Passkeys(env, all, false), Passkeys(env, all, true);
    var pw := PasswordKeys(rest);
    var ix := IndexAll(env, pw, rest);
    OnlyStrips(d, items);
    OnlySplits(env, d, all, false);
    OnlySplits(env, d, all, true);
    PasswordKeysApart(d, rest);
    IndexApart(env, d, pw, rest);
    LoginsApart(env, d, ix, rest);
    PasskeysApart(env, d, ix, Logins(env, ix, rest), keys);
  }

  // --- what a passkey does to the logins ---

  /** This passkey item names this login's account. */
  predicate Claims(env: Env, ix: Index, it: Item, c: Credential) {
    var (rp, user, _) := PasskeyAccount(env, it, Same(Deleted(it), ix.sidecars));
    rp != "" && env.isCredential(rp, rp) && Hit(env, c, Deleted(it), user, rp)
  }

  predicate Claimed(env: Env, ix: Index, keys: seq<Item>, c: Credential) {
    exists i :: 0 <= i < |keys| && Claims(env, ix, keys[i], c)
  }

  lemma {:induction false} MarkAt(env: Env, creds: seq<Credential>, d: bool, user: string, rp: string)
    ensures |Mark(env, creds, d, user, rp)| == |creds|
    ensures forall i :: 0 <= i < |creds| ==>
      Mark(env, creds, d, user, rp)[i] == if Hit(env, creds[i], d, user, rp) then creds[i].(hasPasskey := true) else creds[i]
  {
    if creds != [] {
      MarkAt(env, creds[..|creds| - 1], d, user, rp);
    }
  }

  /** One passkey: the logins keep their places and their fields, and those it names have the flag. */
  lemma AddedAt(env: Env, ix: Index, creds: seq<Credential>, it: Item, i: nat)
    requires i < |creds|
    ensures var out := AddPasskey(env, ix, creds, it);
      |creds| <= |out| && out[i] == if Claims(env, ix, it, creds[i]) then creds[i].(hasPasskey := true) else creds[i]
    ensures forall j :: |creds| <= j < |AddPasskey(env, ix, creds, it)| ==> AddPasskey(env, ix, creds, it)[j].passkeyOnly
  {
    hide PasskeyAccount, Hit;
    var (rp, user, _) := PasskeyAccount(env, it, Same(Deleted(it), ix.sidecars));
    MarkAt(env, creds, Deleted(it), user, rp);
    assert creds[i] in creds;
  }

  lemma ClaimsKeeps(env: Env, ix: Index, it: Item, c: Credential)
    ensures Claims(env, ix, it, c.(hasPasskey := true)) == Claims(env, ix, it, c)
  {
  }

  lemma ClaimedSnoc(env: Env, ix: Index, keys: seq<Item>, it: Item, c: Credential)
    ensures Claimed(env, ix, keys + [it], c) == (Claimed(env, ix, keys, c) || Claims(env, ix, it, c))
  {
    hide Claims;
    var all := keys + [it];
    assert all[|keys|] == it && forall i :: 0 <= i < |keys| ==> all[i] == keys[i];
  }

  /** The logins come first, in their order and with every field they had; a login has the passkey flag
      exactly when some passkey item names its account; everything after them is a passkey-only row. */
  lemma {:induction false} PasskeyFlagExactly(env: Env, ix: Index, creds: seq<Credential>, keys: seq<Item>, i: nat)
    requires i < |creds|
    ensures var out := AddPasskeys(env, ix, creds, keys);
      |creds| <= |out| && out[i] == if Claimed(env, ix, keys, creds[i]) then creds[i].(hasPasskey := true) else creds[i]
    ensures forall j :: |creds| <= j < |AddPasskeys(env, ix, creds, keys)| ==> AddPasskeys(env, ix, creds, keys)[j].passkeyOnly
  {
    hide AddPasskey, Claims;
    if keys != [] {
      var m := |keys| - 1;
      var before := AddPasskeys(env, ix, creds, keys[..m]);
      PasskeyFlagExactly(env, ix, creds, keys[..m], i);
      AddedAt(env, ix, before, keys[m], i);
      ClaimsKeeps(env, ix, keys[m], creds[i]);
      assert keys == keys[..m] + [keys[m]];
      ClaimedSnoc(env, ix, keys[..m], keys[m], creds[i]);
      forall j | |creds| <= j < |AddPasskey(env, ix, before, keys[m])|
        ensures AddPasskey(env, ix, before, keys[m])[j].passkeyOnly
      {
        if j < |before| {
          AddedAt(env, ix, before, keys[m], j);
        }
      }
    }
  }

  /** The private key in a class `keys` item is never read: lists that differ in nothing else give the
      same credentials. */
  lemma PrivateKeyNeverRead(env: Env, a: seq<Item>, b: seq<Item>)
    requires |a| == |b|
    requires forall i :: 0 <= i < |a| ==> a[i] == b[i] || (a[i].class_ == "keys" && b[i] == a[i].(data := b[i].data))
    ensures FromItems(env, a) == FromItems(env, b)
  {
    assert StripAll(a) == StripAll(b);
  }

  // --- the passes as they run ---

  method IndexLoop(env: Env, rest: seq<Item>) returns (ix: Index)
    ensures ix == IndexAll(env, PasswordKeys(rest), rest)
  {
    hide IsStub, Says, Fill;
    var pw: set<Key> := {};
    for i := 0 to |rest|
      invariant pw == PasswordKeys(rest[..i])
    {
      assert rest[..i + 1] == rest[..i] + [rest[i]];
      if !rest[i].data.Blob? {
        pw := pw + {KeyOf(rest[i])};
      }
    }
    assert rest[..|rest|] == rest;
    var stubs, extras, sidecars := map[], map[], [];
    for i := 0 to |rest|
      invariant Index(stubs, extras, sidecars) == IndexAll(env, pw, rest[..i])
    {
      assert rest[..i + 1][..i] == rest[..i];
      var it := rest[i];
      if it.data.Blob? && it.data.meta.Some? {
        var m, rk := it.data.meta.value, KeyOf(it);
        sidecars := sidecars + [Sidecar(rk.0, rk.1, rk.2, m)];
        if IsStub(env, pw, it) {
          stubs := stubs[(rk.0, rk.2) := StubsOf(stubs, (rk.0, rk.2)) + {rk.1}];
        }
        if Says(m) {
          extras := extras[rk := Fill(SlotOf(extras, rk), m)];
        }
      }
    }
    ix := Index(stubs, extras, sidecars);
  }

  method LoginsLoop(env: Env, ix: Index, rest: seq<Item>) returns (creds: seq<Credential>)
    ensures creds == Logins(env, ix, rest)
  {
    hide Kept, Login;
    creds := [];
    for i := 0 to |rest|
      invariant creds == Logins(env, ix, rest[..i])
    {
      assert rest[..i + 1][..i] == rest[..i];
      if Kept(env, rest[i]) {
        creds := creds + [Login(env, ix, rest[i])];
      }
    }
    assert rest[..|rest|] == rest;
  }

  method PasskeysLoop(env: Env, ix: Index, logins: seq<Credential>, keys: seq<Item>) returns (creds: seq<Credential>)
    ensures creds == AddPasskeys(env, ix, logins, keys)
  {
    hide PasskeyAccount, AnyHit, Mark;
    creds := logins;
    for i := 0 to |keys|
      invariant creds == AddPasskeys(env, ix, logins, keys[..i])
    {
      assert keys[..i + 1][..i] == keys[..i];
      var it := keys[i];
      var (rp, user, sidecar) := PasskeyAccount(env, it, Same(Deleted(it), ix.sidecars));
      if rp != "" && env.isCredential(rp, rp) {
        var marked, hits := MarkHits(env, creds, Deleted(it), user, rp);
        creds := marked;
        if !hits {
          var x := if sidecar.Some? then SlotOf(ix.extras, (Deleted(it), sidecar.value.0, sidecar.value.1)) else NO_EXTRA;
          creds := creds + [PasskeyRow(it, rp, user, x)];
        }
      }
    }
    assert keys[..|keys|] == keys;
  }

  lemma NoHit(env: Env, d: bool, user: string, rp: string)
    ensures !AnyHit(env, [], d, user, rp)
  {
  }

  lemma HitSnoc(env: Env, creds: seq<Credential>, c: Credential, d: bool, user: string, rp: string)
    ensures AnyHit(env, creds + [c], d, user, rp) == (AnyHit(env, creds, d, user, rp) || Hit(env, c, d, user, rp))
  {
  }

  lemma MarkSnoc(env: Env, creds: seq<Credential>, c: Credential, d: bool, user: string, rp: string)
    ensures Mark(env, creds + [c], d, user, rp)
            == Mark(env, creds, d, user, rp) + [if Hit(env, c, d, user, rp) then c.(hasPasskey := true) else c]
  {
    assert (creds + [c])[..|creds|] == creds;
  }

  method MarkHits(env: Env, creds: seq<Credential>, d: bool, user: string, rp: string)
    returns (marked: seq<Credential>, hits: bool)
    ensures hits == AnyHit(env, creds, d, user, rp)
    ensures marked == if hits then Mark(env, creds, d, user, rp) else creds
  {
    hide Hit, AnyHit, Mark;
    marked, hits := [], false;
    MarkAt(env, [], d, user, rp);
    assert !AnyHit(env, [], d, user, rp) by { NoHit(env, d, user, rp); }
    for i := 0 to |creds|
      invariant hits == AnyHit(env, creds[..i], d, user, rp)
      invariant marked == Mark(env, creds[..i], d, user, rp) && (!hits ==> marked == creds[..i])
    {
      assert creds[..i + 1][..i] == creds[..i] && creds[..i + 1] == creds[..i] + [creds[i]];
      HitSnoc(env, creds[..i], creds[i], d, user, rp);
      MarkSnoc(env, creds[..i], creds[i], d, user, rp);
      if Hit(env, creds[i], d, user, rp) {
        marked := marked + [creds[i].(hasPasskey := true)];
        hits := true;
      } else {
        marked := marked + [creds[i]];
      }
    }
    assert creds[..|creds|] == creds;
  }

  /** The whole build: strip in place, split, index, logins, passkeys. */
  method BuildStore(env: Env, items: array<Item>) returns (creds: seq<Credential>)
    modifies items
    ensures items[..] == StripAll(old(items[..])) && creds == FromItems(env, old(items[..]))
  {
    StripInPlace(items);
    var passkeys, rest: seq<Item> := [], [];
    for i := 0 to items.Length
      invariant items[..] == StripAll(old(items[..]))
      invariant passkeys == Passkeys(env, items[..i], true) && rest == Passkeys(env, items[..i], false)
    {
      assert items[..i + 1][..i] == items[..i];
      if IsPasskey(env, items[i]) {
        passkeys := passkeys + [items[i]];
      } else {
        rest := rest + [items[i]];
      }
    }
    assert items[..items.Length] == items[..];
    var ix := IndexLoop(env, rest);
    creds := LoginsLoop(env, ix, rest);
    creds := PasskeysLoop(env, ix, creds, passkeys);
  }
}
