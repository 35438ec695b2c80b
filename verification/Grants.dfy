/** Per-entry grants: one account at a time, for a while or for one use. */
module Grants {
  import opened Wrappers

  type Id = string

  /** `serial` tells one put from another; it is the number of puts before it. */
  datatype Grant = Grant(id: Id, serial: nat, single: bool, expires: real, used: bool)

  datatype Fault = NoGrant | GrantExpired

  datatype Put = Put(uid: nat, id: Id, single: bool, expires: real)

  datatype Spent = Spent(serial: nat, uid: nat, id: Id, at: real)

  /** `puts` and `uses` are the history the daemon does not keep. */
  datatype State = State(grants: map<nat, Grant>, lastEnded: map<nat, Id>, puts: seq<Put>, uses: seq<Spent>)

  const START := State(map[], map[], [], [])

  function DropGrant(s: State, uid: nat): State {
    s.(grants := s.grants - {uid}, lastEnded := s.lastEnded - {uid})
  }

  function EndGrant(s: State, uid: nat): State {
    if uid in s.grants then s.(grants := s.grants - {uid}, lastEnded := s.lastEnded[uid := s.grants[uid].id]) else s
  }

  /** A new grant replaces the uid's old one; no seconds means one use. */
  function PutGrant(s: State, uid: nat, id: Id, seconds: int, now: real): State {
    var single, expires := seconds <= 0, now + seconds as real;
    DropGrant(s, uid).(grants := s.grants[uid := Grant(id, |s.puts|, single, expires, false)],
                       puts := s.puts + [Put(uid, id, single, expires)])
  }

  predicate RanOut(g: Grant, now: real) { !g.single && now >= g.expires }

  /** The live grant on exactly `id`; one past its time is ended first. */
  function Check(s: State, uid: nat, id: Id, now: real): (State, Result<Grant, Fault>) {
    var s1 := if uid in s.grants && RanOut(s.grants[uid], now) then EndGrant(s, uid) else s;
    if uid !in s1.grants then
      (s1, Err(if uid in s1.lastEnded && s1.lastEnded[uid] == id then GrantExpired else NoGrant))
    else if s1.grants[uid].id != id || s1.grants[uid].used then (s1, Err(NoGrant))
    else (s1, Ok(s1.grants[uid]))
  }

  /** check, then a single-use grant is spent; the flag says that the caller must end it. */
  function Use(s: State, uid: nat, id: Id, now: real): (State, Result<(Grant, bool), Fault>) {
    var (s1, g) := Check(s, uid, id, now);
    if g.Err? then (s1, Err(g.error))
    else
      var g1 := if g.value.single then g.value.(used := true) else g.value;
      (s1.(grants := s1.grants[uid := g1], uses := s1.uses + [Spent(g1.serial, uid, id, now)]), Ok((g1, g1.single)))
  }

  // --- runs ---

  datatype Event =
    | EvPut(uid: nat, id: Id, seconds: int, at: real)
    | EvCheck(uid: nat, id: Id, at: real)
    | EvUse(uid: nat, id: Id, at: real)
    | EvEnd(uid: nat)
    | EvDrop(uid: nat)

  function Step(s: State, ev: Event): State {
    match ev
    case EvPut(uid, id, seconds, at) => PutGrant(s, uid, id, seconds, at)
    case EvCheck(uid, id, at) => Check(s, uid, id, at).0
    case EvUse(uid, id, at) => Use(s, uid, id, at).0
    case EvEnd(uid) => EndGrant(s, uid)
    case EvDrop(uid) => DropGrant(s, uid)
  }

  function After(s: State, events: seq<Event>): State {
    if events == [] then s else Step(After(s, events[..|events| - 1]), events[|events| - 1])
  }

  /** A grant is the one its put made, and no two uids hold the same. */
  ghost predicate Made(s: State) {
    && (forall uid :: uid in s.grants ==>
          var g := s.grants[uid];
          g.serial < |s.puts| && s.puts[g.serial] == Put(uid, g.id, g.single, g.expires))
  }

  /** A spent grant was used; a single-use one that is not spent was not. */
  ghost predicate Marked(s: State) {
    forall uid, i :: uid in s.grants && 0 <= i < |s.uses| && s.uses[i].serial == s.grants[uid].serial
      ==> s.grants[uid].single ==> s.grants[uid].used
  }

  /** What a use must have been. */
  predicate Proper(puts: seq<Put>, u: Spent) {
    && u.serial < |puts| && puts[u.serial].uid == u.uid && puts[u.serial].id == u.id
    && (!puts[u.serial].single ==> u.at < puts[u.serial].expires)
  }

  /** Uses of one single-use grant are one use. */
  ghost predicate Fair(s: State) {
    && (forall i :: 0 <= i < |s.uses| ==> Proper(s.puts, s.uses[i]))
    && forall i, j :: 0 <= i < j < |s.uses| && s.uses[i].serial == s.uses[j].serial ==> !s.puts[s.uses[i].serial].single
  }

  ghost predicate Inv(s: State) { Made(s) && Marked(s) && Fair(s) }

  lemma PutKeeps(s: State, uid: nat, id: Id, seconds: int, now: real)
    requires Inv(s)
    ensures Inv(PutGrant(s, uid, id, seconds, now))
  {
  }

  lemma EndKeeps(s: State, uid: nat)
    requires Inv(s)
    ensures Inv(EndGrant(s, uid)) && Inv(DropGrant(s, uid))
  {
  }

  lemma CheckKeeps(s: State, uid: nat, id: Id, now: real)
    requires Inv(s)
    ensures Inv(Check(s, uid, id, now).0)
  {
  }

  lemma UseKeeps(s: State, uid: nat, id: Id, now: real)
    requires Inv(s)
    ensures Inv(Use(s, uid, id, now).0)
  {
    hide Inv;
    CheckKeeps(s, uid, id, now);
    if Check(s, uid, id, now).1.Ok? {
      SpendKeeps(Check(s, uid, id, now).0, uid, now);
    }
  }

  lemma SpendKeeps(s: State, uid: nat, now: real)
    requires Inv(s) && uid in s.grants && !s.grants[uid].used && !RanOut(s.grants[uid], now)
    ensures var g := s.grants[uid];
      Inv(s.(grants := s.grants[uid := if g.single then g.(used := true) else g],
             uses := s.uses + [Spent(g.serial, uid, g.id, now)]))
  {
  }

  lemma {:induction false} RunKeeps(events: seq<Event>)
    ensures Inv(After(START, events))
  {
    hide Inv, Check, Use, PutGrant, EndGrant, DropGrant;
    if events == [] {
      StartKeeps();
    } else {
      var s, ev := After(START, events[..|events| - 1]), events[|events| - 1];
      RunKeeps(events[..|events| - 1]);
      match ev
      case EvPut(uid, id, seconds, at) => PutKeeps(s, uid, id, seconds, at);
      case EvCheck(uid, id, at) => CheckKeeps(s, uid, id, at);
      case EvUse(uid, id, at) => UseKeeps(s, uid, id, at);
      case EvEnd(uid) => EndKeeps(s, uid);
      case EvDrop(uid) => EndKeeps(s, uid);
    }
  }

  lemma StartKeeps()
    ensures Inv(START)
  {
  }

  /** In every run: a use is of the grant put for that uid and that account, before it runs out, and a
      single-use grant is used once at most. */
  lemma GrantsAreUsedFairly(events: seq<Event>)
    ensures var s := After(START, events);
      && (forall i :: 0 <= i < |s.uses| ==> Proper(s.puts, s.uses[i]))
      && forall i, j :: 0 <= i < j < |s.uses| && s.uses[i].serial == s.uses[j].serial ==> !s.puts[s.uses[i].serial].single
  {
    hide After, Proper;
    RunKeeps(events);
  }

  /** A grant held at the end of a stretch without a put for its uid was held at its beginning: releasing,
      ending and every lock take it away for good. */
  lemma {:induction false} OnlyPutsGive(s: State, events: seq<Event>, uid: nat)
    requires uid in After(s, events).grants
    requires forall i :: 0 <= i < |events| ==> !(events[i].EvPut? && events[i].uid == uid)
    ensures uid in s.grants && s.grants[uid].serial == After(s, events).grants[uid].serial
    decreases |events|
  {
    if events != [] {
      var m := |events| - 1;
      assert !(events[m].EvPut? && events[m].uid == uid);
      OnlyPutsGive(s, events[..m], uid);
    }
  }

  predicate Quiet(events: seq<Event>, uid: nat, dropsToo: bool) {
    forall i :: 0 <= i < |events| ==>
      !(events[i].EvPut? && events[i].uid == uid) && (dropsToo ==> !(events[i].EvDrop? && events[i].uid == uid))
  }

  /** After a lock every use for that uid hears no-grant, until a new grant is put. */
  lemma {:induction false} NothingAfterDrop(s: State, events: seq<Event>, uid: nat, id: Id, now: real)
    requires Quiet(events, uid, false)
    ensures var e := After(DropGrant(s, uid), events);
      uid !in e.grants && uid !in e.lastEnded && Use(e, uid, id, now).1 == Err(NoGrant)
  {
    if events != [] {
      var m := |events| - 1;
      assert !(events[m].EvPut? && events[m].uid == uid);
      NothingAfterDrop(s, events[..m], uid, id, now);
    }
  }

  /** A grant that ran out is told as expired, then and at every later try, until a new grant is put or
      the memory is dropped; on any other account it was never a grant. */
  lemma {:induction false} ExpiredIsTold(s: State, events: seq<Event>, uid: nat, id: Id, at: real, now: real)
    requires uid in s.grants && RanOut(s.grants[uid], at) && Quiet(events, uid, true)
    ensures var e := After(Check(s, uid, id, at).0, events); var was := s.grants[uid].id;
      && uid !in e.grants && uid in e.lastEnded && e.lastEnded[uid] == was
      && Use(e, uid, id, now).1 == Err(if id == was then GrantExpired else NoGrant)
  {
    if events != [] {
      var m := |events| - 1;
      assert !(events[m].EvPut? && events[m].uid == uid) && !(events[m].EvDrop? && events[m].uid == uid);
      ExpiredIsTold(s, events[..m], uid, id, at, now);
    }
  }

  /** Nothing after the put takes the grant away on purpose, and the clock does not pass `at`. */
  predicate Undisturbed(events: seq<Event>, uid: nat, at: real) {
    forall i :: 0 <= i < |events| ==>
      match events[i]
      case EvPut(u, _, _, _) => u != uid
      case EvCheck(u, _, now) => u == uid ==> now <= at
      case EvUse(u, _, now) => u == uid ==> now <= at
      case EvEnd(u) => u != uid
      case EvDrop(u) => u != uid
  }

  lemma UndisturbedPrefix(events: seq<Event>, uid: nat, at: real)
    requires events != [] && Undisturbed(events, uid, at)
    ensures var m := |events| - 1; Undisturbed(events[..m], uid, at) && Undisturbed([events[m]], uid, at)
  {
  }

  /** The grant of this put is held, or it was ended when its time was up. */
  predicate HeldOrOver(s: State, uid: nat, g: Grant, at: real) {
    if uid in s.grants then s.grants[uid] == g else at >= g.expires && uid in s.lastEnded && s.lastEnded[uid] == g.id
  }

  lemma {:induction false} TimedStays(s: State, uid: nat, id: Id, seconds: int, t: real, events: seq<Event>, at: real)
    requires seconds > 0 && Undisturbed(events, uid, at)
    ensures HeldOrOver(After(PutGrant(s, uid, id, seconds, t), events), uid,
                       Grant(id, |s.puts|, false, t + seconds as real, false), at)
  {
    if events != [] {
      var m := |events| - 1;
      UndisturbedPrefix(events, uid, at);
      TimedStays(s, uid, id, seconds, t, events[..m], at);
      assert events[m] == [events[m]][0];
    }
  }

  /** A grant of some seconds answers its account exactly until they are over, then as expired, however
      often it is asked; any other account has no grant. */
  lemma LivesItsTime(s: State, uid: nat, id: Id, seconds: int, t: real, events: seq<Event>, other: Id, at: real)
    requires seconds > 0 && Undisturbed(events, uid, at)
    ensures var e, g := After(PutGrant(s, uid, id, seconds, t), events), Grant(id, |s.puts|, false, t + seconds as real, false);
      && Check(e, uid, id, at).1 == (if at < t + seconds as real then Ok(g) else Err(GrantExpired))
      && Use(e, uid, id, at).1 == (if at < t + seconds as real then Ok((g, false)) else Err(GrantExpired))
      && (other != id ==> Check(e, uid, other, at).1 == Err(NoGrant) && Use(e, uid, other, at).1 == Err(NoGrant))
  {
    hide After;
    TimedStays(s, uid, id, seconds, t, events, at);
  }

  predicate UsedIn(events: seq<Event>, uid: nat, id: Id) {
    exists i :: 0 <= i < |events| && events[i].EvUse? && events[i].uid == uid && events[i].id == id
  }

  lemma UsedSnoc(events: seq<Event>, uid: nat, id: Id)
    requires events != []
    ensures var m := |events| - 1;
      UsedIn(events, uid, id) <==> UsedIn(events[..m], uid, id) || (events[m].EvUse? && events[m].uid == uid && events[m].id == id)
  {
    var m := |events| - 1;
    assert forall i :: 0 <= i < m ==> events[..m][i] == events[i];
  }

  /** A grant without a time answers its account until it is used, and is used once. */
  lemma {:induction false} UsedOnce(s: State, uid: nat, id: Id, seconds: int, t: real, events: seq<Event>, at: real)
    requires seconds <= 0 && Undisturbed(events, uid, at)
    ensures var e := After(PutGrant(s, uid, id, seconds, t), events); var used := UsedIn(events, uid, id);
      var g := Grant(id, |s.puts|, true, t + seconds as real, used);
      && uid in e.grants && e.grants[uid] == g
      && Check(e, uid, id, at).1 == (if used then Err(NoGrant) else Ok(g))
      && Use(e, uid, id, at).1 == (if used then Err(NoGrant) else Ok((g.(used := true), true)))
  {
    if events != [] {
      var m := |events| - 1;
      UndisturbedPrefix(events, uid, at);
      UsedSnoc(events, uid, id);
      UsedOnce(s, uid, id, seconds, t, events[..m], at);
      assert events[m] == [events[m]][0];
    }
  }

  // --- the table as the daemon has it ---

  /** The source tells grants apart by object; here `made` numbers them. */
  class GrantTable {
    var grants: map<nat, Grant>
    var lastEnded: map<nat, Id>
    ghost var puts: seq<Put>
    ghost var uses: seq<Spent>
    var made: nat

    ghost function Now(): State
      reads this
    {
      State(grants, lastEnded, puts, uses)
    }

    constructor ()
      ensures Now() == START && made == 0
    {
      grants, lastEnded, puts, uses, made := map[], map[], [], [], 0;
    }

    method PutNew(uid: nat, id: Id, seconds: int, now: real)
      requires made == |puts|
      modifies this
      ensures Now() == PutGrant(old(Now()), uid, id, seconds, now) && made == |puts|
    {
      ghost var was := Now();
      var dropped := DropIt(uid);
      var single, expires := seconds <= 0, now + seconds as real;
      grants := grants[uid := Grant(id, made, single, expires, false)];
      puts := puts + [Put(uid, id, single, expires)];
      made := made + 1;
    }

    method CheckIt(uid: nat, id: Id, now: real) returns (r: Result<Grant, Fault>)
      modifies this`grants, this`lastEnded
      ensures (Now(), r) == Check(old(Now()), uid, id, now)
    {
      if uid in grants && !grants[uid].single && now >= grants[uid].expires {
        var ended := EndIt(uid);
      }
      if uid !in grants || grants[uid].id != id || grants[uid].used {
        if uid !in grants && uid in lastEnded && lastEnded[uid] == id {
          return Err(GrantExpired);
        }
        return Err(NoGrant);
      }
      r := Ok(grants[uid]);
    }

    method UseIt(uid: nat, id: Id, now: real) returns (r: Result<(Grant, bool), Fault>)
      modifies this`grants, this`lastEnded, this`uses
      ensures (Now(), r) == Use(old(Now()), uid, id, now)
    {
      var g := CheckIt(uid, id, now);
      if g.Err? { return Err(g.error); }
      uses := uses + [Spent(g.value.serial, uid, id, now)];
      if g.value.single {
        grants := grants[uid := g.value.(used := true)];
        return Ok((grants[uid], true));
      }
      assert grants[uid := g.value] == grants;
      r := Ok((g.value, false));
    }

    method EndIt(uid: nat) returns (id: Option<Id>)
      modifies this`grants, this`lastEnded
      ensures Now() == EndGrant(old(Now()), uid)
      ensures id == if uid in old(grants) then Some(old(grants)[uid].id) else None
    {
      if uid !in grants { return None; }
      id := Some(grants[uid].id);
      lastEnded := lastEnded[uid := grants[uid].id];
      grants := grants - {uid};
    }

    method DropIt(uid: nat) returns (id: Option<Id>)
      modifies this`grants, this`lastEnded
      ensures Now() == DropGrant(old(Now()), uid)
      ensures id == if uid in old(grants) then Some(old(grants)[uid].id) else None
    {
      id := if uid in grants then Some(grants[uid].id) else None;
      lastEnded := lastEnded - {uid};
      grants := grants - {uid};
    }
  }
}
