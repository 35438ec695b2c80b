/** The other half of the lock protocol: what an approved op must open, grant or hand out, and when. */
module Openings {
  import opened Wrappers
  import opened Sessions

  // --- what a step opens, exactly -------------------------------------------------------------------

  predicate Resumed(s: State, ev: Event) { ev.EvResume? && s.running.Some? && s.running.value.done }

  /** The store call that ends is the last one of an op of `c` that opens tier 1; its own outcome counts
      only where the op needs a new store. */
  predicate Finishes(s: State, ev: Event, c: Conn) {
    && Resumed(s, ev)
    && match s.running.value.call.kont
       case TpmState(c', _) => c' == c
       case Replace(c', _, op) => c' == c && op == Signin && s.running.value.made.Some?
       case Settings(c', _, left, _) => c' == c && (left == 0 || !ev.ok)
       case _ => false
  }

  /** The same for the browser's unlock. */
  predicate FinishesNames(s: State, ev: Event, c: Conn) {
    Resumed(s, ev) && s.running.value.call.kont.Names? && s.running.value.call.kont.conn == c && s.running.value.unsealed
  }

  /** No lock since the op took its epoch. */
  predicate Current(s: State)
    requires s.running.Some? && !s.running.value.call.kont.Other?
  {
    s.running.value.call.kont.epoch == s.ss.epoch
  }

  /** A call that ends in the epoch of its op leaves nothing to wipe. */
  lemma ExitQuiet(s: State)
    requires Inv(s) && s.running.Some? && s.running.value.done && !s.running.value.call.kont.Other? && Current(s)
    ensures ExitCall(s, s.running.value) == s.(ss := s.ss.(replacing := false), running := None)
    ensures !s.ss.wipeAfter && KontOk(s, s.running.value.call.kont)
    ensures s.running.value.made.Some? ==> s.running.value.made.value < |s.objs|
  {
    Parts(s);
  }

  /** After any call that ends nothing is left to wipe, so a handler's next call is not refused. */
  lemma ExitSess(s: State)
    requires Inv(s) && s.running.Some? && s.running.value.done
    ensures var x := ExitCall(s, s.running.value);
      x.ss == s.ss.(wipeAfter := false, replacing := false) && x.running.None? && x.waiting == s.waiting
  {
    hide KeysOk;
    ExitKeeps(s);
  }

  function ResumeOk(r: Run, ok: bool): bool {
    if IsUnlock(r.call.kont) then r.unsealed else if r.call.kont.Replace? then r.made.Some? else ok
  }

  function ResumeMade(r: Run): nat { if r.made.Some? then r.made.value else 0 }

  lemma ResumeIs(s: State, ok: bool, token: nat)
    requires Enabled(s, EvResume(ok, token))
    ensures var r := s.running.value;
      Step(s, EvResume(ok, token)) == Continue(ExitCall(s, r), r.call.kont, ResumeOk(r, ok), ResumeMade(r), token)
  {
    hide ExitCall, Continue;
  }

  /** A request by a handler whose session owes no wipe changes neither what is open nor what is given. */
  lemma RequestIs(s: State, k: Kont, token: nat)
    requires !s.ss.wipeAfter
    ensures Request(s, k, token).ss == s.ss.(replacing := Request(s, k, token).ss.replacing)
  {
  }

  /** Whether the rest of a handler opens tier 1 or the browser's unlock for `c`, apart from the lock and
      the window. */
  predicate Opens(k: Kont, ok: bool, c: Conn) {
    match k
    case TpmState(c', _) => c' == c
    case Replace(c', _, op) => c' == c && op == Signin && ok
    case Settings(c', _, left, _) => c' == c && (left == 0 || !ok)
    case _ => false
  }

  predicate OpensNames(k: Kont, ok: bool, c: Conn) { k.Names? && k.conn == c && ok }

  /** Tier 1 may be open for `c`, or its op may open it. */
  predicate Seated(s: State, k: Kont, c: Conn) {
    !k.Other? && s.ss.epoch == k.epoch && c !in s.ss.closed && s.ss.ui == Some(c)
  }

  predicate Joined(s: State, k: Kont, c: Conn) { !k.Other? && s.ss.epoch == k.epoch && c !in s.ss.closed }

  lemma ContinueOpensExactly(x: State, k: Kont, ok: bool, made: nat, token: nat, c: Conn)
    requires !x.ss.wipeAfter && (k.TpmState? && k.epoch == x.ss.epoch && k.conn !in x.ss.closed ==> x.ss.ui == Some(k.conn))
    ensures var t := Continue(x, k, ok, made, token);
      && (Opens(k, ok, c) && Seated(x, k, c) ==> t.ss.tier1 == Some(c))
      && (t.ss.tier1 == Some(c) && x.ss.tier1 != Some(c) ==> Opens(k, ok, c) && Seated(x, k, c))
      && (OpensNames(k, ok, c) && Joined(x, k, c) ==> t.ss.autofill == Some(c))
      && (t.ss.autofill == Some(c) && x.ss.autofill != Some(c) ==> OpensNames(k, ok, c) && Joined(x, k, c))
  {
    hide Request, OwnLock;
    match k
    case Unlock(c', e) => RequestIs(x, TpmState(c', e), token);
    case SigninCheck(c', e) => RequestIs(x, Replace(c', e, Signin), token);
    case ResetCheck(c', e, left) =>
      if left > 0 { RequestIs(x, ResetCheck(c', e, left - 1), token); }
      OwnLockIs(x, c', AskReset);
      RequestOpensNothing(OwnLock(x, c', AskReset), Replace(c', x.ss.epoch + 1, Reset), token);
    case Replace(c', e, op) => RequestIs(x.(cur := made), Settings(c', e, 1, op), token);
    case Settings(c', e, left, op) => if left > 0 { RequestIs(x, Settings(c', e, left - 1, op), token); }
    case GrantMeta(c', e) => RequestIs(x.(ss := x.ss.(grant := None)), GrantOpen(c', e), token);
    case _ =>
  }

  lemma ResumeOpensExactly(s: State, ok: bool, token: nat, c: Conn)
    requires Inv(s) && Enabled(s, EvResume(ok, token))
    ensures var ev := EvResume(ok, token); var t := Step(s, ev);
      && (Finishes(s, ev, c) && Current(s) && c !in s.ss.closed && s.ss.ui == Some(c) ==> t.ss.tier1 == Some(c))
      && (t.ss.tier1 == Some(c) && s.ss.tier1 != Some(c) ==>
            Finishes(s, ev, c) && Current(s) && c !in s.ss.closed && s.ss.ui == Some(c))
      && (FinishesNames(s, ev, c) && Current(s) && c !in s.ss.closed ==> t.ss.autofill == Some(c))
      && (t.ss.autofill == Some(c) && s.ss.autofill != Some(c) ==>
            FinishesNames(s, ev, c) && Current(s) && c !in s.ss.closed)
  {
    var r := s.running.value;
    var x := ExitCall(s, r);
    Parts(s);
    ExitSess(s);
    ResumeIs(s, ok, token);
    hide ExitCall, Inv, RunOk, SessOk, Wiping, Step, Continue;
    ContinueOpensExactly(x, r.call.kont, ResumeOk(r, ok), ResumeMade(r), token, c);
  }

  /** Steps other than the end of a store call open nothing. */
  lemma OthersOpenNothing(s: State, ev: Event)
    requires Inv(s) && Enabled(s, ev) && !ev.EvResume?
    ensures OpensNothing(s, Step(s, ev))
  {
    hide Inv, Step;
    if Quiet(ev) { QuietStep(s, ev); }
    else if ev.EvGrant? || ev.EvCopy? || ev.EvOther? { CallStep(s, ev); }
    else if ev.EvAcquire? { AcquireStep(s, ev.token); }
    else if ev.EvApprove? { StepApprove(s, ev); ApproveStep(s, ev.dialog, ev.token); }
    else { LockStep(s, ev); }
  }

  /** Tier 1 opens for `c` in a step if and only if the step ends the last store call of such an op, no
      lock has landed since the op took its epoch and `c` is the window, still connected; the browser's
      unlock likewise at the end of an unlock that put the keys in memory. */
  lemma StepOpensExactly(s: State, ev: Event, c: Conn)
    requires Inv(s) && Enabled(s, ev)
    ensures var t := Step(s, ev);
      && (t.ss.tier1 == Some(c) && s.ss.tier1 != Some(c) <==>
            s.ss.tier1 != Some(c) && Finishes(s, ev, c) && Current(s) && c !in s.ss.closed && s.ss.ui == Some(c))
      && (t.ss.autofill == Some(c) && s.ss.autofill != Some(c) <==>
            s.ss.autofill != Some(c) && FinishesNames(s, ev, c) && Current(s) && c !in s.ss.closed)
  {
    if ev.EvResume? {
      ResumeOpensExactly(s, ev.ok, ev.token, c);
    } else {
      OthersOpenNothing(s, ev);
    }
    hide Inv, Step;
  }

  // --- the same over runs, in terms of the approvals ----------------------------------------------------

  /** This op's own approval: given in the epoch the op carries (or, where the op locked itself, in the
      one before), with no lock since but the op's own. */
  ghost predicate OpHeld(states: seq<State>, events: seq<Event>, i: nat, k: Kont)
    requires |states| == |events| + 1 && i < |states|
  {
    match k
    case TpmState(c, e) => exists j: nat :: HeldSince(states, events, j, i, c, AskUnlock) && states[j].ss.epoch == e
    case Names(c, e) => exists j: nat :: HeldSince(states, events, j, i, c, AskNames) && states[j].ss.epoch == e
    case Replace(c, e, op) => MakeHeld(states, events, i, c, e, op)
    case Settings(c, e, _, op) => MakeHeld(states, events, i, c, e, op)
    case _ => false
  }

  ghost predicate MakeHeld(states: seq<State>, events: seq<Event>, i: nat, c: Conn, e: nat, op: Op)
    requires |states| == |events| + 1 && i < |states|
  {
    match op
    case Signin => exists j: nat :: HeldSince(states, events, j, i, c, AskSignin) && states[j].ss.epoch == e
    case MigrateBegin =>
      || (exists j: nat :: HeldSince(states, events, j, i, c, AskMigrate) && states[j].ss.epoch == e)
      || (exists j: nat :: HeldAcrossOwn(states, events, j, i, c) && states[j].ss.epoch + 1 == e)
    case Reset => exists j: nat, m: nat :: HeldTwice(states, events, j, m, i, c) && states[m].ss.epoch + 1 == e
  }

  lemma ApprovedHeld(states: seq<State>, events: seq<Event>, i: nat, c: Conn, ask: Ask) returns (j: nat)
    requires IsRun(states, events) && i < |states| && (c, ask, states[i].ss.epoch) in states[i].approved
    ensures HeldSince(states, events, j, i, c, ask) && states[j].ss.epoch == states[i].ss.epoch
  {
    hide IsRun;
    j := ApprovalHolds(states, events, i, c, ask);
  }

  lemma WarrantHeld(states: seq<State>, events: seq<Event>, i: nat, c: Conn, op: Op)
    requires IsRun(states, events) && i < |states| && WarrantOp(states[i], c, states[i].ss.epoch, op)
    ensures MakeHeld(states, events, i, c, states[i].ss.epoch, op)
  {
    RunShape(states, events);
    hide IsRun, HeldSince, HeldAcrossOwn, HeldTwice;
    var e := states[i].ss.epoch;
    match op
    case Signin => var j := ApprovedHeld(states, events, i, c, AskSignin);
    case MigrateBegin =>
      if (c, AskMigrate, e) in states[i].approved {
        var j := ApprovedHeld(states, events, i, c, AskMigrate);
      } else {
        var j := LockedBy(states, events, i, c, AskMigrate, e);
        OwnHeld(states, events, j, i, c);
      }
    case Reset =>
      var m := LockedBy(states, events, i, c, AskReset, e);
      var j := ApprovedHeld(states, events, m, c, AskReset);
      TwiceHeld(states, events, j, m, i, c);
  }

  lemma OwnHeld(states: seq<State>, events: seq<Event>, j: nat, i: nat, c: Conn)
    requires IsRun(states, events) && j < i < |states| && Approves(events[j], c, AskMigrate)
    requires states[j + 1].ss.epoch == states[i].ss.epoch == states[j].ss.epoch + 1
    ensures HeldAcrossOwn(states, events, j, i, c)
  {
    hide IsRun;
    SameEpoch(states, events, j + 1, i);
  }

  lemma TwiceHeld(states: seq<State>, events: seq<Event>, j: nat, m: nat, i: nat, c: Conn)
    requires IsRun(states, events) && m < i < |states| && HeldSince(states, events, j, m, c, AskReset)
    requires ResetLocks(states[m], events[m], states[m + 1], c) && states[m + 1].ss.epoch == states[i].ss.epoch
    ensures HeldTwice(states, events, j, m, i, c)
  {
    hide IsRun, HeldSince;
    SameEpoch(states, events, m + 1, i);
  }

  /** The op still carries the epoch of the session if and only if no lock but its own has landed since
      its approval. */
  lemma CurrentMeansHeld(states: seq<State>, events: seq<Event>, i: nat)
    requires IsRun(states, events) && i < |states| && states[i].running.Some?
    requires var k := states[i].running.value.call.kont; k.TpmState? || k.Names? || k.Replace? || k.Settings?
    ensures |states| == |events| + 1
    ensures Current(states[i]) <==> OpHeld(states, events, i, states[i].running.value.call.kont)
  {
    RunShape(states, events);
    RunInv(states, events, i);
    Parts(states[i]);
    var k := states[i].running.value.call.kont;
    assert Warrant(states[i], k);
    hide IsRun, Inv, WarrantOp;
    if Current(states[i]) {
      match k
      case TpmState(c, e) => var j := ApprovedHeld(states, events, i, c, AskUnlock);
      case Names(c, e) => var j := ApprovedHeld(states, events, i, c, AskNames);
      case Replace(c, e, op) => WarrantHeld(states, events, i, c, op);
      case Settings(c, e, _, op) => WarrantHeld(states, events, i, c, op);
    }
  }

  /** In every run: tier 1 opens for a connection in a step if and only if the step ends the last store call
      of an op of it, that op's own approval stands with no lock since but the op's own, and it is the
      window, still connected. The browser's unlock opens if and only if the step ends an unlock that put
      the keys in memory, its approval stands with no lock since, and the connection is open. */
  lemma OpensExactly(states: seq<State>, events: seq<Event>, i: nat, c: Conn)
    requires IsRun(states, events) && i < |events|
    ensures |states| == |events| + 1
    ensures var s, t, ev := states[i], states[i + 1], events[i];
      && (t.ss.tier1 == Some(c) && s.ss.tier1 != Some(c) <==>
            s.ss.tier1 != Some(c) && Finishes(s, ev, c) && OpHeld(states, events, i, s.running.value.call.kont)
            && c !in s.ss.closed && s.ss.ui == Some(c))
      && (t.ss.autofill == Some(c) && s.ss.autofill != Some(c) <==>
            s.ss.autofill != Some(c) && FinishesNames(s, ev, c) && OpHeld(states, events, i, s.running.value.call.kont)
            && c !in s.ss.closed)
  {
    RunInv(states, events, i);
    assert states[i + 1] == Step(states[i], events[i]);
    StepOpensExactly(states[i], events[i], c);
    hide Inv, Step, IsRun, OpHeld;
    if Finishes(states[i], events[i], c) || FinishesNames(states[i], events[i], c) {
      CurrentMeansHeld(states, events, i);
    }
  }

  // --- grants and tickets, exactly ----------------------------------------------------------------------

  /** op_grant's last store call gave the entry and nothing locked since the op began. */
  predicate GrantDone(s: State, ev: Event) {
    && Resumed(s, ev) && s.running.value.call.kont.GrantOpen? && ev.ok
    && var k := s.running.value.call.kont; Still(s.ss, k.conn, k.epoch)
  }

  /** op_grant found the entry and asks for it to be opened. */
  predicate GrantAsked(s: State, ev: Event) {
    && Resumed(s, ev) && s.running.value.call.kont.GrantMeta? && ev.ok
    && var k := s.running.value.call.kont; Still(s.ss, k.conn, k.epoch)
  }

  /** Where a clip ticket comes from. */
  predicate ClipDone(s: State, ev: Event, token: nat) {
    || (ev.EvCopyNow? && ev.token == token)
    || (Resumed(s, ev) && s.running.value.call.kont.CopyMeta? && ev.ok && ev.token == token
        && var k := s.running.value.call.kont; Still(s.ss, k.conn, k.epoch))
  }

  /** Where a migrate ticket comes from: the end of migrate-begin, or an approved purge. */
  predicate MigrateDone(s: State, ev: Event, token: nat) {
    || (ev.EvApprove? && ev.dialog.ask == AskPurge && ev.token == token && Same(s.ss, ev.dialog.conn, ev.dialog.epoch))
    || (Resumed(s, ev) && s.running.value.call.kont.Settings? && ev.token == token
        && var k := s.running.value.call.kont;
           k.op == MigrateBegin && (k.left == 0 || !ev.ok) && Same(s.ss, k.conn, k.epoch))
  }

  predicate TicketDone(s: State, ev: Event, t: Ticket) {
    t.epoch == s.ss.epoch && if t.role == Clip then ClipDone(s, ev, t.token) else MigrateDone(s, ev, t.token)
  }

  /** What a step adds to the grants and tickets, in both directions. */
  ghost predicate GivesExactly(s: State, ev: Event, t: State) {
    && (GrantDone(s, ev) ==> t.ss.grant == Some(s.ss.epoch))
    && (t.ss.grant.Some? && s.ss.grant.None? ==> GrantDone(s, ev))
    && (GrantAsked(s, ev) ==> t.ss.grant.None?)
    && (forall x | x in t.ss.tickets :: x in s.ss.tickets || TicketDone(s, ev, x))
    && (forall x: Ticket :: TicketDone(s, ev, x) ==> x in t.ss.tickets)
    && forall x, y: Ticket :: x in t.ss.tickets && x.role == Clip && y.role == Clip && TicketDone(s, ev, y) ==> x == y
  }

  predicate GivesNothing(s: State, t: State) {
    (t.ss.grant.Some? ==> t.ss.grant == s.ss.grant) && t.ss.tickets <= s.ss.tickets
  }

  lemma LockGivesNothing(s: State)
    ensures GivesNothing(s, Lock(s)) && GivesNothing(s, CloseAutofill(s)) && GivesNothing(s, WipeStore(s))
    ensures Lock(s).ss.tickets == {} && Lock(s).ss.grant.None?
  {
  }

  lemma RequestGivesNothing(s: State, k: Kont, token: nat)
    requires !Resolves(k)
    ensures GivesNothing(s, Request(s, k, token))
  {
  }

  /** What the rest of a handler gives, from a session that owes no wipe. */
  ghost predicate HandsOut(s: State, k: Kont, ok: bool, token: nat, t: State) {
    && (k.GrantOpen? && ok && Still(s.ss, k.conn, k.epoch) ==> t.ss.grant == Some(s.ss.epoch))
    && (t.ss.grant.Some? && s.ss.grant.None? ==> k.GrantOpen? && ok && Still(s.ss, k.conn, k.epoch))
    && (k.GrantMeta? && ok && Still(s.ss, k.conn, k.epoch) ==> t.ss.grant.None?)
    && (forall x | x in t.ss.tickets :: x in s.ss.tickets || Issued(s, k, ok, token, x))
    && (forall x: Ticket :: Issued(s, k, ok, token, x) ==> x in t.ss.tickets)
    && forall x, y: Ticket :: x in t.ss.tickets && x.role == Clip && y.role == Clip && Issued(s, k, ok, token, y) ==> x == y
  }

  predicate Issued(s: State, k: Kont, ok: bool, token: nat, x: Ticket) {
    && x.epoch == s.ss.epoch && x.token == token
    && if x.role == Clip then k.CopyMeta? && ok && Still(s.ss, k.conn, k.epoch)
       else k.Settings? && k.op == MigrateBegin && (k.left == 0 || !ok) && Same(s.ss, k.conn, k.epoch)
  }

  /** Every other handler gives nothing. */
  lemma ContinueGivesNothing(x: State, k: Kont, ok: bool, made: nat, token: nat)
    requires !x.ss.wipeAfter && !k.Settings? && !k.GrantOpen? && !k.CopyMeta?
    ensures var t := Continue(x, k, ok, made, token);
      GivesNothing(x, t) && (k.GrantMeta? && ok && Still(x.ss, k.conn, k.epoch) ==> t.ss.grant.None?)
  {
    hide Request, OwnLock;
    match k
    case Unlock(c, e) => RequestIs(x, TpmState(c, e), token);
    case SigninCheck(c, e) => RequestIs(x, Replace(c, e, Signin), token);
    case ResetCheck(c, e, left) =>
      if left > 0 { RequestIs(x, ResetCheck(c, e, left - 1), token); }
      OwnLockGives(x, c, AskReset);
      RequestGivesNothing(OwnLock(x, c, AskReset), Replace(c, OwnLock(x, c, AskReset).ss.epoch, Reset), token);
    case Replace(c, e, op) => RequestIs(x.(cur := made), Settings(c, e, 1, op), token);
    case GrantMeta(c, e) => RequestIs(x.(ss := x.ss.(grant := None)), GrantOpen(c, e), token);
    case _ =>
  }

  lemma SettingsGives(x: State, k: Kont, ok: bool, made: nat, token: nat)
    requires !x.ss.wipeAfter && k.Settings?
    ensures HandsOut(x, k, ok, token, Continue(x, k, ok, made, token))
  {
    hide Request, WipeStore;
    LockGivesNothing(x);
    if k.left > 0 { RequestIs(x, Settings(k.conn, k.epoch, k.left - 1, k.op), token); }
  }

  lemma OpenGives(x: State, k: Kont, ok: bool, made: nat, token: nat)
    requires k.GrantOpen? || k.CopyMeta?
    ensures HandsOut(x, k, ok, token, Continue(x, k, ok, made, token))
  {
  }

  lemma ContinueGives(x: State, k: Kont, ok: bool, made: nat, token: nat)
    requires !x.ss.wipeAfter
    ensures HandsOut(x, k, ok, token, Continue(x, k, ok, made, token))
  {
    hide Continue;
    if k.Settings? {
      SettingsGives(x, k, ok, made, token);
    } else if k.GrantOpen? || k.CopyMeta? {
      OpenGives(x, k, ok, made, token);
    } else {
      ContinueGivesNothing(x, k, ok, made, token);
    }
  }

  lemma ResumeGives(s: State, ok: bool, token: nat)
    requires Inv(s) && Enabled(s, EvResume(ok, token))
    ensures GivesExactly(s, EvResume(ok, token), Step(s, EvResume(ok, token)))
  {
    var r := s.running.value;
    var x := ExitCall(s, r);
    ExitSess(s);
    ResumeIs(s, ok, token);
    ContinueGives(x, r.call.kont, ResumeOk(r, ok), ResumeMade(r), token);
    hide ExitCall, Inv, Step, Continue;
  }

  lemma OwnLockGives(s: State, c: Conn, ask: Ask)
    ensures OwnLock(s, c, ask).ss.tickets == {} && OwnLock(s, c, ask).ss.grant.None?
  {
  }

  lemma ApproveGives(s: State, ev: Event)
    requires ev.EvApprove?
    ensures GivesExactly(s, ev, Approve(s, ev.dialog, ev.token))
  {
    hide Request, OwnLock;
    var d, token := ev.dialog, ev.token;
    var a := Approved(s, d);
    var c, e := d.conn, s.ss.epoch;
    match d.ask
    case AskUnlock => RequestGivesNothing(a, Unlock(c, e), token);
    case AskNames => RequestGivesNothing(a, Names(c, e), token);
    case AskSignin => RequestGivesNothing(a, SigninCheck(c, d.epoch), token);
    case AskReset => RequestGivesNothing(a, ResetCheck(c, d.epoch, 2), token);
    case AskMigrate =>
      OwnLockGives(a, c, AskMigrate);
      var l := if Unlocked(a.ss) then OwnLock(a, c, AskMigrate) else a;
      RequestGivesNothing(l, Replace(c, l.ss.epoch, MigrateBegin), token);
    case AskPurge =>
    case AskOther => RequestGivesNothing(a, Other, token);
  }

  lemma CallGives(s: State, ev: Event)
    requires Enabled(s, ev) && (ev.EvGrant? || ev.EvCopy? || ev.EvOther?)
    ensures GivesNothing(s, Step(s, ev))
  {
    hide Request;
    match ev
    case EvGrant(c) => RequestGivesNothing(s, GrantMeta(c, s.ss.epoch), 0);
    case EvCopy(c) => RequestGivesNothing(s, CopyMeta(c, s.ss.epoch), 0);
    case EvOther => RequestGivesNothing(s, Other, 0);
  }

  lemma LockingGives(s: State, ev: Event)
    requires Enabled(s, ev) && Locking(ev)
    ensures GivesNothing(s, Step(s, ev))
  {
    hide Lock, CloseAutofill;
    LockGivesNothing(s);
    if ev.EvDetach? {
      var a := s.(ss := s.ss.(dialogs := set d | d in s.ss.dialogs && d.conn != ev.conn));
      LockGivesNothing(a);
      LockGivesNothing(CloseAutofill(a));
    }
  }

  lemma AcquireGives(s: State, token: nat)
    requires Inv(s) && Enabled(s, EvAcquire(token))
    ensures GivesNothing(s, Step(s, EvAcquire(token)))
  {
    Parts(s);
    hide Continue, Inv;
  }

  lemma QuietGives(s: State, ev: Event)
    requires Enabled(s, ev) && Quiet(ev)
    ensures GivesExactly(s, ev, Step(s, ev))
  {
    hide Continue, Request, Lock, WipeStore, CloseAutofill, Connect, Detach, Approve, ResumeStep, Get, Enter, Leave;
  }

  /** In every step: a grant appears if and only if op_grant's last store call gave the entry and its window
      still has tier 1 in the epoch it began in; a clip ticket if and only if a copy got that far; a migrate
      ticket if and only if migrate-begin ends or a purge is approved; each of the current epoch. */
  lemma StepGivesExactly(s: State, ev: Event)
    requires Inv(s) && Enabled(s, ev)
    ensures GivesExactly(s, ev, Step(s, ev))
  {
    hide Inv, Step;
    if ev.EvResume? { ResumeGives(s, ev.ok, ev.token); }
    else if ev.EvApprove? { StepApprove(s, ev); ApproveGives(s, ev); }
    else if Quiet(ev) { QuietGives(s, ev); }
    else if ev.EvAcquire? { AcquireGives(s, ev.token); }
    else if Locking(ev) { LockingGives(s, ev); }
    else { CallGives(s, ev); }
  }

  // --- what ends, exactly -------------------------------------------------------------------------------

  /** A copy that got as far as its new ticket, which withdraws the others. */
  predicate NewClip(s: State, ev: Event) {
    || ev.EvCopyNow?
    || (Resumed(s, ev) && s.running.value.call.kont.CopyMeta? && ev.ok
        && var k := s.running.value.call.kont; Still(s.ss, k.conn, k.epoch))
  }

  /** Without a lock: tier 1 and the browser's unlock stay, the latter but for its own end; a grant goes only
      by its release or a new op_grant; a ticket only by being redeemed or by a new copy. */
  ghost predicate EndsExactly(s: State, ev: Event, t: State) {
    s.ss.epoch == t.ss.epoch ==>
      && (s.ss.tier1.Some? ==> t.ss.tier1.Some?)
      && (s.ss.autofill.Some? && t.ss.autofill.None? ==>
            ev.EvAutofillEnds? || (ev.EvDetach? && s.ss.autofill == Some(ev.conn)))
      && (s.ss.grant.Some? ==> (t.ss.grant.None? <==> ev.EvRelease? || GrantAsked(s, ev)))
      && forall x | x in s.ss.tickets ::
           (x !in t.ss.tickets <==> ev == EvRedeem(x) || (x.role == Clip && NewClip(s, ev) && x.token != ev.token))
  }

  /** The step leaves all of it alone. */
  predicate EndsNothing(s: State, t: State) {
    s.ss.epoch == t.ss.epoch ==>
      && (s.ss.tier1.Some? ==> t.ss.tier1.Some?) && (s.ss.autofill.Some? ==> t.ss.autofill.Some?)
      && (s.ss.grant.Some? ==> t.ss.grant.Some?) && s.ss.tickets <= t.ss.tickets
  }

  lemma RequestEndsNothing(s: State, k: Kont, token: nat)
    requires !Resolves(k)
    ensures EndsNothing(s, Request(s, k, token))
  {
  }

  lemma WipeEndsNothing(s: State)
    ensures EndsNothing(s, WipeStore(s)) && WipeStore(s).ss.epoch == s.ss.epoch
    ensures Lock(s).ss.epoch == s.ss.epoch + 1
  {
  }

  lemma ContinueEndsNothing(x: State, k: Kont, ok: bool, made: nat, token: nat)
    requires !x.ss.wipeAfter && !k.GrantMeta? && !k.CopyMeta?
    ensures EndsNothing(x, Continue(x, k, ok, made, token))
  {
    WipeEndsNothing(x);
    WipeEndsNothing(x.(cur := made));
    hide Request, OwnLock, WipeStore, Lock;
    match k
    case Unlock(c, e) => RequestIs(x, TpmState(c, e), token);
    case SigninCheck(c, e) => RequestIs(x, Replace(c, e, Signin), token);
    case ResetCheck(c, e, left) =>
      if left > 0 { RequestIs(x, ResetCheck(c, e, left - 1), token); }
      OwnLockIs(x, c, AskReset);
      LockedEpoch(OwnLock(x, c, AskReset), Replace(c, x.ss.epoch + 1, Reset), token);
    case Replace(c, e, op) => RequestIs(x.(cur := made), Settings(c, e, 1, op), token);
    case Settings(c, e, left, op) => if left > 0 { RequestIs(x, Settings(c, e, left - 1, op), token); }
    case _ =>
  }

  lemma LockedEpoch(s: State, k: Kont, token: nat)
    requires k.Replace?
    ensures Request(s, k, token).ss.epoch == s.ss.epoch
  {
  }

  /** The two handlers that end something. */
  lemma ContinueEnds(x: State, k: Kont, ok: bool, made: nat, token: nat)
    requires !x.ss.wipeAfter && (k.GrantMeta? || k.CopyMeta?) && forall y | y in x.ss.tickets :: y.epoch == x.ss.epoch
    ensures var t, done := Continue(x, k, ok, made, token), ok && Still(x.ss, k.conn, k.epoch);
      && t.ss.tier1 == x.ss.tier1 && t.ss.autofill == x.ss.autofill
      && (t.ss.grant == if done && k.GrantMeta? then None else x.ss.grant)
      && (forall y | y in x.ss.tickets :: y !in t.ss.tickets <==> done && k.CopyMeta? && y.role == Clip && y.token != token)
  {
    hide Request;
    if k.GrantMeta? { RequestIs(x.(ss := x.ss.(grant := None)), GrantOpen(k.conn, k.epoch), token); }
    else if ok && Still(x.ss, k.conn, k.epoch) { CopyEnds(x, token); }
  }

  lemma CopyEnds(x: State, token: nat)
    requires forall y | y in x.ss.tickets :: y.epoch == x.ss.epoch
    ensures var t := Issue(RevokeClip(x), Clip, token);
      forall y | y in x.ss.tickets :: y !in t.ss.tickets <==> y.role == Clip && y.token != token
  {
  }

  lemma ResumeEnds(s: State, ok: bool, token: nat)
    requires Inv(s) && Enabled(s, EvResume(ok, token))
    ensures EndsExactly(s, EvResume(ok, token), Step(s, EvResume(ok, token)))
  {
    var r := s.running.value;
    var x := ExitCall(s, r);
    TicketsCurrent(s);
    ExitSess(s);
    ResumeIs(s, ok, token);
    hide ExitCall, Inv, Step, Continue;
    if r.call.kont.GrantMeta? || r.call.kont.CopyMeta? {
      ContinueEnds(x, r.call.kont, ResumeOk(r, ok), ResumeMade(r), token);
    } else {
      ContinueEndsNothing(x, r.call.kont, ResumeOk(r, ok), ResumeMade(r), token);
    }
  }

  lemma TicketsCurrent(s: State)
    requires Inv(s)
    ensures forall y | y in s.ss.tickets :: y.epoch == s.ss.epoch
  {
  }

  lemma ApproveEnds(s: State, d: Dialog, token: nat)
    ensures EndsNothing(s, Approve(s, d, token))
  {
    hide Request, OwnLock;
    var a, c, e := Approved(s, d), d.conn, s.ss.epoch;
    match d.ask
    case AskUnlock => RequestEndsNothing(a, Unlock(c, e), token);
    case AskNames => RequestEndsNothing(a, Names(c, e), token);
    case AskSignin => RequestEndsNothing(a, SigninCheck(c, d.epoch), token);
    case AskReset => RequestEndsNothing(a, ResetCheck(c, d.epoch, 2), token);
    case AskMigrate =>
      OwnLockIs(a, c, AskMigrate);
      LockedEpoch(OwnLock(a, c, AskMigrate), Replace(c, OwnLock(a, c, AskMigrate).ss.epoch, MigrateBegin), token);
      RequestEndsNothing(a, Replace(c, e, MigrateBegin), token);
    case AskPurge =>
    case AskOther => RequestEndsNothing(a, Other, token);
  }

  lemma CallEnds(s: State, ev: Event)
    requires Enabled(s, ev) && (ev.EvGrant? || ev.EvCopy? || ev.EvOther?)
    ensures EndsNothing(s, Step(s, ev))
  {
    hide Request;
    match ev
    case EvGrant(c) => RequestEndsNothing(s, GrantMeta(c, s.ss.epoch), 0);
    case EvCopy(c) => RequestEndsNothing(s, CopyMeta(c, s.ss.epoch), 0);
    case EvOther => RequestEndsNothing(s, Other, 0);
  }

  lemma WorkerEnds(s: State, ev: Event)
    requires Enabled(s, ev) && WorkerEvent(ev)
    ensures Step(s, ev).ss == s.ss
  {
    hide Continue, Request, Lock, WipeStore, CloseAutofill, Connect, Detach, Approve, ResumeStep, Get, Enter, Leave;
  }

  lemma TableEnds(s: State, ev: Event)
    requires Inv(s) && Enabled(s, ev) && Quiet(ev) && !WorkerEvent(ev)
    ensures EndsExactly(s, ev, Step(s, ev))
  {
    TicketsCurrent(s);
    if ev.EvCopyNow? { CopyEnds(s, ev.token); }
    hide Inv, Continue, Request, Lock, WipeStore, CloseAutofill, Connect, Detach, Approve, ResumeStep, EnterStep, BodyStep, Get;
  }

  lemma CloseEnds(s: State)
    ensures CloseAutofill(s).ss == s.ss.(autofill := None) || CloseAutofill(s).ss.epoch == s.ss.epoch + 1
    ensures Lock(s).ss.epoch == s.ss.epoch + 1
  {
  }

  lemma LockingEnds(s: State, ev: Event)
    requires Enabled(s, ev) && Locking(ev)
    ensures EndsExactly(s, ev, Step(s, ev))
  {
    hide Lock, CloseAutofill, Continue, Request, Approve, ResumeStep, EnterStep, BodyStep, Get;
    CloseEnds(s);
    if ev.EvDetach? {
      var a := s.(ss := s.ss.(dialogs := set d | d in s.ss.dialogs && d.conn != ev.conn));
      CloseEnds(a);
      CloseEnds(CloseAutofill(a));
    }
  }

  lemma AcquireEnds(s: State, token: nat)
    requires Inv(s) && Enabled(s, EvAcquire(token))
    ensures EndsNothing(s, Step(s, EvAcquire(token)))
  {
    Parts(s);
    hide Continue, Inv;
  }

  /** In every step that moves no epoch: what ends is exactly what was released, redeemed or replaced. */
  lemma StepEndsExactly(s: State, ev: Event)
    requires Inv(s) && Enabled(s, ev)
    ensures EndsExactly(s, ev, Step(s, ev))
  {
    hide Inv, Step;
    if ev.EvResume? { ResumeEnds(s, ev.ok, ev.token); }
    else if ev.EvApprove? { StepApprove(s, ev); ApproveEnds(s, ev.dialog, ev.token); }
    else if WorkerEvent(ev) { WorkerEnds(s, ev); }
    else if Quiet(ev) { TableEnds(s, ev); }
    else if ev.EvAcquire? { AcquireEnds(s, ev.token); }
    else if Locking(ev) { LockingEnds(s, ev); }
    else { CallEnds(s, ev); }
  }

  // --- an approved op gets there ------------------------------------------------------------------------

  /** What an op in flight is after; `ToReset` is op_reset up to its own lock. */
  datatype Goal = ToUnlock | ToNames | ToReset | ToMake(op: Op) | ToGrant | ToCopy

  /** This call is a part of such an op of `c` in epoch `e`. */
  predicate Mine(k: Kont, g: Goal, c: Conn, e: nat) {
    match g
    case ToUnlock => k == Unlock(c, e) || k == TpmState(c, e)
    case ToNames => k == Names(c, e)
    case ToReset => k.ResetCheck? && k.conn == c && k.epoch == e
    case ToMake(op) =>
      || (op == Signin && k == SigninCheck(c, e)) || k == Replace(c, e, op)
      || (k.Settings? && k.conn == c && k.epoch == e && k.op == op)
    case ToGrant => k == GrantMeta(c, e) || k == GrantOpen(c, e)
    case ToCopy => k == CopyMeta(c, e)
  }

  ghost predicate InFlight(s: State, g: Goal, c: Conn, e: nat) {
    || (s.running.Some? && Mine(s.running.value.call.kont, g, c, e))
    || exists i :: 0 <= i < |s.waiting| && Mine(s.waiting[i].kont, g, c, e)
  }

  /** No lock, the connection open, and the window where the op needs it. */
  predicate Unhindered(s: State, g: Goal, c: Conn, e: nat) {
    && s.ss.epoch == e && c !in s.ss.closed && (g != ToNames ==> s.ss.ui == Some(c))
    && (g == ToGrant || g == ToCopy ==> s.ss.tier1 == Some(c))
  }

  /** The op's own store call failed. */
  predicate Fails(s: State, ev: Event, g: Goal, c: Conn, e: nat) {
    && Resumed(s, ev) && Mine(s.running.value.call.kont, g, c, e)
    && var r := s.running.value;
       if r.call.kont.TpmState? || r.call.kont.Settings? then false else !ResumeOk(r, ev.ok)
  }

  ghost predicate HasTicket(s: State, role: Role) { exists t :: t in s.ss.tickets && t.role == role && t.epoch == s.ss.epoch }

  ghost predicate Reached(s: State, g: Goal, c: Conn) {
    match g
    case ToUnlock => s.ss.tier1 == Some(c)
    case ToNames => s.ss.autofill == Some(c)
    case ToReset => false
    case ToMake(op) => s.ss.tier1 == Some(c) && (op == MigrateBegin ==> HasTicket(s, Migrate))
    case ToGrant => s.ss.grant == Some(s.ss.epoch)
    case ToCopy => HasTicket(s, Clip)
  }

  /** Calls keep their places; new ones come behind. */
  predicate Queues(s: State, t: State) {
    s.waiting <= t.waiting && (s.running.Some? ==> t.running.Some? && t.running.value.call == s.running.value.call)
  }

  lemma QueuesKeep(s: State, t: State, g: Goal, c: Conn, e: nat)
    requires Queues(s, t) && InFlight(s, g, c, e)
    ensures InFlight(t, g, c, e)
  {
    if exists i :: 0 <= i < |s.waiting| && Mine(s.waiting[i].kont, g, c, e) {
      var i :| 0 <= i < |s.waiting| && Mine(s.waiting[i].kont, g, c, e);
      assert t.waiting[i] == s.waiting[i];
    }
  }

  lemma LockQueues(s: State)
    ensures Queues(s, Lock(s)) && Queues(s, WipeStore(s)) && Queues(s, CloseAutofill(s))
    ensures Lock(s).waiting == s.waiting && Lock(s).running == s.running
  {
  }

  lemma RequestQueues(s: State, k: Kont, token: nat)
    ensures Queues(s, Request(s, k, token))
    decreases Rank(k), 1
  {
    hide Continue;
    if s.ss.wipeAfter { RefusedQueues(s, k, token); }
  }

  lemma RefusedQueues(s: State, k: Kont, token: nat)
    ensures Queues(s, Continue(s, k, false, 0, token))
  {
    LockQueues(s);
    hide Lock, WipeStore;
  }

  /** What a handler asks for next is in flight. */
  lemma RequestFlies(s: State, k: Kont, token: nat, g: Goal, c: Conn, e: nat)
    requires !s.ss.wipeAfter && Mine(k, g, c, e)
    ensures InFlight(Request(s, k, token), g, c, e)
  {
    if s.running.Some? || s.waiting != [] {
      assert Request(s, k, token).waiting[|s.waiting|].kont == k;
    }
  }

  lemma ContinueQueues(s: State, k: Kont, ok: bool, made: nat, token: nat)
    ensures Queues(s, Continue(s, k, ok, made, token))
  {
    LockQueues(s);
    LockQueues(s.(cur := made));
    hide Lock, WipeStore, Request;
    match k
    case Unlock(c, e) => RequestQueues(s, TpmState(c, e), token);
    case SigninCheck(c, e) => RequestQueues(s, Replace(c, e, Signin), token);
    case ResetCheck(c, e, left) =>
      if left > 0 { RequestQueues(s, ResetCheck(c, e, left - 1), token); }
      RequestQueues(OwnLock(s, c, AskReset), Replace(c, OwnLock(s, c, AskReset).ss.epoch, Reset), token);
    case Replace(c, e, op) => RequestQueues(s.(cur := made), Settings(c, e, 1, op), token);
    case Settings(c, e, left, op) => if left > 0 { RequestQueues(s, Settings(c, e, left - 1, op), token); }
    case GrantMeta(c, e) => RequestQueues(s.(ss := s.ss.(grant := None)), GrantOpen(c, e), token);
    case _ =>
  }

  /** op_reset after its last read goes on to its own lock and from there to the new store. */
  lemma ResetGoesOn(s: State, token: nat, c: Conn, e: nat)
    requires Inv(s) && Enabled(s, EvResume(true, token)) && s.running.value.call.kont == ResetCheck(c, e, 0)
    requires Unhindered(s, ToReset, c, e)
    ensures var t := Step(s, EvResume(true, token));
      t.ss.epoch == e + 1 && t.ss.ui == Some(c) && c !in t.ss.closed && InFlight(t, ToMake(Reset), c, e + 1)
  {
    var x := s.(ss := s.ss.(replacing := false), running := None);
    ExitQuiet(s);
    ResumeIs(s, true, token);
    var l := OwnLock(x, c, AskReset);
    assert !l.ss.wipeAfter && l.ss.epoch == e + 1 && l.ss.ui == Some(c) && l.ss.closed == s.ss.closed;
    hide ExitCall, Inv, Step, Request, InFlight, OwnLock;
    RequestFlies(l, Replace(c, e + 1, Reset), token, ToMake(Reset), c, e + 1);
    RequestIs(l, Replace(c, e + 1, Reset), token);
  }

  lemma ContinueGoesOn(x: State, k: Kont, ok: bool, made: nat, token: nat, g: Goal, c: Conn, e: nat)
    requires !x.ss.wipeAfter && Mine(k, g, c, e) && Unhindered(x, g, c, e)
    requires ok || k.TpmState? || k.Settings?
    requires k.ResetCheck? ==> k.left > 0
    ensures var t := Continue(x, k, ok, made, token); InFlight(t, g, c, e) || Reached(t, g, c)
  {
    hide Request, InFlight, WipeStore, OwnLock;
    match k
    case Unlock(_, _) => RequestFlies(x, TpmState(c, e), token, g, c, e);
    case SigninCheck(_, _) => RequestFlies(x, Replace(c, e, Signin), token, g, c, e);
    case ResetCheck(_, _, left) => RequestFlies(x, ResetCheck(c, e, left - 1), token, g, c, e);
    case Replace(_, _, op) => if op != Signin { RequestFlies(x.(cur := made), Settings(c, e, 1, op), token, g, c, e); }
    case Settings(_, _, left, op) =>
      if ok && left > 0 { RequestFlies(x, Settings(c, e, left - 1, op), token, g, c, e); }
      else if op == MigrateBegin { assert Ticket(token, Migrate, e) in Continue(x, k, ok, made, token).ss.tickets; }
    case GrantMeta(_, _) => RequestFlies(x.(ss := x.ss.(grant := None)), GrantOpen(c, e), token, g, c, e);
    case CopyMeta(_, _) => assert Ticket(token, Clip, e) in Continue(x, k, ok, made, token).ss.tickets;
    case _ =>
  }

  /** The end of the op's own call: it asks for its next one, or it is there. */
  lemma OwnGoesOn(s: State, ok: bool, token: nat, g: Goal, c: Conn, e: nat)
    requires Inv(s) && Enabled(s, EvResume(ok, token)) && Mine(s.running.value.call.kont, g, c, e)
    requires Unhindered(s, g, c, e) && !Fails(s, EvResume(ok, token), g, c, e)
    requires Unhindered(Step(s, EvResume(ok, token)), g, c, e)
    ensures var t := Step(s, EvResume(ok, token)); InFlight(t, g, c, e) || Reached(t, g, c)
  {
    var r := s.running.value;
    ExitQuiet(s);
    ResumeIs(s, ok, token);
    hide ExitCall, Inv, Step, Request, InFlight, Continue;
    if r.call.kont.ResetCheck? && r.call.kont.left == 0 {
      ResetGoesOn(s, token, c, e);
    } else {
      ContinueGoesOn(ExitCall(s, r), r.call.kont, ResumeOk(r, ok), ResumeMade(r), token, g, c, e);
    }
  }

  lemma ApproveQueues(s: State, d: Dialog, token: nat)
    ensures Queues(s, Approve(s, d, token))
  {
    hide Request, Lock;
    var a := Approved(s, d);
    LockQueues(a);
    var c, e := d.conn, s.ss.epoch;
    match d.ask
    case AskUnlock => RequestQueues(a, Unlock(c, e), token);
    case AskNames => RequestQueues(a, Names(c, e), token);
    case AskSignin => RequestQueues(a, SigninCheck(c, d.epoch), token);
    case AskReset => RequestQueues(a, ResetCheck(c, d.epoch, 2), token);
    case AskMigrate =>
      var l := if Unlocked(a.ss) then OwnLock(a, c, AskMigrate) else a;
      RequestQueues(l, Replace(c, l.ss.epoch, MigrateBegin), token);
    case AskPurge =>
    case AskOther => RequestQueues(a, Other, token);
  }

  lemma StepQueues(s: State, ev: Event)
    requires Enabled(s, ev) && !ev.EvResume? && !ev.EvAcquire?
    ensures Queues(s, Step(s, ev))
  {
    hide Lock, CloseAutofill, Request, Approve, WipeStore;
    LockQueues(s);
    match ev
    case EvDetach(c) =>
      var a := s.(ss := s.ss.(dialogs := set d | d in s.ss.dialogs && d.conn != c));
      LockQueues(a);
      LockQueues(CloseAutofill(a));
    case EvApprove(d, token) => ApproveQueues(s, d, token);
    case EvGrant(c) => RequestQueues(s, GrantMeta(c, s.ss.epoch), 0);
    case EvCopy(c) => RequestQueues(s, CopyMeta(c, s.ss.epoch), 0);
    case EvOther => RequestQueues(s, Other, 0);
    case _ =>
  }

  lemma AcquireFlies(s: State, token: nat, g: Goal, c: Conn, e: nat)
    requires Inv(s) && Enabled(s, EvAcquire(token)) && InFlight(s, g, c, e)
    ensures InFlight(Step(s, EvAcquire(token)), g, c, e)
  {
    Parts(s);
    hide Inv, Continue;
    var i :| 0 <= i < |s.waiting| && Mine(s.waiting[i].kont, g, c, e);
    var t := Step(s, EvAcquire(token));
    if i > 0 { assert t.waiting[i - 1] == s.waiting[i]; }
  }

  lemma OtherResumes(s: State, ok: bool, token: nat, g: Goal, c: Conn, e: nat)
    requires Inv(s) && Enabled(s, EvResume(ok, token)) && InFlight(s, g, c, e)
    requires !Mine(s.running.value.call.kont, g, c, e)
    ensures InFlight(Step(s, EvResume(ok, token)), g, c, e)
  {
    var r := s.running.value;
    var x := ExitCall(s, r);
    ExitSess(s);
    ResumeIs(s, ok, token);
    hide Inv, ExitCall, Continue, Step;
    ContinueQueues(x, r.call.kont, ResumeOk(r, ok), ResumeMade(r), token);
    QueuesKeep(x, Step(s, EvResume(ok, token)), g, c, e);
  }

  /** One step: an op in flight that nothing disturbs and whose store call did not fail stays in flight or
      is there. */
  lemma StepGoesOn(s: State, ev: Event, g: Goal, c: Conn, e: nat)
    requires Inv(s) && Enabled(s, ev) && InFlight(s, g, c, e) && !Fails(s, ev, g, c, e)
    requires Unhindered(s, g, c, e) && Unhindered(Step(s, ev), g, c, e)
    ensures InFlight(Step(s, ev), g, c, e) || Reached(Step(s, ev), g, c)
  {
    hide Inv, Step, InFlight, Reached, Unhindered;
    if ev.EvAcquire? {
      AcquireFlies(s, ev.token, g, c, e);
    } else if ev.EvResume? {
      if Mine(s.running.value.call.kont, g, c, e) { OwnGoesOn(s, ev.ok, ev.token, g, c, e); }
      else { OtherResumes(s, ev.ok, ev.token, g, c, e); }
    } else {
      StepQueues(s, ev);
      QueuesKeep(s, Step(s, ev), g, c, e);
    }
  }

  /** Nothing disturbed the op from state `j` to state `i`, and none of its store calls failed. */
  ghost predicate Clear(states: seq<State>, events: seq<Event>, j: nat, i: nat, g: Goal, c: Conn, e: nat)
    requires |states| == |events| + 1 && j <= i < |states|
  {
    && (forall m :: j <= m <= i ==> Unhindered(states[m], g, c, e))
    && forall m :: j <= m < i ==> !Fails(states[m], events[m], g, c, e)
  }

  lemma ClearPrefix(states: seq<State>, events: seq<Event>, j: nat, i: nat, g: Goal, c: Conn, e: nat)
    requires |states| == |events| + 1 && j < i < |states| && Clear(states, events, j, i, g, c, e)
    ensures Clear(states, events, j, i - 1, g, c, e)
  {
    hide Unhindered, Fails;
  }

  lemma ClearStep(states: seq<State>, events: seq<Event>, j: nat, i: nat, g: Goal, c: Conn, e: nat)
    requires IsRun(states, events) && |states| == |events| + 1 && j < i < |states| && Clear(states, events, j, i, g, c, e)
    requires InFlight(states[i - 1], g, c, e)
    ensures InFlight(states[i], g, c, e) || Reached(states[i], g, c)
  {
    hide IsRun, Inv, Step, InFlight, Reached, Unhindered, Fails, Enabled, Clear;
    RunAt(states, events, i - 1);
    ClearAt(states, events, j, i, g, c, e);
    StepGoesOn(states[i - 1], events[i - 1], g, c, e);
  }

  lemma RunAt(states: seq<State>, events: seq<Event>, i: nat)
    requires IsRun(states, events) && i < |events|
    ensures Inv(states[i]) && Enabled(states[i], events[i]) && states[i + 1] == Step(states[i], events[i])
  {
    hide Inv, Step, Enabled;
    RunInv(states, events, i);
  }

  lemma ClearAt(states: seq<State>, events: seq<Event>, j: nat, i: nat, g: Goal, c: Conn, e: nat)
    requires |states| == |events| + 1 && j < i < |states| && Clear(states, events, j, i, g, c, e)
    ensures Unhindered(states[i - 1], g, c, e) && Unhindered(states[i], g, c, e) && !Fails(states[i - 1], events[i - 1], g, c, e)
  {
    hide Unhindered, Fails;
  }

  /** In every run: an op in flight that no lock, close or failure meets is still in flight, or what it is
      after was opened, granted or handed out meanwhile. */
  lemma {:induction false} GetsThere(states: seq<State>, events: seq<Event>, j: nat, i: nat, g: Goal, c: Conn, e: nat)
    requires IsRun(states, events) && |states| == |events| + 1 && j <= i < |states|
    requires InFlight(states[j], g, c, e) && Clear(states, events, j, i, g, c, e)
    ensures InFlight(states[i], g, c, e) || exists m :: j < m <= i && Reached(states[m], g, c)
  {
    if j < i {
      ClearPrefix(states, events, j, i, g, c, e);
      GetsThere(states, events, j, i - 1, g, c, e);
      if InFlight(states[i - 1], g, c, e) { ClearStep(states, events, j, i, g, c, e); }
      hide IsRun, InFlight, Reached, Clear;
    }
  }

  /** An approval puts its op in flight, unless a lock still waits to wipe. */
  lemma ApprovalStarts(s: State, d: Dialog, token: nat)
    requires Inv(s) && d in s.ss.dialogs && d.conn !in s.ss.closed && !s.ss.wipeAfter
    ensures var t, c, e := Step(s, EvApprove(d, token)), d.conn, s.ss.epoch;
      && (d.ask == AskUnlock ==> InFlight(t, ToUnlock, c, e))
      && (d.ask == AskNames && !Unlocked(s.ss) ==> InFlight(t, ToNames, c, e))
      && (d.ask == AskSignin && s.ss.ui == Some(c) ==> InFlight(t, ToMake(Signin), c, e))
      && (d.ask == AskReset && s.ss.ui == Some(c) ==> InFlight(t, ToReset, c, e))
      && (d.ask == AskMigrate && s.ss.ui == Some(c) ==>
            t.ss.wipeAfter || InFlight(t, ToMake(MigrateBegin), c, t.ss.epoch))
      && (d.ask == AskPurge && s.ss.ui == Some(c) ==> HasTicket(t, Migrate))
  {
    Parts(s);
    var a, c, e := Approved(s, d), d.conn, s.ss.epoch;
    StepApprove(s, EvApprove(d, token));
    assert d.epoch == e;
    hide Inv, Request, InFlight, Lock, Step;
    match d.ask
    case AskUnlock => RequestFlies(a, Unlock(c, e), token, ToUnlock, c, e);
    case AskNames => RequestFlies(a, Names(c, e), token, ToNames, c, e);
    case AskSignin => RequestFlies(a, SigninCheck(c, e), token, ToMake(Signin), c, e);
    case AskReset => RequestFlies(a, ResetCheck(c, e, 2), token, ToReset, c, e);
    case AskMigrate =>
      var l := if Unlocked(a.ss) then OwnLock(a, c, AskMigrate) else a;
      if l.ss.wipeAfter {
        RequestRefused(l, Replace(c, l.ss.epoch, MigrateBegin), token);
      } else {
        RequestFlies(l, Replace(c, l.ss.epoch, MigrateBegin), token, ToMake(MigrateBegin), c, l.ss.epoch);
        RequestIs(l, Replace(c, l.ss.epoch, MigrateBegin), token);
      }
    case AskPurge => assert Ticket(token, Migrate, e) in Issue(a, Migrate, token).ss.tickets;
    case AskOther =>
  }

  lemma RequestRefused(s: State, k: Kont, token: nat)
    requires s.ss.wipeAfter && k.Replace?
    ensures Request(s, k, token) == s
  {
  }

  /** So do op_grant and op_copy. */
  lemma CallStarts(s: State, c: Conn)
    requires Inv(s) && Unlocked(s.ss) && s.ss.tier1 == Some(c)
    ensures InFlight(Step(s, EvGrant(c)), ToGrant, c, s.ss.epoch) && InFlight(Step(s, EvCopy(c)), ToCopy, c, s.ss.epoch)
  {
    Parts(s);
    hide Inv, Request, InFlight;
    RequestFlies(s, GrantMeta(c, s.ss.epoch), 0, ToGrant, c, s.ss.epoch);
    RequestFlies(s, CopyMeta(c, s.ss.epoch), 0, ToCopy, c, s.ss.epoch);
  }

  // --- who the window is --------------------------------------------------------------------------------

  /** A window takes the seat exactly when no other sits there connected, and what was open is locked; the
      one that sits there leaves it only by being detached, and that locks. */
  lemma SeatTaken(s: State, c: Conn)
    requires Inv(s) && c !in s.ss.closed
    ensures var t := Step(s, EvConnect(c)); var free := s.ss.ui.None? || s.ss.ui.value in s.ss.closed;
      && t.ss.ui == (if free then Some(c) else s.ss.ui)
      && (free ==> t.ss.tier1.None? && t.ss.grant.None? && (s.ss.tier1.Some? ==> t.ss.epoch == s.ss.epoch + 1))
      && (!free ==> t == s)
  {
    Parts(s);
    hide Inv;
  }

  lemma SeatLeft(s: State, c: Conn)
    requires c in s.ss.closed && s.ss.ui == Some(c)
    ensures var t := Step(s, EvDetach(c));
      && t.ss.ui.None? && t.ss.tier1.None? && t.ss.autofill.None? && t.ss.grant.None? && t.ss.tickets == {}
      && t.ss.dialogs == {} && s.ss.epoch < t.ss.epoch
  {
  }

  /** The browser's unlock ends with its timer or its connection: alone while the window has tier 1 open, and
      else with a full lock. */
  lemma AutofillEnds(s: State, c: Conn)
    requires s.ss.autofill == Some(c)
    ensures var t := Step(s, EvAutofillEnds);
      t.ss.autofill.None?
      && if Unlocked(s.ss) then t == s.(ss := s.ss.(autofill := None)) else t == Lock(s) && t.ss.epoch == s.ss.epoch + 1
    ensures c in s.ss.closed ==> Step(s, EvDetach(c)).ss.autofill.None?
  {
  }
}
