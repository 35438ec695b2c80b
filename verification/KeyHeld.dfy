/** When the current store loses its key, and a run that leaves the browser's unlock open without it. */
module KeyHeld {
  import opened Wrappers
  import opened Sessions
  import opened Openings

  // --- when the keys go ---------------------------------------------------------------------------------

  /** The rest of this handler wipes the store: its op lost its epoch, its connection or its window. */
  predicate Wipes(s: State, k: Kont, ok: bool) {
    match k
    case Unlock(c, e) => ok && !Same(s.ss, c, e)
    case TpmState(c, e) => s.ss.epoch != e || c in s.ss.closed
    case Names(c, e) => ok && (s.ss.epoch != e || c in s.ss.closed)
    case Settings(c, e, left, _) => !(ok && left > 0) && !Same(s.ss, c, e)
    case _ => false
  }

  /** A store call ends that owes a wipe, or whose handler makes one. */
  predicate TakesKeys(s: State, ev: Event) {
    && Resumed(s, ev)
    && var r := s.running.value;
       (r.epoch != s.ss.epoch && !Unlocked(s.ss)) || Wipes(s, r.call.kont, ResumeOk(r, ev.ok))
  }

  /** Between these two the current store is the same and no lock landed. */
  predicate SameStore(s: State, t: State) { t.cur == s.cur && t.ss.epoch == s.ss.epoch }

  lemma RequestKeepsKeys(s: State, k: Kont, token: nat)
    requires !s.ss.wipeAfter
    ensures var t := Request(s, k, token); t.objs == s.objs && t.cur == s.cur && t.ss.epoch == s.ss.epoch
  {
  }

  lemma LockedRequest(s: State, k: Kont, token: nat)
    requires k.Replace?
    ensures Request(s, k, token).ss.epoch == s.ss.epoch
  {
  }

  lemma WipedNow(s: State)
    requires s.running.None? && s.cur < |s.objs|
    ensures !Get(WipeStore(s), s.cur).keys && WipeStore(s).cur == s.cur && WipeStore(s).ss.epoch == s.ss.epoch
  {
  }

  lemma ContinueTakesKeys(s: State, k: Kont, ok: bool, made: nat, token: nat)
    requires !s.ss.wipeAfter && s.running.None? && s.cur < |s.objs| && made != s.cur
    ensures var t := Continue(s, k, ok, made, token);
      SameStore(s, t) ==> Get(t, t.cur).keys == (Get(s, s.cur).keys && !Wipes(s, k, ok))
  {
    WipedNow(s);
    hide Request, WipeStore, OwnLock;
    match k
    case Unlock(c, e) => RequestKeepsKeys(s, TpmState(c, e), token);
    case SigninCheck(c, e) => RequestKeepsKeys(s, Replace(c, e, Signin), token);
    case ResetCheck(c, e, left) =>
      if left > 0 { RequestKeepsKeys(s, ResetCheck(c, e, left - 1), token); }
      OwnLockIs(s, c, AskReset);
      LockedRequest(OwnLock(s, c, AskReset), Replace(c, s.ss.epoch + 1, Reset), token);
    case Replace(c, e, op) =>
      RequestKeepsKeys(s.(cur := made), Settings(c, e, 1, op), token);
      WipeKeepsCur(s.(cur := made));
    case Settings(c, e, left, op) => if left > 0 { RequestKeepsKeys(s, Settings(c, e, left - 1, op), token); }
    case GrantMeta(c, e) => RequestKeepsKeys(s.(ss := s.ss.(grant := None)), GrantOpen(c, e), token);
    case _ =>
  }

  lemma WipeKeepsCur(s: State)
    ensures WipeStore(s).cur == s.cur
  {
  }

  lemma ExitTakesKeys(s: State)
    requires Inv(s) && s.running.Some? && s.running.value.done && !s.ss.wipeAfter
    ensures var x, r := ExitCall(s, s.running.value), s.running.value;
      && SameStore(s, x) && x.cur < |x.objs| && x.ss.ui == s.ss.ui && x.ss.closed == s.ss.closed
      && Get(x, x.cur).keys == (Get(s, s.cur).keys && !(r.epoch != s.ss.epoch && !Unlocked(s.ss)))
      && (r.made.Some? ==> r.made.value != s.cur)
  {
    Parts(s);
  }

  lemma ResumeTakesKeys(s: State, ok: bool, token: nat)
    requires Inv(s) && Enabled(s, EvResume(ok, token)) && !s.ss.wipeAfter
    ensures var ev := EvResume(ok, token); var t := Step(s, ev);
      SameStore(s, t) ==> Get(t, t.cur).keys == (Get(s, s.cur).keys && !TakesKeys(s, ev))
  {
    var r := s.running.value;
    var x := ExitCall(s, r);
    ExitSess(s);
    ResumeIs(s, ok, token);
    ExitTakesKeys(s);
    hide ExitCall, Inv, Continue, Step;
    var made := if r.made.Some? then r.made.value else x.cur + 1;
    ContinueTakesKeys(x, r.call.kont, ResumeOk(r, ok), made, token);
    MadeMatters(x, r, ok, made, token);
  }

  /** Only a create or reset that made an object looks at it. */
  lemma MadeMatters(x: State, r: Run, ok: bool, made: nat, token: nat)
    requires r.made.Some? ==> made == r.made.value
    ensures Continue(x, r.call.kont, ResumeOk(r, ok), ResumeMade(r), token) == Continue(x, r.call.kont, ResumeOk(r, ok), made, token)
  {
    hide Request, WipeStore, OwnLock;
  }

  lemma ApproveKeepsKeys(s: State, d: Dialog, token: nat)
    requires !s.ss.wipeAfter
    ensures var t := Approve(s, d, token); SameStore(s, t) ==> Get(t, t.cur).keys == Get(s, s.cur).keys
  {
    hide Request, WipeStore, OwnLock;
    var a, c, e := Approved(s, d), d.conn, s.ss.epoch;
    match d.ask
    case AskUnlock => RequestKeepsKeys(a, Unlock(c, e), token);
    case AskNames => RequestKeepsKeys(a, Names(c, e), token);
    case AskSignin => RequestKeepsKeys(a, SigninCheck(c, d.epoch), token);
    case AskReset => RequestKeepsKeys(a, ResetCheck(c, d.epoch, 2), token);
    case AskMigrate =>
      OwnLockIs(a, c, AskMigrate);
      LockedRequest(OwnLock(a, c, AskMigrate), Replace(c, OwnLock(a, c, AskMigrate).ss.epoch, MigrateBegin), token);
      RequestKeepsKeys(a, Replace(c, e, MigrateBegin), token);
    case AskPurge =>
    case AskOther => RequestKeepsKeys(a, Other, token);
  }

  lemma WorkerKeepsKeys(s: State, ev: Event)
    requires Inv(s) && Enabled(s, ev) && WorkerEvent(ev) && !s.ss.wipeAfter && Get(s, s.cur).keys
    ensures var t := Step(s, ev); SameStore(s, t) && Get(t, t.cur).keys
  {
    Parts(s);
    hide Core, KeysOk, Inv;
  }

  lemma LockingKeepsKeys(s: State, ev: Event)
    requires Enabled(s, ev) && Locking(ev)
    ensures var t := Step(s, ev); SameStore(s, t) ==> Get(t, t.cur).keys == Get(s, s.cur).keys
  {
  }

  lemma TableKeepsKeys(s: State, ev: Event)
    requires Enabled(s, ev) && !ev.EvResume? && !ev.EvApprove? && !WorkerEvent(ev) && !Locking(ev) && !s.ss.wipeAfter
    ensures var t := Step(s, ev); SameStore(s, t) ==> Get(t, t.cur).keys == Get(s, s.cur).keys
  {
    hide Request, Continue;
    match ev
    case EvGrant(c) => RequestKeepsKeys(s, GrantMeta(c, s.ss.epoch), 0);
    case EvCopy(c) => RequestKeepsKeys(s, CopyMeta(c, s.ss.epoch), 0);
    case EvOther => RequestKeepsKeys(s, Other, 0);
    case _ =>
  }

  /** With no wipe left over and no lock in the step, the current store loses its key exactly at the end of
      a store call that got the store lock in an older epoch while no window has tier 1 open, or whose
      handler finds that its op lost its epoch, its connection or its window. */
  lemma KeysGoExactly(s: State, ev: Event)
    requires Inv(s) && Enabled(s, ev) && !s.ss.wipeAfter && Get(s, s.cur).keys && SameStore(s, Step(s, ev))
    ensures !Get(Step(s, ev), s.cur).keys <==> TakesKeys(s, ev)
  {
    hide Inv, Continue, Step;
    if ev.EvResume? { ResumeTakesKeys(s, ev.ok, ev.token); }
    else if ev.EvApprove? { StepApprove(s, ev); ApproveKeepsKeys(s, ev.dialog, ev.token); }
    else if WorkerEvent(ev) { WorkerKeepsKeys(s, ev); }
    else if Locking(ev) { LockingKeepsKeys(s, ev); }
    else { TableKeepsKeys(s, ev); }
  }

  // --- open without the key ---------------------------------------------------------------------------

  /** One more step of a run. */
  lemma Extend(states: seq<State>, events: seq<Event>, ev: Event) returns (states': seq<State>, events': seq<Event>)
    requires IsRun(states, events) && |states| == |events| + 1 && Enabled(states[|events|], ev)
    ensures IsRun(states', events') && |states'| == |events'| + 1 && |events'| == |events| + 1
    ensures states'[|events'|] == Step(states[|events|], ev)
  {
    hide Step, Enabled;
    states', events' := states + [Step(states[|events|], ev)], events + [ev];
  }

  /** The states of the run below: the window is `c`, the browser's connection `b`, the store is the one its migration made. */
  function At(c: Conn, b: Conn, epoch: nat, dialogs: set<Dialog>, keys: bool, waiting: seq<Call>, running: Option<Run>): State {
    State(Sess(epoch, Some(c), None, None, {}, false, false, None, {}, dialogs), [Obj(false, false), Obj(keys, false)], 1,
          waiting, running, if epoch == 0 then {(c, AskMigrate, 0)} else {(c, AskMigrate, 0), (b, AskNames, 1)}, {})
  }

  function Saving(c: Conn, left: nat): Call { Call(Settings(c, 0, left, MigrateBegin), 1) }

  function Runs(call: Call, epoch: nat, done: bool): Option<Run> {
    Some(Run(call, epoch, Outside, false, false, None, done))
  }

  lemma Asked(s: State, k: Kont)
    requires !s.ss.wipeAfter
    ensures Request(s, k, 0) == if s.running.None? && s.waiting == [] then Begin(s, Call(k, s.cur))
                                else s.(waiting := s.waiting + [Call(k, s.cur)])
  {
  }

  /** A call that ends: what its exit leaves, and where its handler goes on. */
  lemma Resumes(s: State, x: State)
    requires s.running.Some? && s.running.value.done && ExitCall(s, s.running.value) == x
    ensures Step(s, EvResume(true, 0))
      == Continue(x, s.running.value.call.kont, ResumeOk(s.running.value, true), ResumeMade(s.running.value), 0)
  {
    hide Continue, ExitCall;
  }

  lemma MigrationSteps(c: Conn, b: Conn)
    ensures var d := Dialog(c, AskMigrate, 0);
      var s0 := State(Sess(0, None, None, None, {}, false, false, None, {}, {}), [Obj(false, false)], 0, [], None, {}, {});
      var s1 := s0.(ss := s0.ss.(ui := Some(c)));
      var s2 := s1.(ss := s1.ss.(dialogs := {d}));
      var r := Run(Call(Replace(c, 0, MigrateBegin), 0), 0, Outside, false, false, None, false);
      var s3 := s1.(ss := s1.ss.(replacing := true), running := Some(r), approved := {(c, AskMigrate, 0)});
      var s4 := s3.(objs := [Obj(false, false), Obj(true, false)], running := Some(r.(made := Some(1), done := true)));
      && Init(s0) && Step(s0, EvConnect(c)) == s1 && Step(s1, EvAsk(c, AskMigrate)) == s2
      && Step(s2, EvApprove(d, 0)) == s3 && Step(s3, EvMake(true)) == s4 && s4 == Made(c)
  {
    hide Continue, ExitCall, Lock, CloseAutofill;
    assert {Dialog(c, AskMigrate, 0)} - {Dialog(c, AskMigrate, 0)} == {};
  }

  function Made(c: Conn): State {
    State(Sess(0, Some(c), None, None, {}, false, true, None, {}, {}), [Obj(false, false), Obj(true, false)], 0, [],
          Some(Run(Call(Replace(c, 0, MigrateBegin), 0), 0, Outside, false, false, Some(1), true)), {(c, AskMigrate, 0)}, {})
  }

  lemma MigrationMakes(c: Conn, b: Conn)
    ensures Step(Made(c), EvResume(true, 0)) == At(c, b, 0, {}, true, [], Runs(Saving(c, 1), 0, false))
  {
    var x := At(c, b, 0, {}, true, [], None).(cur := 0);
    Resumes(Made(c), x);
    Asked(x.(cur := 1), Settings(c, 0, 1, MigrateBegin));
    hide Step, Request, ExitCall;
  }

  /** A migration made its store and is in the first of its two calls that save the settings. */
  lemma MigrationRuns(c: Conn, b: Conn) returns (states: seq<State>, events: seq<Event>)
    ensures IsRun(states, events) && |states| == |events| + 1
    ensures states[|events|] == At(c, b, 0, {}, true, [], Runs(Saving(c, 1), 0, false))
  {
    MigrationSteps(c, b);
    MigrationMakes(c, b);
    states, events := [State(Sess(0, None, None, None, {}, false, false, None, {}, {}), [Obj(false, false)], 0, [], None, {}, {})], [];
    assert IsRun(states, events);
    hide IsRun, Step;
    states, events := Extend(states, events, EvConnect(c));
    states, events := Extend(states, events, EvAsk(c, AskMigrate));
    states, events := Extend(states, events, EvApprove(Dialog(c, AskMigrate, 0), 0));
    states, events := Extend(states, events, EvMake(true));
    states, events := Extend(states, events, EvResume(true, 0));
  }

  function Locked(c: Conn, b: Conn, dialogs: set<Dialog>): State {
    At(c, b, 1, dialogs, false, [], Runs(Saving(c, 1), 0, false)).(approved := {(c, AskMigrate, 0)})
  }

  lemma LockSteps(c: Conn, b: Conn)
    ensures var d, u := Dialog(b, AskNames, 1), Call(Names(b, 1), 1);
      && Step(At(c, b, 0, {}, true, [], Runs(Saving(c, 1), 0, false)), EvLock) == Locked(c, b, {})
      && Step(Locked(c, b, {}), EvAsk(b, AskNames)) == Locked(c, b, {d})
      && Step(Locked(c, b, {d}), EvApprove(d, 0)) == At(c, b, 1, {}, false, [u], Runs(Saving(c, 1), 0, false))
  {
    var d := Dialog(b, AskNames, 1);
    assert {d} - {d} == {};
    assert {(c, AskMigrate, 0)} + {(b, AskNames, 1)} == {(c, AskMigrate, 0), (b, AskNames, 1)};
    assert [] + [Call(Names(b, 1), 1)] == [Call(Names(b, 1), 1)];
  }

  lemma QueueSteps(c: Conn, b: Conn)
    ensures var u := Call(Names(b, 1), 1);
      && Step(At(c, b, 1, {}, false, [u], Runs(Saving(c, 1), 0, false)), EvReturn) == At(c, b, 1, {}, false, [u], Runs(Saving(c, 1), 0, true))
      && Step(At(c, b, 1, {}, false, [u], Runs(Saving(c, 1), 0, true)), EvResume(true, 0)) == At(c, b, 1, {}, false, [u, Saving(c, 0)], None)
  {
    var s, x := At(c, b, 1, {}, false, [Call(Names(b, 1), 1)], Runs(Saving(c, 1), 0, true)), At(c, b, 1, {}, false, [Call(Names(b, 1), 1)], None);
    Resumes(s, x);
    Asked(x, Settings(c, 0, 0, MigrateBegin));
    hide Request, ExitCall;
    assert [Call(Names(b, 1), 1)] + [Saving(c, 0)] == [Call(Names(b, 1), 1), Saving(c, 0)];
  }

  /** A lock lands there, and the browser's user unlocks: the unlock waits behind the first call and the second
      call behind the unlock. */
  lemma UnlockBetween(c: Conn, b: Conn) returns (states: seq<State>, events: seq<Event>)
    ensures IsRun(states, events) && |states| == |events| + 1
    ensures states[|events|] == At(c, b, 1, {}, false, [Call(Names(b, 1), 1), Saving(c, 0)], None)
  {
    states, events := MigrationRuns(c, b);
    LockSteps(c, b);
    QueueSteps(c, b);
    hide IsRun, Step;
    states, events := Extend(states, events, EvLock);
    states, events := Extend(states, events, EvAsk(b, AskNames));
    states, events := Extend(states, events, EvApprove(Dialog(b, AskNames, 1), 0));
    states, events := Extend(states, events, EvReturn);
    states, events := Extend(states, events, EvResume(true, 0));
  }

  function Unlocking(c: Conn, b: Conn, phase: Phase, entered: bool, unsealed: bool, done: bool): State {
    At(c, b, 1, {}, unsealed, [Saving(c, 0)], Some(Run(Call(Names(b, 1), 1), 1, phase, entered, unsealed, None, done)))
  }

  lemma UnlockSteps(c: Conn, b: Conn)
    ensures var u := Call(Names(b, 1), 1);
      && Step(At(c, b, 1, {}, false, [u, Saving(c, 0)], None), EvAcquire(0)) == Unlocking(c, b, Outside, false, false, false)
      && Step(Unlocking(c, b, Outside, false, false, false), EvEnter) == Unlocking(c, b, Inside, true, false, false)
      && Step(Unlocking(c, b, Inside, true, false, false), EvBody(true)) == Unlocking(c, b, Inside, true, true, false)
  {
    hide Continue, ExitCall, Request;
    assert [Call(Names(b, 1), 1), Saving(c, 0)][1..] == [Saving(c, 0)];
  }

  lemma LeaveSteps(c: Conn, b: Conn)
    ensures Step(Unlocking(c, b, Inside, true, true, false), EvLeave) == Unlocking(c, b, Leaving, true, true, false)
      && Step(Unlocking(c, b, Leaving, true, true, false), EvRelax) == Unlocking(c, b, Outside, true, true, false)
      && Step(Unlocking(c, b, Outside, true, true, false), EvReturn) == Unlocking(c, b, Outside, true, true, true)
  {
    hide Continue, ExitCall, Request;
  }

  lemma UnlockDone(c: Conn, b: Conn)
    ensures Step(Unlocking(c, b, Outside, true, true, true), EvResume(true, 0))
      == OpenAutofill(At(c, b, 1, {}, true, [Saving(c, 0)], None), b)
  {
    Resumes(Unlocking(c, b, Outside, true, true, true), At(c, b, 1, {}, true, [Saving(c, 0)], None));
    hide Step, Request, ExitCall;
  }

  lemma UnlockEnds(c: Conn, b: Conn) returns (states: seq<State>, events: seq<Event>)
    ensures IsRun(states, events) && |states| == |events| + 1
    ensures states[|events|] == OpenAutofill(At(c, b, 1, {}, true, [Saving(c, 0)], None), b)
  {
    states, events := UnlockBetween(c, b);
    UnlockSteps(c, b);
    LeaveSteps(c, b);
    UnlockDone(c, b);
    hide IsRun, Step;
    states, events := Extend(states, events, EvAcquire(0));
    states, events := Extend(states, events, EvEnter);
    states, events := Extend(states, events, EvBody(true));
    states, events := Extend(states, events, EvLeave);
    states, events := Extend(states, events, EvRelax);
    states, events := Extend(states, events, EvReturn);
    states, events := Extend(states, events, EvResume(true, 0));
  }

  function Open(c: Conn, b: Conn, keys: bool, waiting: seq<Call>, running: Option<Run>): State {
    OpenAutofill(At(c, b, 1, {}, keys, waiting, running), b)
  }

  lemma SaveStarts(c: Conn, b: Conn)
    ensures Step(Open(c, b, true, [Saving(c, 0)], None), EvAcquire(0)) == Open(c, b, true, [], Runs(Saving(c, 0), 1, false))
  {
    hide Continue, Request, ExitCall;
  }

  lemma SaveReturns(c: Conn, b: Conn)
    ensures Step(Open(c, b, true, [], Runs(Saving(c, 0), 1, false)), EvReturn) == Open(c, b, true, [], Runs(Saving(c, 0), 1, true))
  {
    hide Continue, Request, ExitCall;
  }

  lemma SaveWipes(c: Conn, b: Conn)
    ensures Step(Open(c, b, true, [], Runs(Saving(c, 0), 1, true)), EvResume(true, 0)) == Open(c, b, false, [], None)
  {
    Resumes(Open(c, b, true, [], Runs(Saving(c, 0), 1, true)), Open(c, b, true, [], None));
    hide Step, Request, ExitCall;
  }

  /** A run in which the browser's unlock is open on a store without its key: the migration that a lock ended
      goes on to its second call without looking, and at the end of it wipes the store that the browser's
      unlock has opened since. Nothing runs or waits, and no wipe is left over. */
  lemma OpenWithoutKey(c: Conn, b: Conn) returns (states: seq<State>, events: seq<Event>)
    requires b != c
    ensures IsRun(states, events) && |states| == |events| + 1
    ensures var s := states[|events|];
      && s.ss.autofill == Some(b) && b !in s.ss.closed && !Get(s, s.cur).keys
      && s.running.None? && s.waiting == [] && !s.ss.wipeAfter
  {
    states, events := UnlockEnds(c, b);
    SaveStarts(c, b);
    SaveReturns(c, b);
    SaveWipes(c, b);
    hide IsRun, Step;
    states, events := Extend(states, events, EvAcquire(0));
    states, events := Extend(states, events, EvReturn);
    states, events := Extend(states, events, EvResume(true, 0));
  }

  /** Nothing else can go wrong: over any stretch of a run in one epoch, with one store and no wipe left over, a
      store that has its key keeps it unless a call that ends in between takes it. */
  lemma {:induction false} KeyStays(states: seq<State>, events: seq<Event>, i: nat, j: nat)
    requires IsRun(states, events) && i <= j < |states| && Get(states[i], states[i].cur).keys
    requires |states| == |events| + 1
    requires forall m :: i <= m < j ==> SameStore(states[m], states[m + 1]) && !states[m].ss.wipeAfter
    ensures Get(states[j], states[j].cur).keys || exists m :: i <= m < j && TakesKeys(states[m], events[m])
  {
    hide IsRun, Inv, Step, TakesKeys, Enabled, Get;
    if i < j {
      KeyStays(states, events, i, j - 1);
      RunAt(states, events, j - 1);
      if Get(states[j - 1], states[j - 1].cur).keys { KeysGoExactly(states[j - 1], events[j - 1]); }
    }
  }

  /** The unlock itself puts the key into the store it was asked for, and no other call does. */
  lemma UnlockPutsKey(s: State, ok: bool)
    requires Inv(s) && Enabled(s, EvBody(ok))
    ensures var t, r := Step(s, EvBody(ok)), s.running.value;
      && r.call.obj < |s.objs|
      && t.objs == (if IsUnlock(r.call.kont) && ok then s.objs[r.call.obj := s.objs[r.call.obj].(keys := true)] else s.objs)
  {
    Parts(s);
  }
}
