/** One uid of the daemon: its session, its store's mutex, and the handlers that open tier 1
    (backend/icp/daemon/sessions.py, handlers.py, autofill.py; the mutex of
    backend/icp/vstore/__init__.py).

    The event loop runs handler segments, each from one await to the next, without interruption.
    A worker thread runs one store call at a time, as separate steps: method entry, body, exit
    check, mutex release. Every step is an `Event`; a run is any sequence of enabled events. */
module Sessions {
  import opened Wrappers

  type Conn = nat

  /** A UserStore object: whether RK_list is in memory, and _wipe_req. */
  datatype Obj = Obj(keys: bool, wipeReq: bool)

  datatype Role = Clip | Migrate

  datatype Ticket = Ticket(token: nat, role: Role, epoch: nat)

  datatype Ask = AskUnlock | AskNames | AskSignin | AskMigrate | AskReset | AskPurge | AskOther

  /** A polkit dialog that is up, and the epoch at which it was raised. */
  datatype Dialog = Dialog(conn: Conn, ask: Ask, epoch: nat)

  /** The ops that make a new store. */
  datatype Op = Signin | MigrateBegin | Reset

  /** What is left of a handler when its store call returns. `epoch` is the session's when the
      handler took it, after the dialog was approved and after any lock of its own. */
  datatype Kont =
    | Unlock(conn: Conn, epoch: nat)                // op_unlock, in UserStore.unlock
    | TpmState(conn: Conn, epoch: nat)              // op_unlock, in tpm_move_state
    | Names(conn: Conn, epoch: nat)                 // _unlock_for_names, in UserStore.unlock
    | SigninCheck(conn: Conn, epoch: nat)           // op_signin, in state
    | ResetCheck(conn: Conn, epoch: nat, left: nat) // op_reset, in its reads
    | Replace(conn: Conn, epoch: nat, op: Op)       // _replace_store, in create or reset
    | Settings(conn: Conn, epoch: nat, left: nat, op: Op) // then, saving settings
    | GrantMeta(conn: Conn, epoch: nat)             // op_grant, in get_meta
    | GrantOpen(conn: Conn, epoch: nat)             // op_grant, in open_entry
    | CopyMeta(conn: Conn, epoch: nat)              // op_copy, in get_meta
    | Other                                         // any other handler

  /** A run_store call; `obj` is the store object its handler bound. */
  datatype Call = Call(kont: Kont, obj: nat)

  /** Where the worker is: outside every serialized method, in one after its entry check, or in one
      after its exit check with the mutex still held. */
  datatype Phase = Outside | Inside | Leaving

  /** The call that holds the store lock, and the epoch when it got it. `unsealed` says that its
      unlock put the keys in memory; `made` is the object its create or reset made. */
  datatype Run = Run(call: Call, epoch: nat, phase: Phase, entered: bool, unsealed: bool,
                     made: Option<nat>, done: bool)

  /** The Session's own fields, and what the registry keeps for its uid. */
  datatype Sess = Sess(epoch: nat, ui: Option<Conn>, tier1: Option<Conn>, autofill: Option<Conn>,
                       closed: set<Conn>, wipeAfter: bool, replacing: bool,
                       grant: Option<nat>, tickets: set<Ticket>, dialogs: set<Dialog>)

  /** `objs` are the store objects made so far, `cur` is s.store, `waiting` the calls queued on the
      store lock. `approved` and `locked` are history: a dialog of this connection and kind was
      approved in this epoch; the op that followed such an approval then locked, into this epoch. */
  datatype State = State(ss: Sess, objs: seq<Obj>, cur: nat, waiting: seq<Call>, running: Option<Run>,
                         approved: set<(Conn, Ask, nat)>, locked: set<(Conn, Ask, nat)>)

  // --- the store's mutex and the wipe ------------------------------------------------------------

  /** try_lock: the request is set first; the keys go at once unless a call holds the mutex. */
  function TryLock(o: Obj, held: bool): (Obj, bool) {
    if held then (o.(wipeReq := true), false) else (Obj(false, false), true)
  }

  /** The entry check of a serialized method: a pending request wipes and refuses. */
  function Enter(o: Obj): (Obj, bool) {
    if o.wipeReq then (o.(keys := false), false) else (o, true)
  }

  /** The exit check: a request that landed meanwhile is carried out. */
  function Leave(o: Obj): Obj {
    if o.wipeReq then o.(keys := false) else o
  }

  /** _wipe_store */
  function Wipe(ss: Sess, o: Obj, held: bool): (Sess, Obj) {
    var (o', done) := TryLock(o, held);
    (ss.(wipeAfter := !(done && !ss.replacing)), o')
  }

  /** Registry.lock up to _wipe_store: everything open or pending ends and the epoch moves. */
  function Cleared(ss: Sess): Sess {
    ss.(epoch := ss.epoch + 1, tier1 := None, autofill := None, grant := None, tickets := {}, dialogs := {})
  }

  function LockBoth(ss: Sess, o: Obj, held: bool): (Sess, Obj) { Wipe(Cleared(ss), o, held) }

  predicate Unlocked(ss: Sess) {
    ss.tier1.Some? && ss.tier1 == ss.ui && ss.tier1.value !in ss.closed
  }

  /** _still: nothing locked since `epoch` and this is still the tier-1 window. */
  predicate Still(ss: Sess, c: Conn, epoch: nat) {
    ss.epoch == epoch && Unlocked(ss) && ss.tier1 == Some(c)
  }

  /** The check of _not_locked_since and op_unlock. */
  predicate Same(ss: Sess, c: Conn, epoch: nat) {
    ss.epoch == epoch && c !in ss.closed && ss.ui == Some(c)
  }

  function CloseAutofillBoth(ss: Sess, o: Obj, held: bool): (Sess, Obj) {
    if ss.autofill.None? then (ss, o)
    else if Unlocked(ss) then (ss.(autofill := None), o)
    else LockBoth(ss, o, held)
  }

  // --- the same on the whole state ------------------------------------------------------------------

  function Get(s: State, o: nat): Obj { if o < |s.objs| then s.objs[o] else Obj(false, false) }

  function Set(s: State, o: nat, v: Obj): State {
    if o < |s.objs| then s.(objs := s.objs[o := v]) else s
  }

  predicate IsUnlock(k: Kont) { k.Unlock? || k.Names? }

  predicate Holds(r: Run, o: nat) { !r.call.kont.Replace? && r.call.obj == o && r.phase != Outside }

  /** Whether a worker holds the mutex of object `o`. */
  predicate Held(s: State, o: nat) { s.running.Some? && Holds(s.running.value, o) }

  function WithCur(s: State, both: (Sess, Obj)): State {
    Set(s, s.cur, both.1).(ss := both.0)
  }

  function WipeStore(s: State): State { WithCur(s, Wipe(s.ss, Get(s, s.cur), Held(s, s.cur))) }

  function Lock(s: State): State { WithCur(s, LockBoth(s.ss, Get(s, s.cur), Held(s, s.cur))) }

  /** The lock an op makes itself after its approval. */
  function OwnLock(s: State, c: Conn, ask: Ask): State {
    var l := Lock(s);
    l.(locked := l.locked + {(c, ask, l.ss.epoch)})
  }

  function CloseAutofill(s: State): State {
    WithCur(s, CloseAutofillBoth(s.ss, Get(s, s.cur), Held(s, s.cur)))
  }

  function OpenTier1(s: State, c: Conn): State { s.(ss := s.ss.(tier1 := Some(c))) }

  function OpenAutofill(s: State, c: Conn): State { s.(ss := s.ss.(autofill := Some(c))) }

  function Issue(s: State, role: Role, token: nat): State {
    s.(ss := s.ss.(tickets := s.ss.tickets + {Ticket(token, role, s.ss.epoch)}))
  }

  function RevokeClip(s: State): State {
    s.(ss := s.ss.(tickets := set t | t in s.ss.tickets && t.role != Clip))
  }

  // --- handlers ---------------------------------------------------------------------------------------

  function Rank(k: Kont): nat {
    match k
    case Unlock(_, _) => 1
    case SigninCheck(_, _) => 4
    case ResetCheck(_, _, left) => 4 + left
    case Replace(_, _, _) => 3
    case Settings(_, _, left, _) => left
    case GrantMeta(_, _) => 1
    case _ => 0
  }

  function Begin(s: State, call: Call): State {
    s.(running := Some(Run(call, s.ss.epoch, Outside, false, false, None, false)),
       ss := s.ss.(replacing := call.kont.Replace?))
  }

  /** run_store up to its first await: refused while a wipe is pending, else the store lock at once
      or a place in its queue. */
  function Request(s: State, k: Kont, token: nat): State
    decreases Rank(k), 1
  {
    if s.ss.wipeAfter then Continue(s, k, false, 0, token)
    else if s.running.None? && s.waiting == [] then Begin(s, Call(k, s.cur))
    else s.(waiting := s.waiting + [Call(k, s.cur)])
  }

  /** The segment of handler `k` after its store call returned (`ok`) or raised. `made` is the
      object a create or reset returned, `token` a fresh ticket token. */
  function Continue(s: State, k: Kont, ok: bool, made: nat, token: nat): State
    decreases Rank(k), 0
  {
    match k
    case Unlock(c, e) =>
      if !ok then s
      else if !Same(s.ss, c, e) then WipeStore(s)
      else Request(s, TpmState(c, e), token)
    case TpmState(c, e) =>
      if s.ss.epoch != e || c in s.ss.closed then WipeStore(s) else OpenTier1(s, c)
    case Names(c, e) =>
      if !ok then s
      else if s.ss.epoch != e || c in s.ss.closed then WipeStore(s)
      else OpenAutofill(s, c)
    case SigninCheck(c, e) =>
      if !ok || s.ss.epoch != e then s else Request(s, Replace(c, e, Signin), token)
    case ResetCheck(c, e, left) =>
      if !ok then s
      else if left > 0 then Request(s, ResetCheck(c, e, left - 1), token)
      else if !Same(s.ss, c, e) then s
      else
        var l := OwnLock(s, c, AskReset);
        Request(l, Replace(c, l.ss.epoch, Reset), token)
    case Replace(c, e, op) =>
      if !ok then s
      else
        var n := s.(cur := made);
        if !Same(n.ss, c, e) then WipeStore(n)
        else if op == Signin then OpenTier1(n, c)
        else Request(n, Settings(c, e, 1, op), token)
    case Settings(c, e, left, op) =>
      if ok && left > 0 then Request(s, Settings(c, e, left - 1, op), token)
      else if !Same(s.ss, c, e) then WipeStore(s)
      else if op == MigrateBegin then Issue(OpenTier1(s, c), Migrate, token)
      else OpenTier1(s, c)
    case GrantMeta(c, e) =>
      if !ok || !Still(s.ss, c, e) then s
      else Request(s.(ss := s.ss.(grant := None)), GrantOpen(c, e), token)
    case GrantOpen(c, e) =>
      if !ok || !Still(s.ss, c, e) then s else s.(ss := s.ss.(grant := Some(s.ss.epoch)))
    case CopyMeta(c, e) =>
      if !ok || !Still(s.ss, c, e) then s else Issue(RevokeClip(s), Clip, token)
    case Other => s
  }

  /** The end of run_store, before its caller goes on. */
  function ExitCall(s: State, r: Run): State {
    var a := s.(ss := s.ss.(replacing := false));
    var b := if r.made.Some? && a.ss.epoch != r.epoch then Set(a, r.made.value, Obj(false, false)) else a;
    var c := if b.ss.wipeAfter || (b.ss.epoch != r.epoch && !Unlocked(b.ss)) then WipeStore(b) else b;
    c.(running := None)
  }

  /** polkit's approval arrives while the dialog is up. */
  function Approved(s: State, d: Dialog): State {
    s.(ss := s.ss.(dialogs := s.ss.dialogs - {d}), approved := s.approved + {(d.conn, d.ask, s.ss.epoch)})
  }

  function Approve(s: State, d: Dialog, token: nat): State {
    var a := Approved(s, d);
    var c := d.conn;
    if c in s.ss.closed then s.(ss := a.ss)
    else
      match d.ask
      case AskUnlock => Request(a, Unlock(c, a.ss.epoch), token)
      case AskNames => if Unlocked(s.ss) then a else Request(a, Names(c, a.ss.epoch), token)
      case AskSignin => if !Same(s.ss, c, d.epoch) then a else Request(a, SigninCheck(c, d.epoch), token)
      case AskReset => if !Same(s.ss, c, d.epoch) then a else Request(a, ResetCheck(c, d.epoch, 2), token)
      case AskMigrate =>
        if !Same(s.ss, c, d.epoch) then a
        else
          var l := if Unlocked(a.ss) then OwnLock(a, c, AskMigrate) else a;
          Request(l, Replace(c, l.ss.epoch, MigrateBegin), token)
      case AskPurge => if !Same(s.ss, c, d.epoch) then a else Issue(a, Migrate, token)
      case AskOther => Request(a, Other, token)
  }

  function Connect(s: State, c: Conn): State {
    if s.ss.ui.Some? && s.ss.ui.value !in s.ss.closed then s
    else
      var l := if s.ss.tier1.Some? then Lock(s) else s;
      l.(ss := l.ss.(ui := Some(c)))
  }

  function Detach(s: State, c: Conn): State {
    var a := s.(ss := s.ss.(dialogs := set d | d in s.ss.dialogs && d.conn != c));
    var b := if a.ss.autofill == Some(c) then CloseAutofill(a) else a;
    if b.ss.ui != Some(c) then b
    else
      var l := Lock(b);
      l.(ss := l.ss.(ui := None))
  }

  // --- steps ------------------------------------------------------------------------------------------

  datatype Event =
    | EvConnect(conn: Conn) | EvClose(conn: Conn) | EvDetach(conn: Conn)
    | EvLock                            // op_lock, sign-out, idle, sleep, logind, a second hello
    | EvAutofillEnds                    // its timer
    | EvAsk(conn: Conn, ask: Ask) | EvDismiss(dialog: Dialog) | EvApprove(dialog: Dialog, token: nat)
    | EvGrant(conn: Conn) | EvRelease   // op_grant; release, expiry or a used single-use grant
    | EvCopy(conn: Conn) | EvCopyNow(conn: Conn, token: nat) | EvRedeem(ticket: Ticket)
    | EvOther                           // any other store call
    | EvAcquire(token: nat)             // the first waiting call gets the store lock
    | EvEnter | EvBody(ok: bool) | EvLeave | EvRelax | EvMake(ok: bool) | EvReturn
    | EvResume(ok: bool, token: nat)    // the handler goes on

  predicate Enabled(s: State, ev: Event) {
    match ev
    case EvConnect(c) => c !in s.ss.closed
    case EvClose(_) => true
    case EvDetach(c) => c in s.ss.closed
    case EvLock => true
    case EvAutofillEnds => true
    case EvAsk(c, _) => c !in s.ss.closed
    case EvDismiss(d) => d in s.ss.dialogs
    case EvApprove(d, _) => d in s.ss.dialogs
    case EvGrant(c) => Unlocked(s.ss) && s.ss.tier1 == Some(c)
    case EvRelease => true
    case EvCopy(c) => Unlocked(s.ss) && s.ss.tier1 == Some(c)
    case EvCopyNow(c, _) => Unlocked(s.ss) && s.ss.tier1 == Some(c)
    case EvRedeem(t) => t in s.ss.tickets
    case EvOther => true
    case EvAcquire(_) => s.running.None? && s.waiting != []
    case EvEnter => Working(s) && Methods(s) && s.running.value.phase == Outside &&
      (IsUnlock(s.running.value.call.kont) ==> !s.running.value.entered)
    case EvBody(_) => Working(s) && s.running.value.phase == Inside
    case EvLeave => Working(s) && s.running.value.phase == Inside
    case EvRelax => Working(s) && s.running.value.phase == Leaving
    case EvMake(_) => Working(s) && !Methods(s)
    case EvReturn => Working(s) && Methods(s) && s.running.value.phase == Outside &&
      (IsUnlock(s.running.value.call.kont) ==> s.running.value.entered)
    case EvResume(_, _) => s.running.Some? && s.running.value.done
  }

  predicate Working(s: State) { s.running.Some? && !s.running.value.done }

  predicate Methods(s: State) { s.running.Some? && !s.running.value.call.kont.Replace? }

  function WithRun(s: State, r: Run): State { s.(running := Some(r)) }

  function EnterStep(s: State, r: Run): State {
    var (o, runs) := Enter(Get(s, r.call.obj));
    WithRun(Set(s, r.call.obj, o), r.(phase := if runs then Inside else Leaving, entered := true))
  }

  /** Only UserStore.unlock puts a key in memory; the other methods need it there and keep it. */
  function BodyStep(s: State, r: Run, ok: bool): State {
    if IsUnlock(r.call.kont) && ok
    then WithRun(Set(s, r.call.obj, Get(s, r.call.obj).(keys := true)), r.(unsealed := true))
    else s
  }

  function ResumeStep(s: State, r: Run, ok: bool, token: nat): State {
    var k := r.call.kont;
    Continue(ExitCall(s, r), k,
      if IsUnlock(k) then r.unsealed else if k.Replace? then r.made.Some? else ok,
      if r.made.Some? then r.made.value else 0, token)
  }

  function Step(s: State, ev: Event): State
    requires Enabled(s, ev)
  {
    match ev
    case EvConnect(c) => Connect(s, c)
    case EvClose(c) => s.(ss := s.ss.(closed := s.ss.closed + {c}))
    case EvDetach(c) => Detach(s, c)
    case EvLock => Lock(s)
    case EvAutofillEnds => CloseAutofill(s)
    case EvAsk(c, a) => s.(ss := s.ss.(dialogs := s.ss.dialogs + {Dialog(c, a, s.ss.epoch)}))
    case EvDismiss(d) => s.(ss := s.ss.(dialogs := s.ss.dialogs - {d}))
    case EvApprove(d, token) => Approve(s, d, token)
    case EvGrant(c) => Request(s, GrantMeta(c, s.ss.epoch), 0)
    case EvRelease => s.(ss := s.ss.(grant := None))
    case EvCopy(c) => Request(s, CopyMeta(c, s.ss.epoch), 0)
    case EvCopyNow(c, token) => Issue(RevokeClip(s), Clip, token)
    case EvRedeem(t) => s.(ss := s.ss.(tickets := s.ss.tickets - {t}))
    case EvOther => Request(s, Other, 0)
    case EvAcquire(token) =>
      var call := s.waiting[0];
      var a := s.(waiting := s.waiting[1..]);
      if s.ss.wipeAfter then Continue(a, call.kont, false, 0, token) else Begin(a, call)
    case EvEnter => EnterStep(s, s.running.value)
    case EvBody(ok) => BodyStep(s, s.running.value, ok)
    case EvLeave =>
      var r := s.running.value;
      WithRun(Set(s, r.call.obj, Leave(Get(s, r.call.obj))), r.(phase := Leaving))
    case EvRelax => WithRun(s, s.running.value.(phase := Outside))
    case EvMake(ok) =>
      var r := s.running.value;
      if ok then WithRun(s.(objs := s.objs + [Obj(true, false)]), r.(made := Some(|s.objs|), done := true))
      else WithRun(s, r.(done := true))
    case EvReturn => WithRun(s, s.running.value.(done := true))
    case EvResume(ok, token) => ResumeStep(s, s.running.value, ok, token)
  }

  predicate Init(s: State) {
    s == State(Sess(0, None, None, None, {}, false, false, None, {}, {}), [Obj(false, false)], 0, [], None, {}, {})
  }

  ghost predicate IsRun(states: seq<State>, events: seq<Event>) {
    && |states| == |events| + 1 && Init(states[0])
    && forall i :: 0 <= i < |events| ==> Enabled(states[i], events[i]) && states[i + 1] == Step(states[i], events[i])
  }

  // --- the invariant ------------------------------------------------------------------------------------

  /** The approval a handler goes on: its own kind of dialog was approved for its connection in its
      epoch, or that op's own lock led from there into its epoch. */
  ghost predicate Warrant(s: State, k: Kont) {
    match k
    case Unlock(c, e) => (c, AskUnlock, e) in s.approved
    case TpmState(c, e) => (c, AskUnlock, e) in s.approved
    case Names(c, e) => (c, AskNames, e) in s.approved
    case SigninCheck(c, e) => (c, AskSignin, e) in s.approved
    case ResetCheck(c, e, _) => (c, AskReset, e) in s.approved
    case Replace(c, e, op) => WarrantOp(s, c, e, op)
    case Settings(c, e, _, op) => WarrantOp(s, c, e, op)
    case _ => true
  }

  ghost predicate WarrantOp(s: State, c: Conn, e: nat, op: Op) {
    match op
    case Signin => (c, AskSignin, e) in s.approved
    case MigrateBegin => (c, AskMigrate, e) in s.approved || (c, AskMigrate, e) in s.locked
    case Reset => (c, AskReset, e) in s.locked
  }

  ghost predicate KontOk(s: State, k: Kont) {
    k.Other? || (
      && k.epoch <= s.ss.epoch
      && Warrant(s, k)
      && (k.TpmState? && k.epoch == s.ss.epoch && k.conn !in s.ss.closed ==> s.ss.ui == Some(k.conn)))
  }

  predicate MadeOk(s: State, made: nat) { made < |s.objs| && made != s.cur && !s.objs[made].wipeReq }

  ghost predicate RunOk(s: State, r: Run) {
    && KontOk(s, r.call.kont) && r.call.obj < |s.objs|
    && r.epoch <= s.ss.epoch && (r.call.kont.Other? || r.call.kont.epoch <= r.epoch)
    && (r.made.Some? ==> r.call.kont.Replace? && r.done && MadeOk(s, r.made.value))
    && (r.unsealed ==> IsUnlock(r.call.kont)) && (r.done ==> r.phase == Outside)
    && (r.call.kont.Replace? ==> r.phase == Outside)
  }

  /** tier1 is None or the session's window; every grant, ticket and dialog is of this epoch, and a
      grant exists only while tier 1 is set. */
  ghost predicate SessOk(ss: Sess) {
    && (ss.tier1.None? || ss.tier1 == ss.ui)
    && (ss.grant.Some? ==> ss.grant == Some(ss.epoch) && ss.tier1.Some?)
    && (forall t | t in ss.tickets :: t.epoch == ss.epoch)
    && (forall d | d in ss.dialogs :: d.epoch == ss.epoch)
  }

  /** wipe_after: a call holds the store lock since before the lock, and nothing is open. A request on
      the current object is always covered by it. */
  ghost predicate Wiping(s: State) {
    && (s.ss.wipeAfter ==>
        s.running.Some? && s.running.value.epoch < s.ss.epoch && s.ss.tier1.None? && s.ss.autofill.None?)
    && (Get(s, s.cur).wipeReq ==> s.ss.wipeAfter)
  }

  ghost predicate Core(s: State) {
    && s.cur < |s.objs| && SessOk(s.ss) && Wiping(s)
    && (forall i :: 0 <= i < |s.waiting| ==> KontOk(s, s.waiting[i].kont) && s.waiting[i].obj < |s.objs|)
    && (s.running.Some? ==> RunOk(s, s.running.value))
    && (s.ss.replacing <==> s.running.Some? && s.running.value.call.kont.Replace?)
  }

  /** Handlers that end, whatever their call does, with the store wiped or tier 1 open. */
  predicate Resolves(k: Kont) { k.TpmState? || k.Settings? }

  /** Someone who will wipe the current store or open it. */
  ghost predicate Pending(s: State) {
    || s.ss.wipeAfter
    || (exists i :: 0 <= i < |s.waiting| && Resolves(s.waiting[i].kont))
    || (s.running.Some? &&
        var r := s.running.value;
        Resolves(r.call.kont) || (r.unsealed && r.call.obj == s.cur))
  }

  predicate Closed(s: State) { s.ss.tier1.None? && s.ss.autofill.None? }

  ghost predicate KeysOk(s: State) { Get(s, s.cur).keys && Closed(s) ==> Pending(s) }

  ghost predicate Inv(s: State) { Core(s) && KeysOk(s) }

  // --- the invariant is kept ------------------------------------------------------------------------------

  lemma WipeIdle(s: State)
    requires Core(s) && s.running.None?
    ensures var w := WipeStore(s);
      Core(w) && w == s.(objs := s.objs[s.cur := Obj(false, false)]) && KeysOk(w)
  {
  }

  lemma LockKeeps(s: State)
    requires Core(s)
    ensures var l := Lock(s);
      && Inv(l) && l.ss.epoch == s.ss.epoch + 1 && l.ss.tier1.None? && l.ss.autofill.None?
      && l.running == s.running && l.waiting == s.waiting && l.approved == s.approved && l.locked == s.locked && l.cur == s.cur
      && l.ss.ui == s.ss.ui && l.ss.closed == s.ss.closed && (s.running.None? ==> !l.ss.wipeAfter)
      && (l.ss.wipeAfter || !Get(l, l.cur).keys)
  {
  }

  lemma RequestKeeps(s: State, k: Kont, token: nat)
    requires Core(s) && KontOk(s, k) && (KeysOk(s) || Resolves(k)) && (Resolves(k) ==> s.running.None?)
    ensures Inv(Request(s, k, token))
    decreases Rank(k), 1
  {
    if s.ss.wipeAfter {
      ContinueKeeps(s, k, false, 0, token);
    } else if s.running.Some? || s.waiting != [] {
      var q := Request(s, k, token);
      forall i | 0 <= i < |q.waiting| ensures KontOk(q, q.waiting[i].kont) && q.waiting[i].obj < |q.objs| {
        if i < |s.waiting| { assert q.waiting[i] == s.waiting[i]; }
      }
      if Resolves(k) { assert q.waiting[|s.waiting|].kont == k; }
      if exists i :: 0 <= i < |s.waiting| && Resolves(s.waiting[i].kont) {
        var i :| 0 <= i < |s.waiting| && Resolves(s.waiting[i].kont);
        assert q.waiting[i] == s.waiting[i];
      }
    }
  }

  lemma SameCalls(s: State, t: State)
    requires Core(s) && t == s.(ss := t.ss)
    requires t.ss == s.ss.(tier1 := t.ss.tier1, autofill := t.ss.autofill, grant := t.ss.grant, tickets := t.ss.tickets)
    requires SessOk(t.ss) && Wiping(t)
    ensures Core(t)
  {
  }

  lemma OpenKeeps(s: State, c: Conn)
    requires Core(s) && s.running.None? && s.ss.ui == Some(c)
    ensures Inv(OpenTier1(s, c))
  {
  }

  lemma OpenAutofillKeeps(s: State, c: Conn)
    requires Core(s) && s.running.None?
    ensures Inv(OpenAutofill(s, c))
  {
  }

  lemma IssueKeeps(s: State, role: Role, token: nat)
    requires Inv(s)
    ensures Inv(Issue(s, role, token)) && Inv(RevokeClip(s))
  {
    SameCalls(s, Issue(s, role, token));
    SameCalls(s, RevokeClip(s));
  }

  lemma GrantKeeps(s: State)
    requires Inv(s)
    ensures Inv(s.(ss := s.ss.(grant := None)))
    ensures s.ss.tier1.Some? ==> Inv(s.(ss := s.ss.(grant := Some(s.ss.epoch))))
  {
  }

  lemma SwapKeeps(s: State, made: nat)
    requires Core(s) && s.running.None? && made < |s.objs| && !s.objs[made].wipeReq
    ensures Core(s.(cur := made))
  {
  }

  lemma ContinueKeeps(s: State, k: Kont, ok: bool, made: nat, token: nat)
    requires Core(s) && KontOk(s, k) && (ok || Resolves(k) ==> s.running.None?)
    requires KeysOk(s) || Resolves(k) || (IsUnlock(k) && ok)
    requires k.Replace? && ok ==> made < |s.objs| && !s.objs[made].wipeReq
    ensures Inv(Continue(s, k, ok, made, token))
    decreases Rank(k), 0
  {
    hide Core, KeysOk, WipeStore, OwnLock, OpenTier1, OpenAutofill, Issue, RevokeClip, Request;
    match k
    case Unlock(c, e) =>
      if ok && Same(s.ss, c, e) { RequestKeeps(s, TpmState(c, e), token); } else if ok { WipeIdle(s); }
    case TpmState(c, e) =>
      if s.ss.epoch != e || c in s.ss.closed { WipeIdle(s); } else { OpenKeeps(s, c); }
    case Names(c, e) =>
      if !ok {} else if s.ss.epoch != e || c in s.ss.closed { WipeIdle(s); } else { OpenAutofillKeeps(s, c); }
    case SigninCheck(c, e) =>
      if ok && s.ss.epoch == e { RequestKeeps(s, Replace(c, e, Signin), token); }
    case ResetCheck(c, e, left) =>
      if !ok {
      } else if left > 0 {
        RequestKeeps(s, ResetCheck(c, e, left - 1), token);
      } else if Same(s.ss, c, e) {
        OwnLockKeeps(s, c, AskReset);
        RequestKeeps(OwnLock(s, c, AskReset), Replace(c, s.ss.epoch + 1, Reset), token);
      }
    case Replace(c, e, op) =>
      if ok {
        var n := s.(cur := made);
        SwapKeeps(s, made);
        if !Same(n.ss, c, e) { WipeIdle(n); }
        else if op == Signin { OpenKeeps(n, c); }
        else { RequestKeeps(n, Settings(c, e, 1, op), token); }
      }
    case Settings(c, e, left, op) =>
      if ok && left > 0 { RequestKeeps(s, Settings(c, e, left - 1, op), token); }
      else if !Same(s.ss, c, e) { WipeIdle(s); }
      else { OpenKeeps(s, c); IssueKeeps(OpenTier1(s, c), Migrate, token); }
    case GrantMeta(c, e) =>
      if ok && Still(s.ss, c, e) {
        GrantKeeps(s);
        RequestKeeps(s.(ss := s.ss.(grant := None)), GrantOpen(c, e), token);
      }
    case GrantOpen(c, e) => GrantKeeps(s);
    case CopyMeta(c, e) => IssueKeeps(s, Clip, token); IssueKeeps(RevokeClip(s), Clip, token);
    case Other =>
  }

  lemma OwnLockKeeps(s: State, c: Conn, ask: Ask)
    requires Core(s)
    ensures var l := OwnLock(s, c, ask);
      && Inv(l) && l.ss.epoch == s.ss.epoch + 1 && (c, ask, l.ss.epoch) in l.locked
      && l.ss.ui == s.ss.ui && l.ss.closed == s.ss.closed
  {
    hide Lock;
    LockKeeps(s);
    HistoryKeeps(Lock(s), s.approved, s.locked + {(c, ask, s.ss.epoch + 1)});
  }

  lemma HistoryKeeps(s: State, approved: set<(Conn, Ask, nat)>, locked: set<(Conn, Ask, nat)>)
    requires Inv(s) && s.approved <= approved && s.locked <= locked
    ensures Inv(s.(approved := approved, locked := locked))
  {
  }

  lemma ApprovedKeeps(s: State, d: Dialog)
    requires Inv(s)
    ensures Inv(Approved(s, d))
  {
    assert SessOk(s.ss);
    hide Core, KeysOk;
    DialogsKeep(s, s.ss.dialogs - {d});
    HistoryKeeps(s.(ss := s.ss.(dialogs := s.ss.dialogs - {d})), s.approved + {(d.conn, d.ask, s.ss.epoch)}, s.locked);
  }

  /** The store objects when a call ends: a store it made across a lock is wiped, and so is the current
      one when a wipe was left or tier 1 closed meanwhile. */
  lemma ExitIs(s: State, r: Run)
    requires Core(s) && s.running == Some(r) && r.done
    ensures var x := ExitCall(s, r);
      && x == s.(ss := s.ss.(wipeAfter := false, replacing := false), objs := x.objs, running := None)
      && |x.objs| == |s.objs|
      && x.objs[s.cur] == (if s.ss.wipeAfter || (s.ss.epoch != r.epoch && !Unlocked(s.ss))
                           then Obj(false, false) else s.objs[s.cur])
      && (r.made.Some? ==> !x.objs[r.made.value].wipeReq)
  {
  }

  /** Waiting calls and the one that ends go on as well founded as they were. */
  lemma SameKonts(s: State, x: State, k: Kont)
    requires x.approved == s.approved && x.locked == s.locked && KontOk(s, k)
    requires x.ss == s.ss.(wipeAfter := x.ss.wipeAfter, replacing := x.ss.replacing)
    ensures KontOk(x, k)
  {
  }

  lemma ExitCore(s: State)
    requires Core(s) && s.running.Some? && s.running.value.done
    ensures Core(ExitCall(s, s.running.value))
  {
    var r := s.running.value;
    ExitIs(s, r);
    var x := ExitCall(s, r);
    hide ExitCall, KontOk, RunOk;
    forall i | 0 <= i < |x.waiting| ensures KontOk(x, x.waiting[i].kont) && x.waiting[i].obj < |x.objs| {
      SameKonts(s, x, s.waiting[i].kont);
    }
  }

  /** Keys left with nothing open have someone to wipe or open them. */
  lemma ExitPending(s: State)
    requires Inv(s) && s.running.Some? && s.running.value.done
    ensures var r, x := s.running.value, ExitCall(s, s.running.value);
      KeysOk(x) || Resolves(r.call.kont) || (IsUnlock(r.call.kont) && r.unsealed)
  {
    var r := s.running.value;
    ExitIs(s, r);
    var x := ExitCall(s, r);
    assert RunOk(s, r);
    hide ExitCall, Core, RunOk, KontOk;
    if Get(x, x.cur).keys && Closed(x) && exists i :: 0 <= i < |s.waiting| && Resolves(s.waiting[i].kont) {
      var i :| 0 <= i < |s.waiting| && Resolves(s.waiting[i].kont);
      assert Resolves(x.waiting[i].kont);
    }
  }

  /** What is left of the session when a call ends: nothing pending, and the keys gone if a wipe was. */
  lemma ExitKeeps(s: State)
    requires Inv(s) && s.running.Some? && s.running.value.done
    ensures var r, x := s.running.value, ExitCall(s, s.running.value);
      && Core(x) && x.running.None? && KontOk(x, r.call.kont)
      && x == s.(ss := s.ss.(wipeAfter := false, replacing := false), objs := x.objs, running := None)
      && (KeysOk(x) || Resolves(r.call.kont) || (IsUnlock(r.call.kont) && r.unsealed))
      && (s.ss.wipeAfter ==> !Get(x, x.cur).keys)
      && (r.made.Some? ==> MadeOk(x, r.made.value))
  {
    var r := s.running.value;
    ExitIs(s, r);
    ExitCore(s);
    ExitPending(s);
    assert RunOk(s, r);
    SameKonts(s, ExitCall(s, r), r.call.kont);
    hide ExitCall, Core, KeysOk, KontOk;
  }

  lemma ResumeKeeps(s: State, ok: bool, token: nat)
    requires Inv(s) && s.running.Some? && s.running.value.done
    ensures Inv(ResumeStep(s, s.running.value, ok, token))
  {
    hide Core, KeysOk, ExitCall, Continue;
    var r := s.running.value;
    ExitKeeps(s);
    assert RunOk(s, r) by { Parts(s); }
    var k := r.call.kont;
    ContinueKeeps(ExitCall(s, r), k,
      if IsUnlock(k) then r.unsealed else if k.Replace? then r.made.Some? else ok,
      if r.made.Some? then r.made.value else 0, token);
  }

  lemma Parts(s: State)
    requires Core(s)
    ensures SessOk(s.ss) && Wiping(s) && (s.running.Some? ==> RunOk(s, s.running.value))
    ensures forall i :: 0 <= i < |s.waiting| ==> KontOk(s, s.waiting[i].kont)
  {
  }

  lemma AcquireKeeps(s: State, token: nat)
    requires Inv(s) && s.running.None? && s.waiting != []
    ensures Inv(Begin(s.(waiting := s.waiting[1..]), s.waiting[0])) && !s.ss.wipeAfter
  {
  }

  /** The running call moved, its object changed, and nothing else did. */
  lemma WorkerKeeps(s: State, n: State)
    requires Inv(s) && s.running.Some? && n.running.Some? && RunOk(n, n.running.value)
    requires n == s.(objs := n.objs, running := n.running) && |n.objs| >= |s.objs|
    requires n.running.value.call == s.running.value.call && n.running.value.epoch == s.running.value.epoch
    requires Get(n, n.cur).wipeReq == Get(s, s.cur).wipeReq
    requires s.running.value.unsealed ==> n.running.value.unsealed
    requires Get(n, n.cur).keys ==> Get(s, s.cur).keys || (n.running.value.unsealed && n.running.value.call.obj == n.cur)
    ensures Inv(n)
  {
  }

  lemma MethodStepKeeps(s: State, ev: Event)
    requires Inv(s) && Enabled(s, ev) && (ev.EvEnter? || ev.EvBody? || ev.EvLeave?)
    ensures Inv(Step(s, ev))
  {
    assert KontOk(s, s.running.value.call.kont);
    WorkerKeeps(s, Step(s, ev));
  }

  lemma WorkerStepKeeps(s: State, ev: Event)
    requires Inv(s) && Enabled(s, ev) && WorkerEvent(ev)
    ensures Inv(Step(s, ev))
  {
    hide EnterStep, BodyStep;
    if ev.EvEnter? || ev.EvBody? || ev.EvLeave? {
      MethodStepKeeps(s, ev);
    } else {
      assert KontOk(s, s.running.value.call.kont);
      WorkerKeeps(s, Step(s, ev));
    }
  }

  lemma DialogsKeep(s: State, dialogs: set<Dialog>)
    requires Inv(s) && forall d | d in dialogs :: d.epoch == s.ss.epoch
    ensures Inv(s.(ss := s.ss.(dialogs := dialogs)))
  {
  }

  lemma CloseKeeps(s: State, c: Conn)
    requires Inv(s)
    ensures Inv(s.(ss := s.ss.(closed := s.ss.closed + {c})))
  {
  }

  lemma UiKeeps(s: State, ui: Option<Conn>)
    requires Inv(s) && s.ss.tier1.None?
    requires s.ss.ui.Some? ==> s.ss.ui.value in s.ss.closed
    ensures Inv(s.(ss := s.ss.(ui := ui)))
  {
  }

  lemma LockUiKeeps(s: State, ui: Option<Conn>)
    requires Inv(s)
    ensures var l := Lock(s); Inv(l.(ss := l.ss.(ui := ui)))
  {
  }

  lemma CloseAutofillKeeps(s: State)
    requires Inv(s)
    ensures Inv(CloseAutofill(s)) && CloseAutofill(s).ss.ui == s.ss.ui
  {
    LockKeeps(s);
    if s.ss.autofill.Some? && Unlocked(s.ss) {
      SameCalls(s, s.(ss := s.ss.(autofill := None)));
      assert CloseAutofill(s) == s.(ss := s.ss.(autofill := None));
    } else if s.ss.autofill.None? {
      assert CloseAutofill(s) == s;
    }
  }

  lemma ApproveKeeps(s: State, d: Dialog, token: nat)
    requires Inv(s) && d in s.ss.dialogs
    ensures Inv(Approve(s, d, token))
  {
    var a := Approved(s, d);
    assert d.epoch == s.ss.epoch;
    DialogsKeep(s, s.ss.dialogs - {d});
    ApprovedKeeps(s, d);
    hide Core, KeysOk, OwnLock, Request, Issue;
    var c, e := d.conn, s.ss.epoch;
    match d.ask
    case AskUnlock => RequestKeeps(a, Unlock(c, e), token);
    case AskNames => RequestKeeps(a, Names(c, e), token);
    case AskSignin => RequestKeeps(a, SigninCheck(c, e), token);
    case AskReset => RequestKeeps(a, ResetCheck(c, e, 2), token);
    case AskMigrate =>
      OwnLockKeeps(a, c, AskMigrate);
      var l := if Unlocked(a.ss) then OwnLock(a, c, AskMigrate) else a;
      RequestKeeps(l, Replace(c, l.ss.epoch, MigrateBegin), token);
    case AskPurge => IssueKeeps(a, Migrate, token);
    case AskOther => RequestKeeps(a, Other, token);
  }

  lemma ConnectKeeps(s: State, c: Conn)
    requires Inv(s)
    ensures Inv(Connect(s, c))
  {
    hide Core, KeysOk, Lock;
    if s.ss.tier1.Some? { LockUiKeeps(s, Some(c)); }
    else if s.ss.ui.None? || s.ss.ui.value in s.ss.closed { UiKeeps(s, Some(c)); }
  }

  lemma DetachKeeps(s: State, c: Conn)
    requires Inv(s)
    ensures Inv(Detach(s, c))
  {
    var dialogs := set d | d in s.ss.dialogs && d.conn != c;
    assert SessOk(s.ss);
    hide Core, KeysOk, Lock, CloseAutofill;
    DialogsKeep(s, dialogs);
    var a := s.(ss := s.ss.(dialogs := dialogs));
    CloseAutofillKeeps(a);
    LockUiKeeps(if a.ss.autofill == Some(c) then CloseAutofill(a) else a, None);
  }

  lemma CallKeeps(s: State, ev: Event)
    requires Inv(s) && Enabled(s, ev) && (ev.EvGrant? || ev.EvCopy? || ev.EvOther?)
    ensures Inv(Step(s, ev))
  {
    hide Core, KeysOk, Request;
    match ev
    case EvGrant(c) => RequestKeeps(s, GrantMeta(c, s.ss.epoch), 0);
    case EvCopy(c) => RequestKeeps(s, CopyMeta(c, s.ss.epoch), 0);
    case EvOther => RequestKeeps(s, Other, 0);
  }

  lemma TableKeeps(s: State, ev: Event)
    requires Inv(s) && Enabled(s, ev)
    requires ev.EvAsk? || ev.EvDismiss? || ev.EvRelease? || ev.EvCopyNow? || ev.EvRedeem? || ev.EvClose?
    ensures Inv(Step(s, ev))
  {
    assert SessOk(s.ss);
    hide Core, KeysOk, Issue, RevokeClip;
    match ev
    case EvClose(c) => CloseKeeps(s, c);
    case EvAsk(c, a) => DialogsKeep(s, s.ss.dialogs + {Dialog(c, a, s.ss.epoch)});
    case EvDismiss(d) => DialogsKeep(s, s.ss.dialogs - {d});
    case EvRelease => GrantKeeps(s);
    case EvCopyNow(c, token) => IssueKeeps(s, Clip, token); IssueKeeps(RevokeClip(s), Clip, token);
    case EvRedeem(t) => RedeemKeeps(s, t);
  }

  lemma StepKeeps(s: State, ev: Event)
    requires Inv(s) && Enabled(s, ev)
    ensures Inv(Step(s, ev))
  {
    if ev.EvAcquire? { AcquireKeeps(s, ev.token); }
    hide Core, KeysOk, Lock, Request, Issue, CloseAutofill, Approve, ResumeStep, Connect, Detach, EnterStep, BodyStep;
    match ev
    case EvConnect(c) => ConnectKeeps(s, c);
    case EvDetach(c) => DetachKeeps(s, c);
    case EvLock => assert Core(s); LockKeeps(s);
    case EvAutofillEnds => CloseAutofillKeeps(s);
    case EvApprove(d, token) => ApproveKeeps(s, d, token);
    case EvAcquire(token) =>
    case EvResume(ok, token) => ResumeKeeps(s, ok, token);
    case _ =>
      if WorkerEvent(ev) { WorkerStepKeeps(s, ev); }
      else if ev.EvGrant? || ev.EvCopy? || ev.EvOther? { CallKeeps(s, ev); }
      else { TableKeeps(s, ev); }
  }

  lemma RedeemKeeps(s: State, t: Ticket)
    requires Inv(s)
    ensures Inv(s.(ss := s.ss.(tickets := s.ss.tickets - {t})))
  {
  }

  // --- safety over whole runs ---------------------------------------------------------------------------

  lemma {:induction false} RunInv(states: seq<State>, events: seq<Event>, i: nat)
    requires IsRun(states, events) && i < |states|
    ensures Inv(states[i])
  {
    if i > 0 {
      RunInv(states, events, i - 1);
      StepKeeps(states[i - 1], events[i - 1]);
    }
  }

  /** In every reachable state: with tier 1 and the browser's unlock closed and no store call waiting
      or running, the current store holds no key. */
  lemma KeysOnlyWhileOpen(states: seq<State>, events: seq<Event>, i: nat)
    requires IsRun(states, events) && i < |states|
    ensures var s := states[i];
      s.cur < |s.objs| &&
      (Closed(s) && s.running.None? && s.waiting == [] ==> !s.objs[s.cur].keys && !s.objs[s.cur].wipeReq)
  {
    RunInv(states, events, i);
  }

  /** wipe_after holds only while a call that got the store lock before the lock still has it, and
      nothing is open then. tier1 is None or the window. Grants, tickets and dialogs are of the
      current epoch, and a grant exists only while tier 1 is set. */
  lemma SessionInvariant(states: seq<State>, events: seq<Event>, i: nat)
    requires IsRun(states, events) && i < |states|
    ensures Wiping(states[i]) && SessOk(states[i].ss)
  {
    RunInv(states, events, i);
  }

  /** What handler segments may do to a store object: never put keys in it, and never drop a wipe
      request without wiping. */
  predicate Tamed(a: Obj, b: Obj) {
    (b.keys ==> a.keys) && (a.wipeReq ==> b.wipeReq || !b.keys)
  }

  ghost predicate TamedAll(s: State, t: State) {
    |s.objs| <= |t.objs| && forall o :: 0 <= o < |s.objs| ==> Tamed(s.objs[o], t.objs[o])
  }

  /** A running call stays where it is, and the keys of an object whose mutex it holds stay; a call
      that starts is outside every method. */
  ghost predicate Undisturbed(s: State, t: State)
    requires |s.objs| <= |t.objs|
  {
    match s.running
    case None => t.running.Some? ==> t.running.value.phase == Outside
    case Some(r) =>
      && t.running == s.running
      && forall o :: 0 <= o < |s.objs| && Holds(r, o) ==> t.objs[o].keys == s.objs[o].keys
  }

  lemma LockIsTame(s: State)
    ensures TamedAll(s, Lock(s)) && Undisturbed(s, Lock(s)) && Lock(s).running == s.running
    ensures TamedAll(s, WipeStore(s)) && Undisturbed(s, WipeStore(s)) && WipeStore(s).running == s.running
  {
  }

  lemma ContinueIsTame(s: State, k: Kont, ok: bool, made: nat, token: nat)
    requires ok ==> s.running.None?
    ensures TamedAll(s, Continue(s, k, ok, made, token)) && Undisturbed(s, Continue(s, k, ok, made, token))
    decreases Rank(k), 0
  {
    LockIsTame(s);
    hide Lock, WipeStore, Request;
    match k
    case Unlock(c, e) => if ok { RequestIsTame(s, TpmState(c, e), token); }
    case SigninCheck(c, e) => if ok { RequestIsTame(s, Replace(c, e, Signin), token); }
    case ResetCheck(c, e, left) =>
      if left > 0 { RequestIsTame(s, ResetCheck(c, e, left - 1), token); }
      var l := OwnLock(s, c, AskReset);
      RequestIsTame(l, Replace(c, l.ss.epoch, Reset), token);
    case Replace(c, e, op) =>
      LockIsTame(s.(cur := made));
      RequestIsTame(s.(cur := made), Settings(c, e, 1, op), token);
    case Settings(c, e, left, op) => if left > 0 { RequestIsTame(s, Settings(c, e, left - 1, op), token); }
    case GrantMeta(c, e) => RequestIsTame(s.(ss := s.ss.(grant := None)), GrantOpen(c, e), token);
    case _ =>
  }

  lemma RequestIsTame(s: State, k: Kont, token: nat)
    ensures TamedAll(s, Request(s, k, token)) && Undisturbed(s, Request(s, k, token))
    decreases Rank(k), 1
  {
    hide Continue;
    if s.ss.wipeAfter { ContinueIsTame(s, k, false, 0, token); }
  }

  predicate WorkerEvent(ev: Event) {
    ev.EvEnter? || ev.EvBody? || ev.EvLeave? || ev.EvRelax? || ev.EvMake? || ev.EvReturn?
  }

  lemma CloseAutofillIsTame(s: State)
    ensures TamedAll(s, CloseAutofill(s)) && Undisturbed(s, CloseAutofill(s))
    ensures CloseAutofill(s).running == s.running
  {
  }

  lemma LoopStepIsTame(s: State, ev: Event)
    requires Enabled(s, ev) && !WorkerEvent(ev)
    ensures var t := Step(s, ev);
      TamedAll(s, t) && Undisturbed(if ev.EvResume? then s.(running := None) else s, t)
  {
    hide Lock, WipeStore, Request, Continue, CloseAutofill;
    LockIsTame(s);
    match ev
    case EvDetach(c) =>
      var a := s.(ss := s.ss.(dialogs := set d | d in s.ss.dialogs && d.conn != c));
      CloseAutofillIsTame(a);
      LockIsTame(a);
      LockIsTame(CloseAutofill(a));
    case EvAutofillEnds => CloseAutofillIsTame(s);
    case EvApprove(d, token) => ApproveIsTame(s, d, token);
    case EvGrant(c) => RequestIsTame(s, GrantMeta(c, s.ss.epoch), 0);
    case EvCopy(c) => RequestIsTame(s, CopyMeta(c, s.ss.epoch), 0);
    case EvOther => RequestIsTame(s, Other, 0);
    case EvAcquire(token) => ContinueIsTame(s.(waiting := s.waiting[1..]), s.waiting[0].kont, false, 0, token);
    case EvResume(ok, token) => ResumeIsTame(s, ok, token);
    case _ =>
  }

  lemma ResumeIsTame(s: State, ok: bool, token: nat)
    requires s.running.Some?
    ensures var t := ResumeStep(s, s.running.value, ok, token);
      TamedAll(s, t) && Undisturbed(s.(running := None), t)
  {
    var r := s.running.value;
    var k := r.call.kont;
    var x := ExitCall(s, r);
    ExitIsTame(s, r);
    hide ExitCall, Continue;
    ContinueIsTame(x, k, if IsUnlock(k) then r.unsealed else if k.Replace? then r.made.Some? else ok,
                   if r.made.Some? then r.made.value else 0, token);
  }

  lemma ExitIsTame(s: State, r: Run)
    ensures TamedAll(s, ExitCall(s, r)) && ExitCall(s, r).running.None?
  {
  }

  lemma ApproveIsTame(s: State, d: Dialog, token: nat)
    ensures TamedAll(s, Approve(s, d, token)) && Undisturbed(s, Approve(s, d, token))
  {
    hide Lock, Request;
    var a := Approved(s, d);
    LockIsTame(a);
    var c, e := d.conn, s.ss.epoch;
    match d.ask
    case AskUnlock => RequestIsTame(a, Unlock(c, e), token);
    case AskNames => RequestIsTame(a, Names(c, e), token);
    case AskSignin => RequestIsTame(a, SigninCheck(c, d.epoch), token);
    case AskReset => RequestIsTame(a, ResetCheck(c, d.epoch, 2), token);
    case AskMigrate =>
      var l := if Unlocked(a.ss) then OwnLock(a, c, AskMigrate) else a;
      RequestIsTame(l, Replace(c, l.ss.epoch, MigrateBegin), token);
    case AskPurge =>
    case AskOther => RequestIsTame(a, Other, token);
  }

  /** A wipe request is never lost and never ignored: the step either keeps it or wipes the keys, and
      no method starts its body on the object. */
  lemma RequestIsKept(s: State, ev: Event, o: nat)
    requires Enabled(s, ev) && o < |s.objs| && s.objs[o].wipeReq
    ensures var t := Step(s, ev);
      && o < |t.objs| && (t.objs[o].wipeReq || !t.objs[o].keys)
      && (t.running.Some? && t.running.value.phase == Inside && t.running.value.call.obj == o ==>
          s.running.Some? && s.running.value.phase == Inside && s.running.value.call.obj == o)
  {
    if !WorkerEvent(ev) {
      LoopStepIsTame(s, ev);
    }
  }

  /** While a serialized method runs, no step but its own exit takes the keys from under it. */
  lemma KeysStayInside(s: State, ev: Event)
    requires Inv(s) && Enabled(s, ev) && !ev.EvLeave?
    requires s.running.Some? && s.running.value.phase == Inside && Get(s, s.running.value.call.obj).keys
    ensures var t := Step(s, ev);
      && t.running.Some? && t.running.value.call == s.running.value.call && t.running.value.phase == Inside
      && Get(t, t.running.value.call.obj).keys
  {
    assert RunOk(s, s.running.value);
    if !WorkerEvent(ev) { LoopStepIsTame(s, ev); }
  }

  /** Keys there when a method's entry check passed are there until its exit check. */
  lemma {:induction false} KeysStayUntilExit(states: seq<State>, events: seq<Event>, i: nat, j: nat)
    requires IsRun(states, events) && i <= j < |states| && states[i].running.Some?
    requires var r := states[i].running.value; r.phase == Inside && Get(states[i], r.call.obj).keys
    requires forall m :: i <= m < j ==> !events[m].EvLeave?
    ensures states[j].running.Some? && states[j].running.value.call == states[i].running.value.call
    ensures states[j].running.value.phase == Inside && Get(states[j], states[j].running.value.call.obj).keys
  {
    if i < j {
      KeysStayUntilExit(states, events, i, j - 1);
      RunInv(states, events, j - 1);
      KeysStayInside(states[j - 1], events[j - 1]);
    }
  }

  /** A handler that goes on in a later epoch, on a wiped store with nothing open, leaves it so. */
  lemma StaleHandler(s: State, k: Kont, ok: bool, made: nat, token: nat)
    requires Core(s) && s.running.None? && (k.Other? || k.epoch < s.ss.epoch)
    requires k.Replace? && ok ==> made < |s.objs|
    requires !Get(s, s.cur).keys && Closed(s)
    ensures var t := Continue(s, k, ok, made, token);
      !t.ss.wipeAfter && !Get(t, t.cur).keys && Closed(t)
    decreases Rank(k), 0
  {
  }

  /** The end of a call during which a wipe was left pending: the keys of the current store are gone,
      nothing is pending any more and nothing is open. */
  lemma ExitWipes(s: State, ok: bool, token: nat)
    requires Inv(s) && s.running.Some? && s.running.value.done && s.ss.wipeAfter
    ensures var t := ResumeStep(s, s.running.value, ok, token);
      !t.ss.wipeAfter && !Get(t, t.cur).keys && Closed(t)
  {
    var r := s.running.value;
    var k := r.call.kont;
    ExitKeeps(s);
    assert RunOk(s, r) && Wiping(s);
    hide ExitCall, Continue;
    StaleHandler(ExitCall(s, r), k, if IsUnlock(k) then r.unsealed else if k.Replace? then r.made.Some? else ok,
                 if r.made.Some? then r.made.value else 0, token);
  }

  /** A create or reset during which a lock landed: its store becomes the current one, wiped, and the
      op opens nothing. */
  lemma NewStoreAfterLock(s: State, ok: bool, token: nat)
    requires Inv(s) && s.running.Some? && s.running.value.done && s.running.value.made.Some?
    requires s.ss.epoch != s.running.value.call.kont.epoch
    ensures var t := ResumeStep(s, s.running.value, ok, token);
      && t.cur == s.running.value.made.value && !Get(t, t.cur).keys && !t.ss.wipeAfter
      && t.ss.tier1 == s.ss.tier1 && t.ss.autofill == s.ss.autofill
  {
    var r := s.running.value;
    ExitKeeps(s);
    assert RunOk(s, r);
    hide ExitCall;
    var n := ExitCall(s, r).(cur := r.made.value);
    SwapKeeps(ExitCall(s, r), r.made.value);
    WipeIdle(n);
  }

  // --- tier 1 opens only on an approval no lock has followed --------------------------------------------

  /** Some op of `c` that may open tier 1 was approved in this epoch, or locked into it itself. */
  ghost predicate Warranted(s: State, c: Conn) {
    var e := s.ss.epoch;
    || (c, AskUnlock, e) in s.approved
    || exists op :: WarrantOp(s, c, e, op)
  }

  /** `t` opens nothing that `s` does not, or opens it on the warrant of this epoch. */
  ghost predicate OpensApproved(s: State, t: State) {
    && (t.ss.tier1.Some? && t.ss.tier1 != s.ss.tier1 ==> Warranted(s, t.ss.tier1.value) && t.ss.epoch == s.ss.epoch)
    && (t.ss.autofill.Some? && t.ss.autofill != s.ss.autofill ==>
        (t.ss.autofill.value, AskNames, s.ss.epoch) in s.approved && t.ss.epoch == s.ss.epoch)
  }

  lemma RequestOpens(s: State, k: Kont, token: nat)
    requires KontOk(s, k)
    ensures OpensApproved(s, Request(s, k, token))
    decreases Rank(k), 1
  {
    hide Continue, Warranted, KontOk;
    if s.ss.wipeAfter { ContinueOpens(s, k, false, 0, token); }
  }

  lemma ContinueOpens(s: State, k: Kont, ok: bool, made: nat, token: nat)
    requires KontOk(s, k)
    ensures OpensApproved(s, Continue(s, k, ok, made, token))
    decreases Rank(k), 0
  {
    hide Request, OwnLock, WarrantOp;
    match k
    case Unlock(c, e) => if Same(s.ss, c, e) { RequestOpens(s, TpmState(c, e), token); }
    case SigninCheck(c, e) =>
      SigninOp(s, c, e);
      if s.ss.epoch == e { RequestOpens(s, Replace(c, e, Signin), token); }
    case ResetCheck(c, e, left) =>
      if left > 0 { RequestOpens(s, ResetCheck(c, e, left - 1), token); }
      OwnLockIs(s, c, AskReset);
      RequestOpensNothing(OwnLock(s, c, AskReset), Replace(c, s.ss.epoch + 1, Reset), token);
    case Replace(c, e, op) =>
      var n := s.(cur := made);
      forall x ensures Warranted(n, x) == Warranted(s, x) { SameWarrant(s, n, x); }
      SameWarrant(s, n, c);
      if Same(s.ss, c, e) { RequestOpens(n, Settings(c, e, 1, op), token); }
    case Settings(c, e, left, op) => if left > 0 { RequestOpens(s, Settings(c, e, left - 1, op), token); }
    case GrantMeta(c, e) => RequestOpensNothing(s.(ss := s.ss.(grant := None)), GrantOpen(c, e), token);
    case _ =>
  }

  lemma SigninOp(s: State, c: Conn, e: nat)
    ensures WarrantOp(s, c, e, Signin) <==> (c, AskSignin, e) in s.approved
  {
  }

  lemma SameWarrant(s: State, t: State, c: Conn)
    requires NoHistory(s, t)
    ensures Warranted(t, c) == Warranted(s, c) && forall e, op :: WarrantOp(t, c, e, op) == WarrantOp(s, c, e, op)
  {
    forall e, op ensures WarrantOp(t, c, e, op) == WarrantOp(s, c, e, op) {}
  }

  lemma OwnLockIs(s: State, c: Conn, ask: Ask)
    ensures var l := OwnLock(s, c, ask);
      && OpensNothing(s, l) && l.ss.tier1.None? && l.ss.autofill.None? && l.ss.epoch == s.ss.epoch + 1
      && l.approved == s.approved && l.locked == s.locked + {(c, ask, s.ss.epoch + 1)}
  {
  }

  /** `t` opens nothing that `s` does not. */
  predicate OpensNothing(s: State, t: State) {
    && (t.ss.tier1.Some? ==> t.ss.tier1 == s.ss.tier1)
    && (t.ss.autofill.Some? ==> t.ss.autofill == s.ss.autofill)
  }

  /** No approval, no lock of an op's own, and the epoch where it was. */
  predicate NoHistory(s: State, t: State) {
    t.ss.epoch == s.ss.epoch && t.approved == s.approved && t.locked == s.locked
  }

  lemma RequestOpensNothing(s: State, k: Kont, token: nat)
    requires !Resolves(k)
    ensures OpensNothing(s, Request(s, k, token)) && NoHistory(s, Request(s, k, token))
  {
  }

  lemma LockOpensNothing(s: State)
    ensures OpensNothing(s, Lock(s)) && OpensNothing(s, CloseAutofill(s))
    ensures Lock(s).ss.epoch == s.ss.epoch + 1 && s.ss.epoch <= CloseAutofill(s).ss.epoch
    ensures Lock(s).approved == s.approved && CloseAutofill(s).approved == s.approved
    ensures Lock(s).locked == s.locked && CloseAutofill(s).locked == s.locked
  {
  }

  lemma ResumeOpens(s: State, ok: bool, token: nat)
    requires Inv(s) && Enabled(s, EvResume(ok, token))
    ensures OpensApproved(s, Step(s, EvResume(ok, token)))
  {
    var r := s.running.value;
    var k := r.call.kont;
    var x := ExitCall(s, r);
    ExitKeeps(s);
    ExitEpoch(s, r);
    hide ExitCall, Continue, Core, KeysOk, Warranted;
    ContinueOpens(x, k, if IsUnlock(k) then r.unsealed else if k.Replace? then r.made.Some? else ok,
                  if r.made.Some? then r.made.value else 0, token);
    forall c ensures Warranted(x, c) == Warranted(s, c) {
      SameWarrant(s, x, c);
    }
  }

  lemma DetachOpensNothing(s: State, c: Conn)
    ensures OpensNothing(s, Detach(s, c)) && s.ss.epoch <= Detach(s, c).ss.epoch
    ensures Detach(s, c).approved == s.approved && Detach(s, c).locked == s.locked
  {
    hide Lock, CloseAutofill;
    var a := s.(ss := s.ss.(dialogs := set d | d in s.ss.dialogs && d.conn != c));
    LockOpensNothing(a);
    LockOpensNothing(CloseAutofill(a));
  }

  /** Steps that change neither what is open nor what was approved. */
  predicate Quiet(ev: Event) {
    || WorkerEvent(ev) || ev.EvClose? || ev.EvAsk? || ev.EvDismiss? || ev.EvRelease? || ev.EvCopyNow? || ev.EvRedeem?
  }

  lemma QuietStep(s: State, ev: Event)
    requires Enabled(s, ev) && Quiet(ev)
    ensures NoHistory(s, Step(s, ev)) && OpensNothing(s, Step(s, ev))
  {
  }

  lemma CallStep(s: State, ev: Event)
    requires Enabled(s, ev) && (ev.EvGrant? || ev.EvCopy? || ev.EvOther?)
    ensures NoHistory(s, Step(s, ev)) && OpensNothing(s, Step(s, ev))
  {
    hide Request;
    match ev
    case EvGrant(c) => RequestOpensNothing(s, GrantMeta(c, s.ss.epoch), 0);
    case EvCopy(c) => RequestOpensNothing(s, CopyMeta(c, s.ss.epoch), 0);
    case EvOther => RequestOpensNothing(s, Other, 0);
  }

  predicate Locking(ev: Event) { ev.EvConnect? || ev.EvDetach? || ev.EvLock? || ev.EvAutofillEnds? }

  lemma LockStep(s: State, ev: Event)
    requires Enabled(s, ev) && Locking(ev)
    ensures var t := Step(s, ev);
      OpensNothing(s, t) && s.ss.epoch <= t.ss.epoch && t.approved == s.approved && t.locked == s.locked
  {
    hide Lock, CloseAutofill, Detach;
    LockOpensNothing(s);
    if ev.EvDetach? { DetachOpensNothing(s, ev.conn); }
  }

  lemma AcquireStep(s: State, token: nat)
    requires Inv(s) && s.running.None? && s.waiting != []
    ensures NoHistory(s, Step(s, EvAcquire(token))) && OpensNothing(s, Step(s, EvAcquire(token)))
  {
  }

  /** What an approval records: itself in the epoch it came in, and for a migration the lock the op
      makes at once. */
  predicate Records(s: State, t: State, d: Dialog) {
    && t.approved <= s.approved + {(d.conn, d.ask, s.ss.epoch)}
    && (NoOwnLock(s, t) || (d.ask == AskMigrate && OwnLocked(s, t, d.conn, AskMigrate)))
  }

  predicate NoOwnLock(s: State, t: State) { t.locked == s.locked && t.ss.epoch == s.ss.epoch }

  predicate OwnLocked(s: State, t: State, c: Conn, ask: Ask) {
    t.locked == s.locked + {(c, ask, t.ss.epoch)} && t.ss.epoch == s.ss.epoch + 1
  }

  lemma ApproveStep(s: State, d: Dialog, token: nat)
    ensures OpensNothing(s, Approve(s, d, token)) && Records(s, Approve(s, d, token), d)
  {
    hide Request, OwnLock;
    var a := Approved(s, d);
    var c, e := d.conn, s.ss.epoch;
    match d.ask
    case AskUnlock => RequestOpensNothing(a, Unlock(c, e), token);
    case AskNames => RequestOpensNothing(a, Names(c, e), token);
    case AskSignin => RequestOpensNothing(a, SigninCheck(c, d.epoch), token);
    case AskReset => RequestOpensNothing(a, ResetCheck(c, d.epoch, 2), token);
    case AskMigrate =>
      OwnLockIs(a, c, AskMigrate);
      var l := if Unlocked(a.ss) then OwnLock(a, c, AskMigrate) else a;
      RequestOpensNothing(l, Replace(c, l.ss.epoch, MigrateBegin), token);
    case AskPurge =>
    case AskOther => RequestOpensNothing(a, Other, token);
  }

  lemma ExitEpoch(s: State, r: Run)
    ensures NoHistory(s, ExitCall(s, r)) && ExitCall(s, r).ss.tier1 == s.ss.tier1
    ensures ExitCall(s, r).ss.autofill == s.ss.autofill
  {
  }

  /** A segment after a store call moves the epoch in one case: op_reset goes on to its own lock, in
      the epoch of its approval. */
  predicate Moves(s: State, t: State, k: Kont) {
    && t.approved == s.approved
    && (NoOwnLock(s, t) || (k.ResetCheck? && k.epoch == s.ss.epoch && OwnLocked(s, t, k.conn, AskReset)))
  }

  lemma RequestMoves(s: State, k: Kont, token: nat)
    ensures NoHistory(s, Request(s, k, token))
    decreases Rank(k), 1
  {
  }

  lemma ContinueMoves(s: State, k: Kont, ok: bool, made: nat, token: nat)
    ensures Moves(s, Continue(s, k, ok, made, token), k)
    decreases Rank(k), 0
  {
    hide Request, OwnLock;
    match k
    case Unlock(c, e) => RequestMoves(s, TpmState(c, e), token);
    case SigninCheck(c, e) => RequestMoves(s, Replace(c, e, Signin), token);
    case ResetCheck(c, e, left) =>
      if left > 0 { RequestMoves(s, ResetCheck(c, e, left - 1), token); }
      OwnLockIs(s, c, AskReset);
      RequestMoves(OwnLock(s, c, AskReset), Replace(c, s.ss.epoch + 1, Reset), token);
    case Replace(c, e, op) => RequestMoves(s.(cur := made), Settings(c, e, 1, op), token);
    case Settings(c, e, left, op) => if left > 0 { RequestMoves(s, Settings(c, e, left - 1, op), token); }
    case GrantMeta(c, e) => RequestMoves(s.(ss := s.ss.(grant := None)), GrantOpen(c, e), token);
    case _ =>
  }

  lemma ResumeMoves(s: State, ok: bool, token: nat)
    requires Enabled(s, EvResume(ok, token))
    ensures Moves(s, Step(s, EvResume(ok, token)), s.running.value.call.kont)
  {
    var r := s.running.value;
    var k := r.call.kont;
    ExitEpoch(s, r);
    hide ExitCall, Continue;
    ContinueMoves(ExitCall(s, r), k, if IsUnlock(k) then r.unsealed else if k.Replace? then r.made.Some? else ok,
                  if r.made.Some? then r.made.value else 0, token);
  }

  /** Tier 1, and the browser's unlock, open only on the warrant of the epoch they open in. */
  lemma OpensOnlyApproved(s: State, ev: Event)
    requires Inv(s) && Enabled(s, ev)
    ensures OpensApproved(s, Step(s, ev))
  {
    hide Inv, Step, Request, Lock, Warranted;
    if Quiet(ev) { QuietStep(s, ev); }
    else if ev.EvGrant? || ev.EvCopy? || ev.EvOther? { CallStep(s, ev); }
    else if ev.EvAcquire? { AcquireStep(s, ev.token); }
    else if ev.EvApprove? { StepApprove(s, ev); ApproveStep(s, ev.dialog, ev.token); }
    else if ev.EvResume? { ResumeOpens(s, ev.ok, ev.token); }
    else { LockStep(s, ev); }
  }

  lemma StepApprove(s: State, ev: Event)
    requires ev.EvApprove? && Enabled(s, ev)
    ensures Step(s, ev) == Approve(s, ev.dialog, ev.token)
  {
  }

  /** op_reset goes on after its last read, in the epoch of its approval, and locks. */
  ghost predicate ResetLocks(s: State, ev: Event, t: State, c: Conn) {
    && ev.EvResume? && s.running.Some? && s.running.value.call.kont.ResetCheck?
    && s.running.value.call.kont.conn == c && (c, AskReset, s.ss.epoch) in s.approved && t.ss.epoch == s.ss.epoch + 1
  }

  predicate Approves(ev: Event, c: Conn, ask: Ask) {
    ev.EvApprove? && ev.dialog.conn == c && ev.dialog.ask == ask
  }

  /** What a step adds to the history: an approval by an approval, an own lock by the op it belongs to. */
  ghost predicate Adds(s: State, ev: Event, t: State) {
    && s.ss.epoch <= t.ss.epoch
    && (forall c, ask, e :: (c, ask, e) in t.approved && (c, ask, e) !in s.approved ==>
          Approves(ev, c, ask) && e == s.ss.epoch)
    && (forall c, ask, e :: (c, ask, e) in t.locked && (c, ask, e) !in s.locked ==>
          e == t.ss.epoch == s.ss.epoch + 1
          && if ask == AskMigrate then Approves(ev, c, AskMigrate) else ask == AskReset && ResetLocks(s, ev, t, c))
  }

  lemma NothingAdds(s: State, ev: Event, t: State)
    requires s.ss.epoch <= t.ss.epoch && t.approved == s.approved && t.locked == s.locked
    ensures Adds(s, ev, t)
  {
  }

  lemma ApproveAdds(s: State, ev: Event)
    requires Enabled(s, ev) && ev.EvApprove?
    ensures Adds(s, ev, Step(s, ev))
  {
    StepApprove(s, ev);
    ApproveStep(s, ev.dialog, ev.token);
    hide Step, Approve;
  }

  lemma StepAdds(s: State, ev: Event)
    requires Inv(s) && Enabled(s, ev)
    ensures Adds(s, ev, Step(s, ev))
  {
    hide Inv, Step, Adds, OpensNothing;
    if ev.EvApprove? { ApproveAdds(s, ev); }
    else if ev.EvResume? { ResumeAdds(s, ev); }
    else {
      if Quiet(ev) { QuietStep(s, ev); }
      else if ev.EvGrant? || ev.EvCopy? || ev.EvOther? { CallStep(s, ev); }
      else if ev.EvAcquire? { AcquireStep(s, ev.token); }
      else { LockStep(s, ev); }
      NothingAdds(s, ev, Step(s, ev));
    }
  }

  lemma ResumeAdds(s: State, ev: Event)
    requires Inv(s) && Enabled(s, ev) && ev.EvResume?
    ensures Adds(s, ev, Step(s, ev))
  {
    Parts(s);
    var k := s.running.value.call.kont;
    assert k.ResetCheck? ==> Warrant(s, k);
    hide Inv, Step, KontOk, RunOk, SessOk, Wiping;
    ResumeMoves(s, ev.ok, ev.token);
  }

  lemma RunAdds(states: seq<State>, events: seq<Event>, i: nat)
    requires IsRun(states, events) && i < |events|
    ensures Adds(states[i], events[i], states[i + 1]) && states[i].ss.epoch <= states[i + 1].ss.epoch
  {
    RunInv(states, events, i);
    hide Inv, Step;
    StepAdds(states[i], events[i]);
  }

  lemma RunShape(states: seq<State>, events: seq<Event>)
    requires IsRun(states, events)
    ensures |states| == |events| + 1 && states[0].approved == {} && states[0].locked == {}
  {
    hide Step, Enabled;
  }

  lemma {:induction false} EpochNeverFalls(states: seq<State>, events: seq<Event>, i: nat, j: nat)
    requires IsRun(states, events) && i <= j < |states|
    ensures states[i].ss.epoch <= states[j].ss.epoch
  {
    hide IsRun, Adds;
    RunShape(states, events);
    if i < j {
      EpochNeverFalls(states, events, i, j - 1);
      RunAdds(states, events, j - 1);
    }
  }

  /** An approval on record was given, in a step that began in the epoch on record. */
  lemma {:induction false} ApprovedBy(states: seq<State>, events: seq<Event>, i: nat, c: Conn, ask: Ask, e: nat) returns (j: nat)
    requires IsRun(states, events) && i < |states| && (c, ask, e) in states[i].approved
    ensures j < i && Approves(events[j], c, ask) && states[j].ss.epoch == e
  {
    hide IsRun;
    RunShape(states, events);
    RunAdds(states, events, i - 1);
    if (c, ask, e) in states[i - 1].approved {
      j := ApprovedBy(states, events, i - 1, c, ask, e);
    } else {
      j := i - 1;
    }
  }

  /** An own lock on record was made by its op, into the epoch on record. */
  lemma {:induction false} LockedBy(states: seq<State>, events: seq<Event>, i: nat, c: Conn, ask: Ask, e: nat) returns (j: nat)
    requires IsRun(states, events) && i < |states| && (c, ask, e) in states[i].locked
    ensures j < i && states[j + 1].ss.epoch == e && e == states[j].ss.epoch + 1
    ensures if ask == AskMigrate then Approves(events[j], c, AskMigrate)
            else ask == AskReset && ResetLocks(states[j], events[j], states[j + 1], c)
  {
    hide IsRun;
    RunShape(states, events);
    RunAdds(states, events, i - 1);
    if (c, ask, e) in states[i - 1].locked {
      j := LockedBy(states, events, i - 1, c, ask, e);
    } else {
      j := i - 1;
    }
  }

  /** One epoch from state `i` to state `j`; every lock moves it. */
  predicate NoLockBetween(states: seq<State>, i: nat, j: nat)
    requires i <= j < |states|
  {
    forall m :: i <= m <= j ==> states[m].ss.epoch == states[j].ss.epoch
  }

  lemma SameEpoch(states: seq<State>, events: seq<Event>, i: nat, j: nat)
    requires IsRun(states, events) && i <= j < |states| && states[i].ss.epoch == states[j].ss.epoch
    ensures NoLockBetween(states, i, j)
  {
    hide IsRun;
    forall m | i <= m <= j ensures states[m].ss.epoch == states[j].ss.epoch {
      EpochNeverFalls(states, events, i, m);
      EpochNeverFalls(states, events, m, j);
    }
  }

  /** A dialog of this kind was approved for `c` in step `j`, and from before that step up to state `i`
      no lock has landed. */
  ghost predicate HeldSince(states: seq<State>, events: seq<Event>, j: nat, i: nat, c: Conn, ask: Ask)
    requires |states| == |events| + 1 && i < |states|
  {
    j < i && Approves(events[j], c, ask) && NoLockBetween(states, j, i)
  }

  /** The same for a migration that locked in the very step of its approval: that lock and no other. */
  ghost predicate HeldAcrossOwn(states: seq<State>, events: seq<Event>, j: nat, i: nat, c: Conn)
    requires |states| == |events| + 1 && i < |states|
  {
    && j < i && Approves(events[j], c, AskMigrate)
    && states[j + 1].ss.epoch == states[j].ss.epoch + 1 && NoLockBetween(states, j + 1, i)
  }

  /** The same for a reset: no lock from before its approval to its own lock in step `m`, and none from
      after that step up to state `i`. */
  ghost predicate HeldTwice(states: seq<State>, events: seq<Event>, j: nat, m: nat, i: nat, c: Conn)
    requires |states| == |events| + 1 && i < |states|
  {
    && m < i && HeldSince(states, events, j, m, c, AskReset)
    && ResetLocks(states[m], events[m], states[m + 1], c) && NoLockBetween(states, m + 1, i)
  }

  /** Why tier 1 may open for `c` in step `i`: an unlock, sign-in, migration or reset dialog of it was
      approved, and no lock but the op's own has landed since. */
  ghost predicate MayOpen(states: seq<State>, events: seq<Event>, i: nat, c: Conn)
    requires |states| == |events| + 1 && i < |states|
  {
    || (exists j :: HeldSince(states, events, j, i, c, AskUnlock))
    || (exists j :: HeldSince(states, events, j, i, c, AskSignin))
    || (exists j :: HeldSince(states, events, j, i, c, AskMigrate))
    || (exists j :: HeldAcrossOwn(states, events, j, i, c))
    || (exists j, m :: HeldTwice(states, events, j, m, i, c))
  }

  lemma ApprovalHolds(states: seq<State>, events: seq<Event>, i: nat, c: Conn, ask: Ask) returns (j: nat)
    requires IsRun(states, events) && i < |states| && (c, ask, states[i].ss.epoch) in states[i].approved
    ensures HeldSince(states, events, j, i, c, ask)
  {
    hide IsRun;
    j := ApprovedBy(states, events, i, c, ask, states[i].ss.epoch);
    SameEpoch(states, events, j, i);
  }

  lemma OwnLockHolds(states: seq<State>, events: seq<Event>, i: nat, c: Conn, ask: Ask)
    requires IsRun(states, events) && i < |states| && (c, ask, states[i].ss.epoch) in states[i].locked
    ensures MayOpen(states, events, i, c)
  {
    hide IsRun, HeldSince;
    RunShape(states, events);
    var m := LockedBy(states, events, i, c, ask, states[i].ss.epoch);
    SameEpoch(states, events, m + 1, i);
    if ask == AskMigrate {
      assert HeldAcrossOwn(states, events, m, i, c);
    } else {
      var j := ApprovalHolds(states, events, m, c, AskReset);
      assert HeldTwice(states, events, j, m, i, c);
    }
  }

  /** In every run, whenever tier 1 opens for a connection in step `i`, an unlock, sign-in, migration or
      reset dialog of that connection was approved before and from that approval to the opening no lock
      has landed but the op's own; whenever the browser's unlock opens, a names dialog was, with no lock
      at all. */
  lemma OpensAfterApproval(states: seq<State>, events: seq<Event>, i: nat, c: Conn)
    requires IsRun(states, events) && i < |events|
    ensures var s, t := states[i].ss, states[i + 1].ss;
      && (t.tier1 == Some(c) && s.tier1 != Some(c) ==> t.epoch == s.epoch && MayOpen(states, events, i, c))
      && (t.autofill == Some(c) && s.autofill != Some(c) ==>
          t.epoch == s.epoch && exists j :: HeldSince(states, events, j, i, c, AskNames))
  {
    var s, t := states[i], states[i + 1];
    RunInv(states, events, i);
    OpensOnlyApproved(s, events[i]);
    hide Inv, Step, IsRun, HeldSince, HeldAcrossOwn, HeldTwice, MayOpen;
    if t.ss.autofill == Some(c) && s.ss.autofill != Some(c) {
      var j := ApprovalHolds(states, events, i, c, AskNames);
    }
    if t.ss.tier1 == Some(c) && s.ss.tier1 != Some(c) {
      WarrantHolds(states, events, i, c);
    }
  }

  lemma WarrantHolds(states: seq<State>, events: seq<Event>, i: nat, c: Conn)
    requires IsRun(states, events) && i < |states| && Warranted(states[i], c)
    ensures MayOpen(states, events, i, c)
  {
    hide IsRun, HeldSince, HeldAcrossOwn, HeldTwice;
    RunShape(states, events);
    var s := states[i];
    var e := s.ss.epoch;
    if (c, AskUnlock, e) in s.approved { var j := ApprovalHolds(states, events, i, c, AskUnlock); }
    else if (c, AskSignin, e) in s.approved { var j := ApprovalHolds(states, events, i, c, AskSignin); }
    else if (c, AskMigrate, e) in s.approved { var j := ApprovalHolds(states, events, i, c, AskMigrate); }
    else if (c, AskMigrate, e) in s.locked { OwnLockHolds(states, events, i, c, AskMigrate); }
    else { OwnLockHolds(states, events, i, c, AskReset); }
  }

  /** Every lock moves the epoch, closes what is open and ends what was given or asked. */
  lemma LockMovesEpoch(s: State)
    ensures var t := Step(s, EvLock).ss;
      && t.epoch == s.ss.epoch + 1 && t.tier1.None? && t.autofill.None?
      && t.grant.None? && t.tickets == {} && t.dialogs == {}
  {
  }

  // --- the objects ------------------------------------------------------------------------------------

  /** The mutex and the key of a UserStore. `held` is true while a worker is between taking and
      releasing the mutex. */
  class UserStore {
    var keys: bool
    var wipeReq: bool
    var held: bool

    constructor ()
      ensures Abs() == Obj(false, false) && !held
    {
      keys, wipeReq, held := false, false, false;
    }

    function Abs(): Obj reads this { Obj(keys, wipeReq) }

    method WipeNow()
      modifies this`keys
      ensures !keys
    {
      keys := false;
    }

    method TryLockNow() returns (done: bool)
      modifies this`keys, this`wipeReq
      ensures (Abs(), done) == TryLock(old(Abs()), held)
    {
      wipeReq := true;
      if held { return false; }
      WipeNow();
      wipeReq := false;
      return true;
    }

    /** The entry of an outermost serialized method: it takes the mutex and runs or is refused. */
    method EnterMethod() returns (runs: bool)
      requires !held
      modifies this
      ensures held && (Abs(), runs) == Enter(old(Abs()))
    {
      held := true;
      if wipeReq {
        WipeNow();
        return false;
      }
      return true;
    }

    /** The end of an outermost serialized method, with the mutex still held. */
    method LeaveMethod()
      requires held
      modifies this`keys
      ensures Abs() == Leave(old(Abs()))
    {
      if wipeReq { WipeNow(); }
    }

    method ReleaseMutex()
      requires held
      modifies this`held
      ensures !held
    {
      held := false;
    }
  }

  class Session {
    var store: UserStore
    var epoch: nat
    var ui: Option<Conn>
    var tier1: Option<Conn>
    var autofillConn: Option<Conn>
    var closed: set<Conn>
    var wipeAfter: bool
    var replacing: bool
    var grant: Option<nat>
    var tickets: set<Ticket>
    var dialogs: set<Dialog>

    constructor (store: UserStore)
      ensures this.store == store
      ensures Abs() == Sess(0, None, None, None, {}, false, false, None, {}, {})
    {
      this.store, epoch, ui, tier1, autofillConn := store, 0, None, None, None;
      closed, wipeAfter, replacing, grant, tickets, dialogs := {}, false, false, None, {}, {};
    }

    function Abs(): Sess reads this {
      Sess(epoch, ui, tier1, autofillConn, closed, wipeAfter, replacing, grant, tickets, dialogs)
    }

    /** Wipes the store's keys, or leaves the wipe to the call that runs, without waiting. */
    method WipeStoreNow()
      modifies this`wipeAfter, store`keys, store`wipeReq
      ensures (Abs(), store.Abs()) == Wipe(old(Abs()), old(store.Abs()), store.held)
    {
      var done := store.TryLockNow();
      if done && !replacing { wipeAfter := false; }
      else if !wipeAfter { wipeAfter := true; }
    }

    /** Every lock trigger. Returns whether tier 1 was open. */
    method LockNow() returns (was: bool)
      modifies this, store`keys, store`wipeReq
      ensures was == old(tier1).Some? && store == old(store)
      ensures (Abs(), store.Abs()) == LockBoth(old(Abs()), old(store.Abs()), store.held)
    {
      was := tier1.Some?;
      autofillConn := None;
      tier1 := None;
      epoch := epoch + 1;
      grant := None;
      tickets := {};
      dialogs := {};
      WipeStoreNow();
    }

    /** Ends the browser's unlock: a full lock unless the window has tier 1 open. */
    method CloseAutofillNow()
      modifies this, store`keys, store`wipeReq
      ensures store == old(store)
      ensures (Abs(), store.Abs()) == CloseAutofillBoth(old(Abs()), old(store.Abs()), store.held)
    {
      if autofillConn.None? { return; }
      if Unlocked(Abs()) { autofillConn := None; } else { var _ := LockNow(); }
    }

    /** The check before tier 1 opens on a store an op made. */
    method NotLockedSince(c: Conn, epoch': nat) returns (ok: bool)
      modifies this`wipeAfter, store`keys, store`wipeReq
      ensures ok == Same(old(Abs()), c, epoch')
      ensures (Abs(), store.Abs()) ==
        if ok then (old(Abs()), old(store.Abs())) else Wipe(old(Abs()), old(store.Abs()), store.held)
    {
      if epoch != epoch' || c in closed || ui != Some(c) {
        WipeStoreNow();
        return false;
      }
      return true;
    }
  }
}
