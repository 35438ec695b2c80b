/** The dialog table: one open dialog per bucket, and a pause after three refusals in a minute. */
module Prompts {
  import opened Wrappers

  const ANSWERED_PER_MIN: nat := 3
  const MINUTE: real := 60.0

  /** One dialog at a time for a uid and a bucket; refusals are counted for an action of it. */
  datatype Key = Key(uid: nat, bucket: string)
  datatype Slot = Slot(key: Key, action: string)

  /** What polkit answers, and what the caller is told. */
  datatype Outcome = Authorized | Dismissed | Denied | DeniedUnanswered | NoAgent | Busy | Cancelled | Internal

  predicate Counted(o: Outcome) { o == Dismissed || o == Denied }

  /** Which connection asks, for which of its requests if any, and whether it has gone. */
  datatype Asker = Asker(conn: nat, rid: Option<nat>, closed: bool)

  datatype Dialog = Dialog(slot: Slot, asker: Asker, cancelled: bool)

  /** `running` holds every dialog whose check has not come back, cancelled or not; `log` is every
      counted refusal of a slot, which the daemon does not keep. */
  datatype State = State(
    pending: map<Key, nat>, running: map<nat, Dialog>, answered: map<Slot, seq<real>>,
    next: nat, clock: real, log: map<Slot, seq<real>>)

  const START := State(map[], map[], map[], 0, 0.0, map[])

  datatype Refusal = Gone | PromptPending | RateLimited(retryAfter: int)

  function Times(m: map<Slot, seq<real>>, slot: Slot): seq<real> { if slot in m then m[slot] else [] }

  /** Refusals a minute old no longer count. */
  function Recent(q: seq<real>, now: real): seq<real> {
    if q != [] && now - q[0] >= MINUTE then Recent(q[1..], now) else q
  }

  function Ceil(x: real): int { -((-x).Floor) }

  function Max(a: int, b: int): int { if a < b then b else a }

  function RetryAfter(oldest: real, now: real): int { Max(1, Ceil(MINUTE - (now - oldest))) }

  // --- the three segments of a dialog, as functions ---

  /** Up to the wait for polkit: refused, or a dialog under the next number. */
  function Admit(s: State, slot: Slot, asker: Asker, now: real): (State, Result<nat, Refusal>) {
    var s1 := s.(clock := now);
    if asker.closed then (s1, Err(Gone))
    else if slot.key in s.pending then (s1, Err(PromptPending))
    else
      var q := Recent(Times(s.answered, slot), now);
      var s2 := s1.(answered := s.answered[slot := q]);
      if |q| >= ANSWERED_PER_MIN then (s2, Err(RateLimited(RetryAfter(q[0], now))))
      else (s2.(pending := s.pending[slot.key := s.next], running := s.running[s.next := Dialog(slot, asker, false)],
                next := s.next + 1), Ok(s.next))
  }

  /** The dialog's connection, request or uid went away: its slot is free at once. */
  function Cancel(s: State, p: nat): State {
    if p !in s.running || s.running[p].cancelled then s
    else
      var d := s.running[p];
      var s1 := s.(running := s.running[p := d.(cancelled := true)]);
      if d.slot.key in s.pending && s.pending[d.slot.key] == p then s1.(pending := s.pending - {d.slot.key}) else s1
  }

  /** polkit answered: what counts, and what the caller hears. */
  function Finish(s: State, p: nat, answer: Outcome, closed: bool, now: real): (State, Outcome)
    requires p in s.running
  {
    var d := s.running[p];
    var outcome := if d.cancelled then Cancelled else answer;
    var s1 := s.(clock := now, running := s.running - {p},
                 pending := if d.slot.key in s.pending && s.pending[d.slot.key] == p
                            then s.pending - {d.slot.key} else s.pending);
    var s2 := if Counted(outcome)
      then s1.(answered := s.answered[d.slot := Times(s.answered, d.slot) + [now]],
               log := s.log[d.slot := Times(s.log, d.slot) + [now]])
      else s1;
    (s2, if outcome == DeniedUnanswered then Denied
         else if outcome == Authorized && closed then Cancelled else outcome)
  }

  // --- runs ---

  datatype Event =
    | EvAdmit(slot: Slot, asker: Asker, at: real)
    | EvCancel(p: nat)
    | EvFinish(p: nat, answer: Outcome, closed: bool, at: real)

  predicate Enabled(s: State, ev: Event) {
    match ev
    case EvAdmit(_, _, at) => s.clock <= at
    case EvCancel(_) => true
    case EvFinish(p, _, _, at) => p in s.running && s.clock <= at
  }

  function Step(s: State, ev: Event): State
    requires Enabled(s, ev)
  {
    match ev
    case EvAdmit(slot, asker, at) => Admit(s, slot, asker, at).0
    case EvCancel(p) => Cancel(s, p)
    case EvFinish(p, answer, closed, at) => Finish(s, p, answer, closed, at).0
  }

  ghost predicate IsRun(states: seq<State>, events: seq<Event>) {
    && |states| == |events| + 1 && states[0] == START
    && forall i :: 0 <= i < |events| ==> Enabled(states[i], events[i]) && states[i + 1] == Step(states[i], events[i])
  }

  // --- the invariant ---

  /** A dialog holds its key exactly while it is neither answered nor cancelled. */
  ghost predicate Holding(s: State) {
    && (forall p :: p in s.running && !s.running[p].cancelled ==>
          s.running[p].slot.key in s.pending && s.pending[s.running[p].slot.key] == p)
    && (forall k :: k in s.pending ==>
          s.pending[k] in s.running && !s.running[s.pending[k]].cancelled && s.running[s.pending[k]].slot.key == k)
    && forall p :: p in s.running ==> p < s.next
  }

  predicate Rising(q: seq<real>, now: real) {
    && (forall i, j :: 0 <= i < j < |q| ==> q[i] <= q[j])
    && forall i :: 0 <= i < |q| ==> q[i] <= now
  }

  /** Any four refusals in a row span a minute. */
  predicate Spaced(log: seq<real>) {
    forall i :: 0 <= i && i + 3 < |log| ==> log[i + 3] - log[i] >= MINUTE
  }

  /** The queue is the end of the log, holds three at most, and whatever left it was a minute old. */
  ghost predicate Tail(q: seq<real>, log: seq<real>, now: real) {
    && |q| <= ANSWERED_PER_MIN && |q| <= |log| && q == log[|log| - |q|..]
    && (forall i :: 0 <= i < |log| - |q| ==> now - log[i] >= MINUTE)
    && Rising(log, now) && Spaced(log)
  }

  /** While a dialog of the slot is open there is room for its refusal. */
  ghost predicate Room(s: State) {
    forall p :: p in s.running && !s.running[p].cancelled ==> |Times(s.answered, s.running[p].slot)| < ANSWERED_PER_MIN
  }

  ghost predicate Inv(s: State) {
    && Holding(s) && Room(s)
    && forall slot :: Tail(Times(s.answered, slot), Times(s.log, slot), s.clock)
  }

  lemma {:induction false} RecentIs(q: seq<real>, now: real)
    requires Rising(q, now)
    ensures |Recent(q, now)| <= |q| && Recent(q, now) == q[|q| - |Recent(q, now)|..]
    ensures forall i :: 0 <= i < |q| - |Recent(q, now)| ==> now - q[i] >= MINUTE
    ensures Recent(q, now) != [] ==> now - Recent(q, now)[0] < MINUTE
  {
    if q != [] && now - q[0] >= MINUTE {
      RecentIs(q[1..], now);
    }
  }

  lemma TailLater(q: seq<real>, log: seq<real>, now: real, later: real)
    requires Tail(q, log, now) && now <= later
    ensures Tail(q, log, later)
  {
  }

  lemma TailTrims(q: seq<real>, log: seq<real>, now: real)
    requires Tail(q, log, now)
    ensures Tail(Recent(q, now), log, now)
  {
  }

  /** The fourth refusal comes a minute after the first: the first had left the queue. */
  lemma TailGrows(q: seq<real>, log: seq<real>, now: real)
    requires Tail(q, log, now) && |q| < ANSWERED_PER_MIN
    ensures Tail(q + [now], log + [now], now)
  {
  }

  /** The queue of a slot stays or is trimmed, and the log stays. */
  lemma AdmitTimes(s: State, slot: Slot, asker: Asker, now: real, t: Slot)
    ensures var s' := Admit(s, slot, asker, now).0; var q := Times(s.answered, t);
      (Times(s'.answered, t) == q || Times(s'.answered, t) == Recent(q, now)) && s'.log == s.log && s'.clock == now
  {
    hide Recent, RetryAfter;
  }

  lemma AdmitTails(s: State, slot: Slot, asker: Asker, now: real, t: Slot)
    requires Inv(s) && s.clock <= now
    ensures var s' := Admit(s, slot, asker, now).0; Tail(Times(s'.answered, t), Times(s'.log, t), now)
    ensures |Times(Admit(s, slot, asker, now).0.answered, t)| <= |Times(s.answered, t)|
  {
    hide Inv, Tail, Recent, Rising, Admit, Times;
    AdmitTimes(s, slot, asker, now, t);
    InvTail(s, t);
    TailLater(Times(s.answered, t), Times(s.log, t), s.clock, now);
    TailTrims(Times(s.answered, t), Times(s.log, t), now);
    TailRising(Times(s.answered, t), Times(s.log, t), s.clock, now);
    RecentIs(Times(s.answered, t), now);
  }

  lemma AdmitHolds(s: State, slot: Slot, asker: Asker, now: real)
    requires Holding(s)
    ensures Holding(Admit(s, slot, asker, now).0)
  {
    hide Recent, RetryAfter;
  }

  lemma AdmitKeeps(s: State, slot: Slot, asker: Asker, now: real)
    requires Inv(s) && s.clock <= now
    ensures Inv(Admit(s, slot, asker, now).0)
  {
    hide Tail, Recent, RetryAfter, Holding, Times;
    var s' := Admit(s, slot, asker, now).0;
    AdmitHolds(s, slot, asker, now);
    forall t
      ensures Tail(Times(s'.answered, t), Times(s'.log, t), now) && |Times(s'.answered, t)| <= |Times(s.answered, t)|
    {
      AdmitTails(s, slot, asker, now, t);
    }
    AdmitRoom(s, slot, asker, now);
  }

  /** A new dialog is let in only where there is room for its refusal. */
  lemma AdmitRoom(s: State, slot: Slot, asker: Asker, now: real)
    requires Inv(s) && s.clock <= now
    ensures Room(Admit(s, slot, asker, now).0)
  {
    hide Tail, Recent, RetryAfter, Holding;
    var s' := Admit(s, slot, asker, now).0;
    forall p | p in s'.running && !s'.running[p].cancelled
      ensures |Times(s'.answered, s'.running[p].slot)| < ANSWERED_PER_MIN
    {
      if p in s.running && s'.running[p] == s.running[p] {
        AdmitTails(s, slot, asker, now, s.running[p].slot);
      }
    }
  }

  lemma TailRising(q: seq<real>, log: seq<real>, now: real, later: real)
    requires Tail(q, log, now) && now <= later
    ensures Rising(q, later)
  {
  }

  lemma CancelKeeps(s: State, p: nat)
    requires Inv(s)
    ensures Inv(Cancel(s, p))
  {
    hide Tail, Recent;
  }

  /** What an answer does to the queue and the log of a slot: nothing, or one more on both. */
  lemma FinishTimes(s: State, p: nat, answer: Outcome, closed: bool, now: real, t: Slot)
    requires p in s.running
    ensures var s' := Finish(s, p, answer, closed, now).0;
      var q, log, q', log' := Times(s.answered, t), Times(s.log, t), Times(s'.answered, t), Times(s'.log, t);
      (q' == q && log' == log)
      || (t == s.running[p].slot && !s.running[p].cancelled && q' == q + [now] && log' == log + [now])
  {
  }

  lemma FinishHolds(s: State, p: nat, answer: Outcome, closed: bool, now: real)
    requires Holding(s) && p in s.running
    ensures Holding(Finish(s, p, answer, closed, now).0)
  {
  }

  /** Any other open dialog has another key, so its slot is not the one that grew. */
  lemma FinishRoom(s: State, p: nat, answer: Outcome, closed: bool, now: real, o: nat)
    requires Holding(s) && Room(s) && p in s.running && o in s.running && o != p && !s.running[o].cancelled
    ensures |Times(Finish(s, p, answer, closed, now).0.answered, s.running[o].slot)| < ANSWERED_PER_MIN
  {
    hide Finish, Times;
    FinishTimes(s, p, answer, closed, now, s.running[o].slot);
    if s.running[o].slot == s.running[p].slot && !s.running[p].cancelled {
      assert s.pending[s.running[o].slot.key] == o && s.pending[s.running[p].slot.key] == p;
    }
  }

  lemma FinishRuns(s: State, p: nat, answer: Outcome, closed: bool, now: real)
    requires p in s.running
    ensures var s' := Finish(s, p, answer, closed, now).0; s'.running == s.running - {p} && s'.clock == now
  {
  }

  lemma FinishKeeps(s: State, p: nat, answer: Outcome, closed: bool, now: real)
    requires Inv(s) && p in s.running && s.clock <= now
    ensures Inv(Finish(s, p, answer, closed, now).0)
  {
    hide Tail, Recent, Finish, Holding, Times;
    var s' := Finish(s, p, answer, closed, now).0;
    FinishRuns(s, p, answer, closed, now);
    FinishHolds(s, p, answer, closed, now);
    forall t ensures Tail(Times(s'.answered, t), Times(s'.log, t), now) {
      FinishTimes(s, p, answer, closed, now, t);
      TailLater(Times(s.answered, t), Times(s.log, t), s.clock, now);
      if t == s.running[p].slot && !s.running[p].cancelled {
        TailGrows(Times(s.answered, t), Times(s.log, t), now);
      }
    }
    forall o | o in s'.running && !s'.running[o].cancelled
      ensures |Times(s'.answered, s'.running[o].slot)| < ANSWERED_PER_MIN
    {
      FinishRoom(s, p, answer, closed, now, o);
    }
  }

  lemma StepKeeps(s: State, ev: Event)
    requires Inv(s) && Enabled(s, ev)
    ensures Inv(Step(s, ev))
  {
    hide Inv, Admit, Cancel, Finish;
    match ev
    case EvAdmit(slot, asker, at) => AdmitKeeps(s, slot, asker, at);
    case EvCancel(p) => CancelKeeps(s, p);
    case EvFinish(p, answer, closed, at) => FinishKeeps(s, p, answer, closed, at);
  }

  lemma {:induction false} RunKeeps(states: seq<State>, events: seq<Event>, i: nat)
    requires IsRun(states, events) && i < |states|
    ensures Inv(states[i])
  {
    hide Step, Enabled;
    if i > 0 {
      RunKeeps(states, events, i - 1);
      StepKeeps(states[i - 1], events[i - 1]);
    }
  }

  // --- the claims ---

  /** In every run: any four consecutive counted refusals of one slot span at least a minute, whatever
      cancelled dialogs were still on their way. */
  lemma RefusalsSpaced(states: seq<State>, events: seq<Event>, i: nat, slot: Slot, k: nat)
    requires IsRun(states, events) && i < |states| && k + 3 < |Times(states[i].log, slot)|
    ensures Times(states[i].log, slot)[k + 3] - Times(states[i].log, slot)[k] >= MINUTE
  {
    hide Step, Enabled, Holding, Room, IsRun;
    RunKeeps(states, events, i);
    assert Tail(Times(states[i].answered, slot), Times(states[i].log, slot), states[i].clock);
  }

  /** In every run: two open dialogs of one uid and bucket are the same dialog. */
  lemma OneOutstanding(states: seq<State>, events: seq<Event>, i: nat, p: nat, q: nat)
    requires IsRun(states, events) && i < |states|
    requires var r := states[i].running;
      p in r && q in r && !r[p].cancelled && !r[q].cancelled && r[p].slot.key == r[q].slot.key
    ensures p == q
  {
    hide Step, Enabled, IsRun;
    RunKeeps(states, events, i);
  }

  /** Once the third refusal from the end is a minute old the queue has room. */
  lemma RoomAgain(q: seq<real>, log: seq<real>, clock: real, at: real)
    requires Tail(q, log, clock) && clock <= at && |log| >= 3 && at - log[|log| - 3] >= MINUTE
    ensures |Recent(q, at)| < ANSWERED_PER_MIN
  {
    hide Spaced;
    TailLater(q, log, clock, at);
    TailRising(q, log, clock, at);
    RecentIs(q, at);
    if |q| == ANSWERED_PER_MIN {
      assert q[0] == log[|log| - 3];
      RecentIs(q[1..], at);
    }
  }

  lemma InvTail(s: State, slot: Slot)
    requires Inv(s)
    ensures Tail(Times(s.answered, slot), Times(s.log, slot), s.clock)
  {
  }

  lemma FullQueue(q: seq<real>, log: seq<real>, clock: real, now: real)
    requires Tail(q, log, clock) && clock <= now && |Recent(q, now)| >= ANSWERED_PER_MIN
    ensures |log| >= 3 && q == log[|log| - 3..] && Recent(q, now) == q && now - log[|log| - 3] < MINUTE
  {
    hide Spaced;
    TailRising(q, log, clock, now);
    RecentIs(q, now);
    assert q[0] == log[|log| - 3];
  }

  /** Being told to wait means three recent refusals, the oldest of them timing the wait. */
  lemma Limited(s: State, slot: Slot, asker: Asker, now: real)
    requires Inv(s) && s.clock <= now && Admit(s, slot, asker, now).1.Err? && Admit(s, slot, asker, now).1.error.RateLimited?
    ensures var log := Times(s.log, slot);
      |log| >= 3 && now - log[|log| - 3] < MINUTE && Times(s.answered, slot) == log[|log| - 3..]
      && Admit(s, slot, asker, now).1.error.retryAfter == RetryAfter(log[|log| - 3], now)
  {
    hide Inv, Tail, Recent, Spaced, RetryAfter;
    var q0, log := Times(s.answered, slot), Times(s.log, slot);
    InvTail(s, slot);
    FullQueue(q0, log, s.clock, now);
  }

  /** A slot that was told to wait is not limited once it waited that long, unless refusals of it were
      counted meanwhile. */
  lemma WaitingSuffices(s: State, slot: Slot, asker: Asker, now: real, later: State, at: real)
    requires Inv(s) && s.clock <= now && Admit(s, slot, asker, now).1.Err? && Admit(s, slot, asker, now).1.error.RateLimited?
    requires Inv(later) && Times(later.log, slot) == Times(s.log, slot) && slot.key !in later.pending
    requires later.clock <= at && at >= now + Admit(s, slot, asker, now).1.error.retryAfter as real
    ensures Admit(later, slot, asker, at).1.Ok?
  {
    hide Holding, Room, Tail, Recent;
    Limited(s, slot, asker, now);
    var log := Times(s.log, slot);
    CeilAbove(MINUTE - (now - log[|log| - 3]));
    assert Tail(Times(later.answered, slot), log, later.clock);
    RoomAgain(Times(later.answered, slot), log, later.clock, at);
  }

  lemma CeilAbove(x: real)
    ensures x <= Ceil(x) as real < x + 1.0
  {
  }

  /** And it is not told to wait a whole second too long: until the last second it would be refused. */
  lemma WaitingNeeded(s: State, slot: Slot, asker: Asker, now: real, at: real)
    requires Inv(s) && s.clock <= now && Admit(s, slot, asker, now).1.Err? && Admit(s, slot, asker, now).1.error.RateLimited?
    requires now <= at && at <= now + Admit(s, slot, asker, now).1.error.retryAfter as real - 1.0
    ensures Admit(s, slot, asker, at).1.Err? && Admit(s, slot, asker, at).1.error.RateLimited?
  {
    hide Holding, Room, Tail;
    Limited(s, slot, asker, now);
    var log := Times(s.log, slot);
    CeilAbove(MINUTE - (now - log[|log| - 3]));
    var q := log[|log| - 3..];
    assert q[0] == log[|log| - 3];
    assert at - q[0] < MINUTE;
    assert Recent(q, at) == q;
  }

  /** An open dialog of this uid and bucket. */
  ghost predicate Open(s: State, k: Key) {
    exists p :: p in s.running && !s.running[p].cancelled && s.running[p].slot.key == k
  }

  /** Three counted refusals of the slot, the oldest of them less than a minute old. */
  predicate Pausing(log: seq<real>, now: real) { |log| >= 3 && now - log[|log| - 3] < MINUTE }

  /** What a new dialog is told, in terms of the open dialogs and of every refusal ever counted: each of the
      four answers exactly when. */
  lemma AdmitExactly(s: State, slot: Slot, asker: Asker, now: real)
    requires Inv(s) && s.clock <= now
    ensures var (t, r) := Admit(s, slot, asker, now); var log := Times(s.log, slot);
      && (r == Err(Gone) <==> asker.closed)
      && (r == Err(PromptPending) <==> !asker.closed && Open(s, slot.key))
      && (r.Err? && r.error.RateLimited? <==> !asker.closed && !Open(s, slot.key) && Pausing(log, now))
      && (Pausing(log, now) && r.Err? && r.error.RateLimited? ==>
            r.error.retryAfter == Max(1, Ceil(MINUTE - (now - log[|log| - 3]))))
      && (r.Ok? <==> !asker.closed && !Open(s, slot.key) && !Pausing(log, now))
      && (r.Ok? ==> r.value !in s.running && t.running == s.running[r.value := Dialog(slot, asker, false)])
      && (r.Err? ==> t.running == s.running)
  {
    AdmitLimits(s, slot, now);
    assert slot.key in s.pending <==> Open(s, slot.key) by { OpenIsPending(s, slot.key); }
    if !asker.closed && slot.key !in s.pending && |Recent(Times(s.answered, slot), now)| >= ANSWERED_PER_MIN {
      Limited(s, slot, asker, now);
    }
    hide Tail, Room, Recent;
  }

  lemma OpenIsPending(s: State, k: Key)
    requires Holding(s)
    ensures k in s.pending <==> Open(s, k)
  {
  }

  lemma AdmitLimits(s: State, slot: Slot, now: real)
    requires Inv(s) && s.clock <= now
    ensures |Recent(Times(s.answered, slot), now)| >= ANSWERED_PER_MIN <==> Pausing(Times(s.log, slot), now)
  {
    hide Inv, Recent, Times, Spaced;
    var q, log := Times(s.answered, slot), Times(s.log, slot);
    InvTail(s, slot);
    if |Recent(q, now)| >= ANSWERED_PER_MIN { FullQueue(q, log, s.clock, now); }
    else if Pausing(log, now) {
      TailLater(q, log, s.clock, now);
      TailRising(q, log, s.clock, now);
      RecentIs(q, now);
      TailTrims(q, log, now);
    }
  }

  /** Dialog `p` was let in by event `a`, and it is cancelled exactly when a cancel of it came since. */
  ghost predicate Born(states: seq<State>, events: seq<Event>, a: nat, i: nat, p: nat)
    requires |states| == |events| + 1 && a < i < |states| && p in states[i].running
  {
    && events[a].EvAdmit? && Admit(states[a], events[a].slot, events[a].asker, events[a].at).1 == Ok(p)
    && states[i].running[p].slot == events[a].slot && states[i].running[p].asker == events[a].asker
    && (states[i].running[p].cancelled <==> exists b :: a < b < i && events[b] == EvCancel(p))
  }

  lemma {:induction false} DialogBorn(states: seq<State>, events: seq<Event>, i: nat, p: nat) returns (a: nat)
    requires IsRun(states, events) && i < |states| && p in states[i].running
    ensures |states| == |events| + 1 && a < i && Born(states, events, a, i, p)
  {
    assert i > 0;
    var s, ev := states[i - 1], events[i - 1];
    assert Enabled(s, ev) && states[i] == Step(s, ev);
    RunKeeps(states, events, i - 1);
    assert Holding(s);
    hide IsRun, Inv, Holding, Enabled, Step, Admit;
    NewDialog(s, ev, p);
    if p in s.running {
      a := DialogBorn(states, events, i - 1, p);
      assert Born(states, events, a, i - 1, p);
      StaysRunning(s, ev, p);
      if exists b :: a < b < i && events[b] == EvCancel(p) {
        var b :| a < b < i && events[b] == EvCancel(p);
        assert b < i - 1 ==> s.running[p].cancelled;
      }
    } else {
      a := i - 1;
    }
  }

  lemma NewDialog(s: State, ev: Event, p: nat)
    requires Enabled(s, ev) && p in Step(s, ev).running
    ensures p in s.running
      || (ev.EvAdmit? && Admit(s, ev.slot, ev.asker, ev.at).1 == Ok(p) && Step(s, ev).running[p] == Dialog(ev.slot, ev.asker, false))
  {
    hide Recent, RetryAfter;
  }

  lemma StaysRunning(s: State, ev: Event, p: nat)
    requires Holding(s) && Enabled(s, ev) && p in s.running && p in Step(s, ev).running
    ensures Step(s, ev).running[p] == s.running[p].(cancelled := s.running[p].cancelled || ev == EvCancel(p))
  {
    hide Recent, RetryAfter;
  }

  /** In every run: whoever asked for a dialog hears that it was authorized if and only if polkit answered
      so, no cancel of it came since it was let in, and the connection is still there. A cancelled one is
      told Cancelled; a denial that nobody answered is told Denied; any other answer as it is. A refusal
      is counted, at the time of the answer and for its own slot alone, if and only if it was Dismissed or
      Denied and not cancelled. */
  lemma CallerHears(states: seq<State>, events: seq<Event>, i: nat) returns (a: nat)
    requires IsRun(states, events) && i < |events| && events[i].EvFinish?
    ensures |states| == |events| + 1 && a < i && events[a].EvAdmit?
    ensures var p, answer := events[i].p, events[i].answer;
      var told := Finish(states[i], p, answer, events[i].closed, events[i].at).1;
      var cancelled := exists b :: a < b < i && events[b] == EvCancel(p);
      && Admit(states[a], events[a].slot, events[a].asker, events[a].at).1 == Ok(p)
      && (told == Authorized <==> answer == Authorized && !cancelled && !events[i].closed)
      && (cancelled || (answer == Authorized && events[i].closed) ==> told == Cancelled)
      && (!cancelled && answer == DeniedUnanswered ==> told == Denied)
      && (!cancelled && answer != DeniedUnanswered && answer != Authorized ==> told == answer)
      && forall t :: Times(states[i + 1].log, t) == Times(states[i].log, t)
           + if t == events[a].slot && !cancelled && (answer == Dismissed || answer == Denied) then [events[i].at] else []
  {
    var s, ev := states[i], events[i];
    assert Enabled(s, ev) && states[i + 1] == Step(s, ev);
    a := DialogBorn(states, events, i, ev.p);
    assert Born(states, events, a, i, ev.p);
    hide IsRun, Admit;
    forall t ensures Times(states[i + 1].log, t) == Times(states[i].log, t)
      + if t == s.running[ev.p].slot && !s.running[ev.p].cancelled && (ev.answer == Dismissed || ev.answer == Denied)
        then [ev.at] else []
    {
      FinishTimes(s, ev.p, ev.answer, ev.closed, ev.at, t);
    }
  }

  lemma PendingRuns(s: State)
    requires Holding(s)
    ensures forall k :: k in s.pending ==>
      s.pending[k] in s.running && !s.running[s.pending[k]].cancelled && s.running[s.pending[k]].slot.key == k
  {
  }

  /** Cancelling the dialog a key holds frees that key and no other. */
  lemma CancelFrees(s: State, k: Key)
    requires Holding(s) && k in s.pending
    ensures s.pending[k] in s.running
    ensures var p := s.pending[k];
      Cancel(s, p) == s.(pending := s.pending - {k}, running := s.running[p := s.running[p].(cancelled := true)])
  {
  }

  // --- the table as the daemon has it ---

  class PromptTable {
    var pending: map<Key, nat>
    var running: map<nat, Dialog>
    var answered: map<Slot, seq<real>>
    var next: nat
    ghost var clock: real
    ghost var log: map<Slot, seq<real>>

    ghost function Now(): State
      reads this
    {
      State(pending, running, answered, next, clock, log)
    }

    constructor ()
      ensures Now() == START
    {
      pending, running, answered, next, clock, log := map[], map[], map[], 0, 0.0, map[];
    }

    /** The part of authorize before the wait. */
    method Ask(slot: Slot, asker: Asker, now: real) returns (r: Result<nat, Refusal>)
      modifies this
      ensures (Now(), r) == Admit(old(Now()), slot, asker, now)
    {
      clock := now;
      if asker.closed { return Err(Gone); }
      if slot.key in pending { return Err(PromptPending); }
      var q := Times(answered, slot);
      while q != [] && now - q[0] >= MINUTE
        invariant Recent(q, now) == Recent(Times(answered, slot), now)
        decreases |q|
      {
        q := q[1..];
      }
      answered := answered[slot := q];
      if |q| >= ANSWERED_PER_MIN {
        return Err(RateLimited(RetryAfter(q[0], now)));
      }
      pending := pending[slot.key := next];
      running := running[next := Dialog(slot, asker, false)];
      next := next + 1;
      r := Ok(next - 1);
    }

    /** The part after the wait. */
    method Answer(p: nat, answer: Outcome, closed: bool, now: real) returns (o: Outcome)
      requires p in running
      modifies this
      ensures (Now(), o) == Finish(old(Now()), p, answer, closed, now)
    {
      clock := now;
      var d := running[p];
      running := running - {p};
      if d.slot.key in pending && pending[d.slot.key] == p {
        pending := pending - {d.slot.key};
      }
      o := if d.cancelled then Cancelled else answer;
      if o == DeniedUnanswered {
        o := Denied;
      } else if Counted(o) {
        answered := answered[d.slot := Times(answered, d.slot) + [now]];
        log := log[d.slot := Times(log, d.slot) + [now]];
      }
      if o == Authorized && closed {
        o := Cancelled;
      }
    }

    method CancelOne(p: nat)
      modifies this
      ensures Now() == Cancel(old(Now()), p)
    {
      if p !in running || running[p].cancelled { return; }
      var d := running[p];
      running := running[p := d.(cancelled := true)];
      if d.slot.key in pending && pending[d.slot.key] == p {
        pending := pending - {d.slot.key};
      }
    }

    /** Every open dialog that matches goes: of a uid, a connection, a request, an action. */
    method CancelPrompts(f: Filter)
      requires Inv(Now())
      modifies this
      ensures Inv(Now())
      ensures pending == map k | k in old(pending) && !Matches(old(running)[old(pending)[k]], f) :: old(pending)[k]
      ensures running.Keys == old(running).Keys && answered == old(answered) && log == old(log)
    {
      hide Holding, Room, Tail, Cancel, Sifted, Matches;
      ghost var was := Now();
      var left := pending.Keys;
      SiftStart(was, f);
      while left != {}
        invariant Inv(Now()) && Sifted(was, Now(), left, f)
        decreases left
      {
        var k: Key :| k in left;
        SiftStep(was, Now(), left, k, f);
        var p := pending[k];
        if Matches(running[p], f) {
          CancelKeeps(Now(), p);
          CancelOne(p);
        }
        left := left - {k};
      }
      SiftDone(was, Now(), f);
    }
  }

  /** Keys still to be looked at are as they were; of the others those that match are gone. */
  ghost predicate Sifted(was: State, s: State, left: set<Key>, f: Filter) {
    && left <= was.pending.Keys && s.answered == was.answered && s.log == was.log
    && s.running.Keys == was.running.Keys
    && (forall k :: k in was.pending ==> was.pending[k] in was.running)
    && (forall k :: k in left ==> k in s.pending && s.pending[k] in s.running)
    && (forall k :: k in left ==> s.running[s.pending[k]] == was.running[was.pending[k]])
    && (forall k :: k in s.pending <==>
          k in was.pending && (k in left || !Matches(was.running[was.pending[k]], f)))
    && forall k :: k in s.pending ==> s.pending[k] == was.pending[k]
  }

  lemma SiftStart(s: State, f: Filter)
    requires Holding(s)
    ensures Sifted(s, s, s.pending.Keys, f)
  {
  }

  lemma SiftStep(was: State, s: State, left: set<Key>, k: Key, f: Filter)
    requires Holding(s) && Sifted(was, s, left, f) && k in left
    ensures k in s.pending && s.pending[k] in s.running
    ensures var p := s.pending[k];
      Sifted(was, if Matches(s.running[p], f) then Cancel(s, p) else s, left - {k}, f)
  {
    hide Holding, Cancel, Matches;
    PendingRuns(s);
    CancelFrees(s, k);
  }

  lemma SiftDone(was: State, s: State, f: Filter)
    requires Sifted(was, s, {}, f)
    ensures s.pending == map k | k in was.pending && !Matches(was.running[was.pending[k]], f) :: was.pending[k]
    ensures s.running.Keys == was.running.Keys && s.answered == was.answered && s.log == was.log
  {
  }

  /** What cancel_prompts is given: each part that is given must fit. */
  datatype Filter = Filter(uid: Option<nat>, conn: Option<nat>, rid: Option<nat>, action: Option<string>)

  predicate Matches(d: Dialog, f: Filter) {
    && (f.uid.None? || d.slot.key.uid == f.uid.value) && (f.conn.None? || d.asker.conn == f.conn.value)
    && (f.rid.None? || d.asker.rid == f.rid) && (f.action.None? || d.slot.action == f.action.value)
  }
}
