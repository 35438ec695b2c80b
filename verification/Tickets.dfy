/** Single-use tickets, and the pause after five bad ones in a minute. */
module Tickets {
  import opened Wrappers

  const TTL: real := 10.0
  const BAD_PER_MIN: nat := 5
  const MINUTE: real := 60.0

  type Token = string

  datatype Role = Clip | Migrate

  /** What the window asked for: for whom, in which role, from which process. */
  datatype Ticket = Ticket(uid: nat, role: Role, window: nat, pid: nat, startTime: nat, issued: real, value: string)

  /** `bad` is the queue the daemon keeps; `refused` is every refusal of a uid, and the two multisets
      count what was issued and what was redeemed. */
  datatype State = State(
    tickets: map<Token, Ticket>, bad: map<nat, seq<real>>,
    clock: real, refused: map<nat, seq<real>>, issued: multiset<Token>, redeemed: multiset<Token>)

  const START := State(map[], map[], 0.0, map[], multiset{}, multiset{})

  /** What a child's hello presents, and what the daemon finds out about it. */
  datatype Hello = Hello(token: Token, uid: nat, role: Role, ppid: nat, parentStart: Option<nat>)

  datatype Fault = Throttled | Unknown | Expired | OtherUid | OtherRole | WindowGone | OtherParent | PidRecycled

  function Times(m: map<nat, seq<real>>, uid: nat): seq<real> { if uid in m then m[uid] else [] }

  function Recent(q: seq<real>, now: real): seq<real> {
    if q != [] && now - q[0] >= MINUTE then Recent(q[1..], now) else q
  }

  function Sweep(tickets: map<Token, Ticket>, now: real): map<Token, Ticket> {
    map t | t in tickets && now - tickets[t].issued <= TTL :: tickets[t]
  }

  function Issue(s: State, token: Token, ticket: Ticket, now: real): State {
    s.(clock := now, tickets := Sweep(s.tickets, now)[token := ticket.(issued := now)],
       issued := s.issued + multiset{token})
  }

  /** Why a presented ticket is refused, in the order the checks are made. */
  function Check(t: Option<Ticket>, h: Hello, closed: set<nat>, throttled: bool, now: real): Option<Fault> {
    if throttled then Some(Throttled)
    else if t.None? then Some(Unknown)
    else if now - t.value.issued > TTL then Some(Expired)
    else if t.value.uid != h.uid then Some(OtherUid)
    else if t.value.role != h.role then Some(OtherRole)
    else if t.value.window in closed then Some(WindowGone)
    else if h.ppid != t.value.pid then Some(OtherParent)
    else if h.parentStart != Some(t.value.startTime) then Some(PidRecycled)
    else None
  }

  /** The ticket is gone either way; a refusal is remembered against the uid. */
  function Redeem(s: State, h: Hello, closed: set<nat>, now: real): (State, Result<Ticket, Fault>) {
    var t := if h.token in s.tickets then Some(s.tickets[h.token]) else None;
    var q := Recent(Times(s.bad, h.uid), now);
    var s1 := s.(clock := now, tickets := s.tickets - {h.token},
                 bad := if h.uid in s.bad then s.bad[h.uid := q] else s.bad);
    match Check(t, h, closed, |q| >= BAD_PER_MIN, now)
    case None => (s1.(redeemed := s.redeemed + multiset{h.token}), Ok(t.value))
    case Some(f) =>
      (s1.(bad := s1.bad[h.uid := q + [now]], refused := s.refused[h.uid := Times(s.refused, h.uid) + [now]]), Err(f))
  }

  function RevokeUid(s: State, uid: nat, role: Option<Role>): State {
    s.(tickets := map t | t in s.tickets && !Goes(s.tickets[t], uid, role) :: s.tickets[t])
  }

  predicate Goes(t: Ticket, uid: nat, role: Option<Role>) {
    t.uid == uid && (role.None? || t.role == role.value)
  }

  // --- runs ---

  datatype Event =
    | EvIssue(token: Token, ticket: Ticket, at: real)
    | EvRedeem(hello: Hello, closed: set<nat>, at: real)
    | EvRevoke(uid: nat, role: Option<Role>)

  predicate Enabled(s: State, ev: Event) {
    ev.EvRevoke? || s.clock <= ev.at
  }

  function Step(s: State, ev: Event): State {
    match ev
    case EvIssue(token, ticket, at) => Issue(s, token, ticket, at)
    case EvRedeem(h, closed, at) => Redeem(s, h, closed, at).0
    case EvRevoke(uid, role) => RevokeUid(s, uid, role)
  }

  ghost predicate IsRun(states: seq<State>, events: seq<Event>) {
    && |states| == |events| + 1 && states[0] == START
    && forall i :: 0 <= i < |events| ==> Enabled(states[i], events[i]) && states[i + 1] == Step(states[i], events[i])
  }

  /** Every redemption used up an issue, and a ticket still on the book is one more. */
  ghost predicate Counted(s: State) {
    forall t :: s.redeemed[t] + (if t in s.tickets then 1 else 0) <= s.issued[t]
  }

  /** The queue is the end of the refusals, and what left it was a minute old. */
  predicate Tail(q: seq<real>, log: seq<real>, now: real) {
    && |q| <= |log| && q == log[|log| - |q|..]
    && (forall i :: 0 <= i < |log| - |q| ==> now - log[i] >= MINUTE)
    && (forall i, j :: 0 <= i < j < |log| ==> log[i] <= log[j])
    && forall i :: 0 <= i < |log| ==> log[i] <= now
  }

  ghost predicate Inv(s: State) {
    Counted(s) && forall uid :: Tail(Times(s.bad, uid), Times(s.refused, uid), s.clock)
  }

  lemma {:induction false} RecentIs(q: seq<real>, now: real)
    requires forall i, j :: 0 <= i < j < |q| ==> q[i] <= q[j]
    ensures |Recent(q, now)| <= |q| && Recent(q, now) == q[|q| - |Recent(q, now)|..]
    ensures forall i :: 0 <= i < |q| - |Recent(q, now)| ==> now - q[i] >= MINUTE
    ensures forall i :: 0 <= i < |Recent(q, now)| ==> now - Recent(q, now)[i] < MINUTE
  {
    if q != [] && now - q[0] >= MINUTE {
      RecentIs(q[1..], now);
    }
  }

  lemma TailTrims(q: seq<real>, log: seq<real>, clock: real, now: real)
    requires Tail(q, log, clock) && clock <= now
    ensures Tail(q, log, now) && Tail(Recent(q, now), log, now)
    ensures forall i :: 0 <= i < |Recent(q, now)| ==> now - Recent(q, now)[i] < MINUTE
  {
    var k := |log| - |q|;
    assert forall i :: 0 <= i < |q| ==> q[i] == log[k + i];
    RecentIs(q, now);
    var r := Recent(q, now);
    forall i | 0 <= i < |log| - |r| ensures now - log[i] >= MINUTE {
      if i >= k {
        assert log[i] == q[i - k];
      }
    }
  }

  lemma TailGrows(q: seq<real>, log: seq<real>, now: real)
    requires Tail(q, log, now)
    ensures Tail(q + [now], log + [now], now)
  {
  }

  /** What a hello does to the queue and the refusals of a uid: nothing, a trim, or a trim and one more. */
  lemma RedeemTimes(s: State, h: Hello, closed: set<nat>, now: real, uid: nat)
    ensures var s' := Redeem(s, h, closed, now).0;
      var q, log, q', log' := Times(s.bad, uid), Times(s.refused, uid), Times(s'.bad, uid), Times(s'.refused, uid);
      (log' == log && (q' == q || q' == Recent(q, now))) || (q' == Recent(q, now) + [now] && log' == log + [now])
  {
  }

  lemma RedeemTails(s: State, h: Hello, closed: set<nat>, now: real, uid: nat)
    requires Inv(s) && s.clock <= now
    ensures var s' := Redeem(s, h, closed, now).0; Tail(Times(s'.bad, uid), Times(s'.refused, uid), now)
  {
    hide Tail, Recent, Redeem, Times, Counted;
    assert Tail(Times(s.bad, uid), Times(s.refused, uid), s.clock);
    TailTrims(Times(s.bad, uid), Times(s.refused, uid), s.clock, now);
    TailGrows(Recent(Times(s.bad, uid), now), Times(s.refused, uid), now);
    RedeemTimes(s, h, closed, now, uid);
  }

  lemma NoTimes(now: real)
    ensures Recent([], now) == []
  {
  }

  lemma IssueKeeps(s: State, token: Token, ticket: Ticket, now: real)
    requires Inv(s) && s.clock <= now
    ensures Inv(Issue(s, token, ticket, now))
  {
  }

  lemma RedeemKeeps(s: State, h: Hello, closed: set<nat>, now: real)
    requires Inv(s) && s.clock <= now
    ensures Inv(Redeem(s, h, closed, now).0)
  {
    hide Tail, Recent, Times;
    forall uid
      ensures Tail(Times(Redeem(s, h, closed, now).0.bad, uid), Times(Redeem(s, h, closed, now).0.refused, uid), now)
    {
      RedeemTails(s, h, closed, now, uid);
    }
    RedeemCounts(s, h, closed, now);
  }

  lemma RedeemCounts(s: State, h: Hello, closed: set<nat>, now: real)
    requires Counted(s)
    ensures Counted(Redeem(s, h, closed, now).0)
  {
  }

  lemma StepKeeps(s: State, ev: Event)
    requires Inv(s) && Enabled(s, ev)
    ensures Inv(Step(s, ev))
  {
    hide Issue, Redeem, Tail;
    match ev
    case EvIssue(token, ticket, at) => IssueKeeps(s, token, ticket, at);
    case EvRedeem(h, closed, at) => RedeemKeeps(s, h, closed, at);
    case EvRevoke(uid, role) =>
  }

  lemma {:induction false} RunKeeps(states: seq<State>, events: seq<Event>, i: nat)
    requires IsRun(states, events) && i < |states|
    ensures Inv(states[i])
  {
    hide Step;
    if i > 0 {
      RunKeeps(states, events, i - 1);
      StepKeeps(states[i - 1], events[i - 1]);
    }
  }

  /** In every run a token is redeemed at most as often as it was issued: once, since tokens are not
      issued twice. */
  lemma RedeemedAtMostOnce(states: seq<State>, events: seq<Event>, i: nat, t: Token)
    requires IsRun(states, events) && i < |states|
    ensures states[i].redeemed[t] <= states[i].issued[t]
  {
    hide Step, IsRun, Tail;
    RunKeeps(states, events, i);
  }

  /** A ticket passes exactly for the child of the window that asked for it, in time and in role, while
      the uid presented fewer than five bad ones within the last minute. */
  lemma RedeemsExactly(s: State, h: Hello, closed: set<nat>, now: real)
    requires Inv(s) && s.clock <= now
    ensures Redeem(s, h, closed, now).1.Ok? <==>
      (h.token in s.tickets
       && (var t := s.tickets[h.token];
           now - t.issued <= TTL && t.uid == h.uid && t.role == h.role && t.window !in closed && t.pid == h.ppid
           && h.parentStart == Some(t.startTime))
       && !FiveBad(Times(s.refused, h.uid), now))
  {
    hide Counted, Recent;
    var q, log := Times(s.bad, h.uid), Times(s.refused, h.uid);
    assert Tail(q, log, s.clock);
    TailTrims(q, log, s.clock, now);
    Fifth(Recent(q, now), log, now);
  }

  /** The fifth refusal from the end is less than a minute old. */
  predicate FiveBad(log: seq<real>, now: real) {
    |log| >= BAD_PER_MIN && now - log[|log| - BAD_PER_MIN] < MINUTE
  }

  lemma Fifth(q: seq<real>, log: seq<real>, now: real)
    requires Tail(q, log, now) && forall i :: 0 <= i < |q| ==> now - q[i] < MINUTE
    ensures |q| >= BAD_PER_MIN <==> FiveBad(log, now)
  {
  }

  /** A ticket on the book at the end of a stretch of steps without an issue of its token was on it
      before, the same ticket: only redeeming, revoking and sweeping take tickets away. */
  lemma {:induction false} OnlyIssuesAdd(states: seq<State>, events: seq<Event>, i: nat, j: nat, t: Token)
    requires IsRun(states, events) && i <= j < |states| && t in states[j].tickets
    requires forall m :: i <= m < j && events[m].EvIssue? ==> events[m].token != t
    ensures t in states[i].tickets && states[i].tickets[t] == states[j].tickets[t]
  {
    hide Recent, Check, Times;
    if i < j {
      assert states[j] == Step(states[j - 1], events[j - 1]);
      assert t in states[j - 1].tickets && states[j - 1].tickets[t] == states[j].tickets[t];
      OnlyIssuesAdd(states, events, i, j - 1, t);
    }
  }

  lemma RevokedIsGone(s: State, uid: nat, t: Token)
    ensures t in RevokeUid(s, uid, None).tickets ==> RevokeUid(s, uid, None).tickets[t].uid != uid
  {
  }

  /** A lock ends every ticket of its uid: what is redeemed for that uid later was issued after it. */
  lemma RedeemedWasIssuedSince(states: seq<State>, events: seq<Event>, lock: nat, j: nat)
    requires IsRun(states, events) && lock < j < |events|
    requires events[lock].EvRevoke? && events[lock].role.None?
    requires events[j].EvRedeem? && events[j].hello.uid == events[lock].uid
    requires Redeem(states[j], events[j].hello, events[j].closed, events[j].at).1.Ok?
    ensures exists m :: lock < m < j && events[m].EvIssue? && events[m].token == events[j].hello.token
  {
    hide Recent, Times, Issue;
    var t := events[j].hello.token;
    if forall m :: lock < m < j && events[m].EvIssue? ==> events[m].token != t {
      RevokedIsGone(states[lock], events[lock].uid, t);
      OnlyIssuesAdd(states, events, lock + 1, j, t);
      assert false;
    }
  }

  /** From issue `i` to step `j` the token is neither issued again nor presented, and no revocation fits. */
  predicate LeftAlone(events: seq<Event>, i: nat, j: nat, token: Token, ticket: Ticket)
    requires j <= |events|
  {
    forall m :: i < m < j ==>
      match events[m]
      case EvIssue(t, _, _) => t != token
      case EvRedeem(h, _, _) => h.token != token
      case EvRevoke(uid, role) => !Goes(ticket, uid, role)
  }

  /** The ticket is on the book, or its time is over. */
  predicate OnBook(s: State, token: Token, t: Ticket) {
    if token in s.tickets then s.tickets[token] == t else s.clock - t.issued > TTL
  }

  lemma StepLeaves(s: State, ev: Event, token: Token, t: Ticket)
    requires Enabled(s, ev) && OnBook(s, token, t)
    requires match ev case EvIssue(o, _, _) => o != token
                      case EvRedeem(h, _, _) => h.token != token
                      case EvRevoke(uid, role) => !Goes(t, uid, role)
    ensures OnBook(Step(s, ev), token, t)
  {
    hide Recent, Times;
  }

  lemma {:induction false} StaysOnBook(states: seq<State>, events: seq<Event>, i: nat, j: nat)
    requires IsRun(states, events) && i < j <= |events| && events[i].EvIssue?
    requires LeftAlone(events, i, j, events[i].token, events[i].ticket)
    ensures OnBook(states[j], events[i].token, events[i].ticket.(issued := events[i].at))
  {
    hide Step, OnBook;
    if j == i + 1 {
      Issued(states[i], events[i]);
    } else {
      StaysOnBook(states, events, i, j - 1);
      StepLeaves(states[j - 1], events[j - 1], events[i].token, events[i].ticket.(issued := events[i].at));
    }
  }

  lemma Issued(s: State, ev: Event)
    requires ev.EvIssue?
    ensures OnBook(Step(s, ev), ev.token, ev.ticket.(issued := ev.at))
  {
  }

  /** In every run: a ticket that was issued in step `i` and left alone is redeemed in step `j`, as it was
      issued, if and only if it is at most ten seconds old, who presents it is the child of the window it
      was issued to, in its role and with the window open, and the uid is not paused. */
  lemma IssuedIsRedeemed(states: seq<State>, events: seq<Event>, i: nat, j: nat)
    requires IsRun(states, events) && i < j < |events| && events[i].EvIssue? && events[j].EvRedeem?
    requires events[j].hello.token == events[i].token
    requires LeftAlone(events, i, j, events[i].token, events[i].ticket)
    ensures var r := Redeem(states[j], events[j].hello, events[j].closed, events[j].at).1;
      var t, h := events[i].ticket, events[j].hello;
      && (r.Ok? <==>
            events[j].at - events[i].at <= TTL && t.uid == h.uid && t.role == h.role && t.window !in events[j].closed
            && t.pid == h.ppid && h.parentStart == Some(t.startTime) && !FiveBad(Times(states[j].refused, h.uid), events[j].at))
      && (r.Ok? ==> r.value == t.(issued := events[i].at))
  {
    StaysOnBook(states, events, i, j);
    RunKeeps(states, events, j);
    assert Enabled(states[j], events[j]);
    hide IsRun, Inv, Step, FiveBad, Recent;
    RedeemsExactly(states[j], events[j].hello, events[j].closed, events[j].at);
  }

  // --- the book as the daemon has it ---

  class TicketBook {
    var tickets: map<Token, Ticket>
    var bad: map<nat, seq<real>>
    ghost var clock: real
    ghost var refused: map<nat, seq<real>>
    ghost var issued: multiset<Token>
    ghost var redeemed: multiset<Token>

    ghost function Now(): State
      reads this
    {
      State(tickets, bad, clock, refused, issued, redeemed)
    }

    constructor ()
      ensures Now() == START
    {
      tickets, bad, clock, refused, issued, redeemed := map[], map[], 0.0, map[], multiset{}, multiset{};
    }

    method SweepOut(now: real)
      modifies `tickets
      ensures tickets == Sweep(old(tickets), now)
    {
      ghost var was := tickets;
      var left := tickets.Keys;
      while left != {}
        invariant left <= was.Keys
        invariant tickets == map t | t in was && (t in left || now - was[t].issued <= TTL) :: was[t]
        decreases left
      {
        var t: Token :| t in left;
        if now - tickets[t].issued > TTL {
          tickets := tickets - {t};
        }
        left := left - {t};
      }
    }

    method IssueTicket(token: Token, ticket: Ticket, now: real)
      modifies this
      ensures Now() == Issue(old(Now()), token, ticket, now)
    {
      SweepOut(now);
      tickets := tickets[token := ticket.(issued := now)];
      clock := now;
      issued := issued + multiset{token};
    }

    method Throttle(uid: nat, now: real) returns (throttled: bool)
      modifies `bad
      ensures bad == if uid in old(bad) then old(bad)[uid := Recent(Times(old(bad), uid), now)] else old(bad)
      ensures throttled == (|Recent(Times(old(bad), uid), now)| >= BAD_PER_MIN)
    {
      if uid !in bad { return false; }
      var q := bad[uid];
      while q != [] && now - q[0] >= MINUTE
        invariant Recent(q, now) == Recent(Times(bad, uid), now)
        decreases |q|
      {
        q := q[1..];
      }
      bad := bad[uid := q];
      throttled := |q| >= BAD_PER_MIN;
    }

    method RedeemTicket(h: Hello, closed: set<nat>, now: real) returns (r: Result<Ticket, Fault>)
      modifies this
      ensures (Now(), r) == Redeem(old(Now()), h, closed, now)
    {
      hide Recent;
      NoTimes(now);
      var t := if h.token in tickets then Some(tickets[h.token]) else None;
      tickets := tickets - {h.token};
      var throttled := Throttle(h.uid, now);
      clock := now;
      var fault := Check(t, h, closed, throttled, now);
      if fault.Some? {
        bad := bad[h.uid := Times(bad, h.uid) + [now]];
        refused := refused[h.uid := Times(refused, h.uid) + [now]];
        return Err(fault.value);
      }
      redeemed := redeemed + multiset{h.token};
      r := Ok(t.value);
    }

    method Revoke(uid: nat, role: Option<Role>) returns (n: nat)
      modifies `tickets
      ensures Now() == RevokeUid(old(Now()), uid, role)
      ensures n == |old(tickets).Keys - tickets.Keys|
    {
      hide Goes;
      ghost var was, gone: set<Token> := tickets, {};
      n := 0;
      var left := tickets.Keys;
      while left != {}
        invariant left <= tickets.Keys && tickets == was - gone && n == |gone|
        invariant gone <= was.Keys && gone !! tickets.Keys
        invariant forall t :: t in gone ==> Goes(was[t], uid, role)
        invariant forall t :: t in tickets && t !in left ==> !Goes(tickets[t], uid, role)
        decreases left
      {
        var t: Token :| t in left;
        left := left - {t};
        if Goes(tickets[t], uid, role) {
          tickets := tickets - {t};
          gone := gone + {t};
          n := n + 1;
        }
      }
      assert gone == was.Keys - tickets.Keys;
      assert tickets == RevokeUid(old(Now()), uid, role).tickets;
    }
  }
}
