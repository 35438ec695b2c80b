/** One clipboard offer: which pipes the value may go to, and how often. */
module Clip {
  import opened Wrappers

  type Pid = nat

  /** Who holds the pipe, and which of them are known history watchers. */
  datatype Readers = Readers(pids: set<Pid>, watchers: set<Pid>) {
    predicate OnlyWatchers() { pids != {} && pids == watchers }
  }

  datatype Mime = Hint | Plain | Other

  datatype Outcome = Pasted | Replaced | Withdrawn | Expired

  /** `window` is 0 when readers are identified; the timing fallback identifies nobody and waits. */
  datatype Config = Config(size: nat, sensitive: bool, timeout: real, grace: real, window: real, bridge: Option<Pid>)

  /** Value bytes that went into a pipe: how many, who held it, and when it was decided. */
  datatype Delivery = Delivery(to: Readers, bytes: nat, at: real)

  datatype State = State(
    started: real, pastedAt: Option<real>, holders: set<Pid>, outcome: Option<Outcome>,
    served: nat, watchersRefused: nat, othersRefused: nat, unknownRefused: nat)

  function Begin(now: real): State { State(now, None, {}, None, 0, 0, 0, 0) }

  /** What one request meets: two looks at the pipe, whether its reader is gone, how many bytes a write
      would take, the clock when it is decided and after the write. */
  datatype Request = Request(mime: Mime, first: Readers, again: Readers, gone: bool, written: nat, now: real, after: real)

  predicate Possible(c: Config, r: Request) { r.written <= c.size && r.now <= r.after }

  /** The readers a request is judged by: a second look when the first saw nobody. */
  function Seen(c: Config, r: Request): Readers {
    if r.first.pids == {} && c.window == 0.0 then r.again else r.first
  }

  predicate Nobody(c: Config, r: Request) { c.window == 0.0 && Seen(c, r).pids == {} }

  predicate Bridged(c: Config, pids: set<Pid>) { c.bridge.Some? && c.bridge.value != 0 && c.bridge.value in pids }

  /** The paste may ask again: the same holders, soon, and never through the bridge. */
  predicate MayAskAgain(c: Config, s: State, r: Request)
    requires s.pastedAt.Some?
  {
    && Seen(c, r).pids == s.holders && !Bridged(c, Seen(c, r).pids) && r.now - s.pastedAt.value <= c.grace
  }

  predicate TooEarly(c: Config, s: State, r: Request) {
    Seen(c, r).OnlyWatchers() || r.now - s.started < c.window
  }

  /** The state after a request, and the value bytes it let out. */
  function OnSend(c: Config, s: State, r: Request): (State, Option<Delivery>) {
    if r.mime == Hint && c.sensitive then (s, None)
    else if r.mime != Plain || s.outcome.Some? then (s, None)
    else if Nobody(c, r) then
      (if r.gone then s.(watchersRefused := s.watchersRefused + 1) else s.(unknownRefused := s.unknownRefused + 1), None)
    else if s.pastedAt.Some? then
      if !MayAskAgain(c, s, r) then (s.(othersRefused := s.othersRefused + 1), None)
      else if r.written == 0 then (s, None)
      else (s.(served := s.served + 1), Some(Delivery(Seen(c, r), r.written, r.now)))
    else if TooEarly(c, s, r) then (s.(watchersRefused := s.watchersRefused + 1), None)
    else if r.written == 0 then (s, None)
    else (s.(served := s.served + 1, pastedAt := Some(r.after), holders := Seen(c, r).pids),
          Some(Delivery(Seen(c, r), r.written, r.now)))
  }

  function OnCancelled(s: State): State {
    if s.outcome.Some? then s else s.(outcome := Some(if s.pastedAt.Some? then Pasted else Replaced))
  }

  function OnWithdraw(s: State): State {
    if s.outcome.Some? then s else s.(outcome := Some(if s.pastedAt.Some? then Pasted else Withdrawn))
  }

  function Tick(c: Config, s: State, now: real): State {
    if s.outcome.Some? then s
    else if s.pastedAt.Some? then
      if now - s.pastedAt.value > c.grace then s.(outcome := Some(Pasted)) else s
    else if now - s.started >= c.timeout then s.(outcome := Some(Expired)) else s
  }

  // --- runs ---

  datatype Event = EvSend(r: Request) | EvCancelled | EvWithdraw | EvTick(now: real)

  function Step(c: Config, s: State, ev: Event): (State, Option<Delivery>) {
    match ev
    case EvSend(r) => OnSend(c, s, r)
    case EvCancelled => (OnCancelled(s), None)
    case EvWithdraw => (OnWithdraw(s), None)
    case EvTick(now) => (Tick(c, s, now), None)
  }

  function After(c: Config, s: State, events: seq<Event>): State {
    if events == [] then s else Step(c, After(c, s, events[..|events| - 1]), events[|events| - 1]).0
  }

  /** Every delivery of a run, in order. */
  function Sent(c: Config, s: State, events: seq<Event>): seq<Delivery> {
    if events == [] then []
    else
      var last := Step(c, After(c, s, events[..|events| - 1]), events[|events| - 1]).1;
      Sent(c, s, events[..|events| - 1]) + if last.Some? then [last.value] else []
  }

  /** The writes and the clock behave. */
  predicate AllPossible(c: Config, events: seq<Event>) {
    forall i :: 0 <= i < |events| && events[i].EvSend? ==> Possible(c, events[i].r)
  }

  /** And readers are identified. */
  predicate Sensible(c: Config, events: seq<Event>) { c.window == 0.0 && AllPossible(c, events) }

  /** One paste: one set of holders, not all of them watchers; later reads are of the same set, within
      the grace, and through the bridge there are none. */
  predicate OnePaste(c: Config, s: State, sent: seq<Delivery>) {
    && (s.pastedAt.None? <==> sent == []) && s.served == |sent|
    && (forall i :: 0 <= i < |sent| ==> sent[i].to.pids == s.holders && 0 < sent[i].bytes <= c.size)
    && (sent != [] ==> s.holders != {} && !sent[0].to.OnlyWatchers() && sent[0].at <= s.pastedAt.value)
    && (forall i :: 1 <= i < |sent| ==> sent[i].at - s.pastedAt.value <= c.grace)
    && (Bridged(c, s.holders) ==> |sent| <= 1)
  }

  /** What the outcome says is what happened. */
  predicate Honest(s: State, sent: seq<Delivery>) {
    s.outcome.Some? ==> (s.outcome.value == Pasted <==> sent != [])
  }

  lemma FirstPaste(c: Config, s: State, d: Delivery, after: real)
    requires OnePaste(c, s, []) && d.to.pids != {} && !d.to.OnlyWatchers() && 0 < d.bytes <= c.size && d.at <= after
    ensures OnePaste(c, s.(served := s.served + 1, pastedAt := Some(after), holders := d.to.pids), [d])
  {
  }

  lemma SecondRead(c: Config, s: State, sent: seq<Delivery>, d: Delivery)
    requires OnePaste(c, s, sent) && s.pastedAt.Some? && d.to.pids == s.holders && 0 < d.bytes <= c.size
    requires !Bridged(c, s.holders) && d.at - s.pastedAt.value <= c.grace
    ensures OnePaste(c, s.(served := s.served + 1), sent + [d])
  {
  }

  /** Counters and outcomes aside, the offer is as it was. */
  lemma NothingSent(c: Config, s: State, s': State, sent: seq<Delivery>)
    requires OnePaste(c, s, sent) && s' == s.(outcome := s'.outcome, watchersRefused := s'.watchersRefused,
      othersRefused := s'.othersRefused, unknownRefused := s'.unknownRefused)
    ensures OnePaste(c, s', sent)
  {
  }

  lemma StepKeeps(c: Config, s: State, sent: seq<Delivery>, ev: Event)
    requires c.window == 0.0 && OnePaste(c, s, sent) && Honest(s, sent) && (ev.EvSend? ==> Possible(c, ev.r))
    ensures var (s', d) := Step(c, s, ev); var sent' := sent + (if d.Some? then [d.value] else []);
      OnePaste(c, s', sent') && Honest(s', sent')
  {
    hide OnePaste, Bridged;
    var (s', d) := Step(c, s, ev);
    PastedMeansSent(c, s, sent);
    if d.None? {
      NothingSent(c, s, s', sent);
      assert sent + [] == sent;
    } else if s.pastedAt.Some? {
      SecondRead(c, s, sent, d.value);
    } else {
      FirstPaste(c, s, d.value, ev.r.after);
      assert sent + [d.value] == [d.value];
    }
  }

  lemma PastedMeansSent(c: Config, s: State, sent: seq<Delivery>)
    requires OnePaste(c, s, sent)
    ensures s.pastedAt.None? <==> sent == []
  {
  }

  /** In every run of requests, cancels, withdrawals and ticks of an identified offer: one paste. */
  lemma {:induction false} OnePasteInEveryRun(c: Config, start: real, events: seq<Event>)
    requires Sensible(c, events)
    ensures OnePaste(c, After(c, Begin(start), events), Sent(c, Begin(start), events))
    ensures Honest(After(c, Begin(start), events), Sent(c, Begin(start), events))
  {
    hide Step, OnePaste, Honest;
    if events == [] {
      assert OnePaste(c, Begin(start), []) && Honest(Begin(start), []) by { BeginKeeps(c, start); }
    } else {
      var m := |events| - 1;
      OnePasteInEveryRun(c, start, events[..m]);
      StepKeeps(c, After(c, Begin(start), events[..m]), Sent(c, Begin(start), events[..m]), events[m]);
    }
  }

  lemma BeginKeeps(c: Config, start: real)
    ensures OnePaste(c, Begin(start), []) && Honest(Begin(start), [])
  {
  }

  /** An outcome, once set, stays, and nothing more goes out. */
  lemma {:induction false} OutcomeIsFinal(c: Config, s: State, events: seq<Event>)
    requires s.outcome.Some?
    ensures After(c, s, events) == s && Sent(c, s, events) == []
  {
    if events != [] {
      OutcomeIsFinal(c, s, events[..|events| - 1]);
    }
  }

  /** Replaced, withdrawn and expired all mean that nobody got a byte; pasted means that somebody did. */
  lemma OutcomeTellsTheTruth(c: Config, start: real, events: seq<Event>)
    requires Sensible(c, events) && After(c, Begin(start), events).outcome.Some?
    ensures After(c, Begin(start), events).outcome.value == Pasted <==> Sent(c, Begin(start), events) != []
  {
    hide Step;
    OnePasteInEveryRun(c, start, events);
  }

  /** The value does go out: the first request by an identified reader that is not all watchers, while
      the offer is up and the pipe takes a byte, is the paste. */
  lemma PasteIsServed(c: Config, s: State, r: Request)
    requires c.window == 0.0 && s.outcome.None? && s.pastedAt.None? && s.started <= r.now
    ensures OnSend(c, s, r).1.Some?
            <==> r.mime == Plain && Seen(c, r).pids != {} && !Seen(c, r).OnlyWatchers() && r.written > 0
  {
  }

  /** The first request of the run that let value bytes out. */
  predicate FirstSent(c: Config, start: real, events: seq<Event>, i: nat) {
    && i < |events| && events[i].EvSend? && Sent(c, Begin(start), events[..i]) == []
    && Step(c, After(c, Begin(start), events[..i]), events[i]).1.Some?
  }

  lemma SentMeansPasted(c: Config, start: real, events: seq<Event>)
    ensures var s := After(c, Begin(start), events);
      s.started == start && (s.pastedAt.Some? <==> Sent(c, Begin(start), events) != [])
    ensures forall i: nat :: FirstSent(c, start, events, i) ==>
      var s := After(c, Begin(start), events); s.pastedAt == Some(events[i].r.after) && s.holders == Seen(c, events[i].r).pids
  {
    PastedIffSent(c, start, events);
    forall i: nat | FirstSent(c, start, events, i)
      ensures var s := After(c, Begin(start), events);
        s.pastedAt == Some(events[i].r.after) && s.holders == Seen(c, events[i].r).pids
    {
      PastedIffSent(c, start, events[..i]);
      hide After, Sent, Seen, FirstSent;
      FirstStays(c, start, events, i);
    }
  }

  lemma {:induction false} PastedIffSent(c: Config, start: real, events: seq<Event>)
    ensures var s := After(c, Begin(start), events);
      s.started == start && (s.pastedAt.Some? <==> Sent(c, Begin(start), events) != [])
  {
    if events != [] { PastedIffSent(c, start, events[..|events| - 1]); }
  }

  /** Once something was sent, the time and the holders are never set again. */
  lemma {:induction false} FirstStays(c: Config, start: real, events: seq<Event>, i: nat)
    requires FirstSent(c, start, events, i)
    requires var s := After(c, Begin(start), events[..i]); s.pastedAt.Some? <==> Sent(c, Begin(start), events[..i]) != []
    ensures var s := After(c, Begin(start), events); s.pastedAt == Some(events[i].r.after) && s.holders == Seen(c, events[i].r).pids
  {
    var m := |events| - 1;
    if i < m {
      assert events[..m][..i] == events[..i];
      FirstStays(c, start, events[..m], i);
    }
  }

  /** After the paste a request is served exactly when it comes from the same holders as the first one, not
      through the bridge, within the grace of it, for the text, while the offer is up and the pipe takes
      a byte. */
  lemma LaterReadServed(c: Config, start: real, events: seq<Event>, i: nat, r: Request)
    requires c.window == 0.0 && FirstSent(c, start, events, i) && After(c, Begin(start), events).outcome.None?
    ensures var d := Step(c, After(c, Begin(start), events), EvSend(r)).1; var paste := events[i].r;
      && (d.Some? <==>
            r.mime == Plain && r.written > 0 && Seen(c, r).pids != {} && Seen(c, r).pids == Seen(c, paste).pids
            && r.now - paste.after <= c.grace
            && !(c.bridge.Some? && c.bridge.value != 0 && c.bridge.value in Seen(c, r).pids))
      && (d.Some? ==> d.value == Delivery(Seen(c, r), r.written, r.now))
  {
    SentMeansPasted(c, start, events);
    hide After, Sent, FirstSent;
  }

  /** The grace of the first delivery is over. */
  ghost predicate GraceOver(c: Config, start: real, events: seq<Event>, ev: Event) {
    ev.EvTick? && forall i: nat :: FirstSent(c, start, events, i) ==> ev.now - events[i].r.after > c.grace
  }

  /** How an offer ends: each outcome exactly when, in terms of what was sent. */
  lemma OutcomeExactly(c: Config, start: real, events: seq<Event>, ev: Event)
    requires After(c, Begin(start), events).outcome.None?
    ensures var sent := Sent(c, Begin(start), events) != []; var t := Step(c, After(c, Begin(start), events), ev).0;
      && (t.outcome == Some(Replaced) <==> ev.EvCancelled? && !sent)
      && (t.outcome == Some(Withdrawn) <==> ev.EvWithdraw? && !sent)
      && (t.outcome == Some(Expired) <==> ev.EvTick? && !sent && ev.now - start >= c.timeout)
      && (t.outcome == Some(Pasted) <==> sent && (ev.EvCancelled? || ev.EvWithdraw? || GraceOver(c, start, events, ev)))
  {
    SentMeansPasted(c, start, events);
    if Sent(c, Begin(start), events) != [] { var i := HasFirst(c, start, events); }
    hide After, Sent, FirstSent;
  }

  lemma {:induction false} HasFirst(c: Config, start: real, events: seq<Event>) returns (i: nat)
    requires Sent(c, Begin(start), events) != []
    ensures FirstSent(c, start, events, i)
  {
    var m := |events| - 1;
    if Sent(c, Begin(start), events[..m]) != [] {
      i := HasFirst(c, start, events[..m]);
      assert events[..m][..i] == events[..i];
    } else {
      i := m;
    }
  }

  /** The fallback gives that up: after its window any two requests nobody could identify, the second
      within the grace, are the paste and its second read, and the run is not one paste. */
  lemma TimingServesAnyone(c: Config, start: real, one: Request, two: Request)
    requires c.window != 0.0
    requires one.mime == Plain && one.written > 0 && one.first.pids == {} && one.now - start >= c.window
    requires two.mime == Plain && two.written > 0 && two.first.pids == {} && two.now - one.after <= c.grace
    ensures var events := [EvSend(one), EvSend(two)];
      && |Sent(c, Begin(start), events)| == 2
      && !OnePaste(c, After(c, Begin(start), events), Sent(c, Begin(start), events))
  {
    TwoEvents(c, Begin(start), EvSend(one), EvSend(two));
  }

  lemma OneEvent(c: Config, s: State, ev: Event)
    ensures var (t, d) := Step(c, s, ev);
      After(c, s, [ev]) == t && Sent(c, s, [ev]) == if d.Some? then [d.value] else []
  {
    assert [ev][..0] == [];
  }

  lemma TwoEvents(c: Config, s: State, one: Event, two: Event)
    ensures var (s1, d1) := Step(c, s, one); var (s2, d2) := Step(c, s1, two);
      && After(c, s, [one, two]) == s2
      && Sent(c, s, [one, two]) == (if d1.Some? then [d1.value] else []) + (if d2.Some? then [d2.value] else [])
  {
    hide Step;
    OneEvent(c, s, one);
    assert [one, two][..1] == [one];
  }

  /** Every run of possible requests is one paste. */
  ghost predicate AlwaysOnePaste(c: Config) {
    forall start: real, events: seq<Event> :: AllPossible(c, events) ==>
      OnePaste(c, After(c, Begin(start), events), Sent(c, Begin(start), events))
  }

  /** A policy means one paste in every run if and only if it identifies its readers. */
  lemma OnePasteExactly(c: Config)
    requires c.size > 0
    ensures AlwaysOnePaste(c) <==> c.window == 0.0
  {
    if c.window == 0.0 {
      forall start: real, events: seq<Event> | AllPossible(c, events)
        ensures OnePaste(c, After(c, Begin(start), events), Sent(c, Begin(start), events))
      {
        OnePasteInEveryRun(c, start, events);
      }
    } else {
      var nobody := Readers({}, {});
      var now := if c.window < 0.0 then 0.0 else c.window;
      var ev := EvSend(Request(Plain, nobody, nobody, false, 1, now, now));
      OneEvent(c, Begin(0.0), ev);
      assert AllPossible(c, [ev]);
      assert !OnePaste(c, After(c, Begin(0.0), [ev]), Sent(c, Begin(0.0), [ev]));
    }
  }

  // --- the offer as it runs ---

  class Offer {
    const c: Config
    var started: real
    var pastedAt: Option<real>
    var holders: set<Pid>
    var outcome: Option<Outcome>
    var served: nat
    var watchersRefused: nat
    var othersRefused: nat
    var unknownRefused: nat
    ghost var sent: seq<Delivery>

    ghost function Now(): State
      reads this
    {
      State(started, pastedAt, holders, outcome, served, watchersRefused, othersRefused, unknownRefused)
    }

    constructor (c: Config, now: real)
      ensures this.c == c && Now() == Begin(now) && sent == []
    {
      this.c := c;
      started, pastedAt, holders, outcome := now, None, {}, None;
      served, watchersRefused, othersRefused, unknownRefused, sent := 0, 0, 0, 0, [];
    }

    /** `out` is what of the value went into the pipe. */
    method HandleSend(r: Request) returns (out: nat)
      requires Possible(c, r)
      modifies this
      ensures Now() == OnSend(c, old(Now()), r).0
      ensures var d := OnSend(c, old(Now()), r).1;
        sent == old(sent) + (if d.Some? then [d.value] else []) && out == if d.Some? then d.value.bytes else 0
    {
      out := 0;
      if r.mime == Hint && c.sensitive { return; }
      if r.mime != Plain || outcome.Some? { return; }
      var readers := r.first;
      if readers.pids == {} && c.window == 0.0 {
        readers := r.again;
        if readers.pids == {} {
          if r.gone {
            watchersRefused := watchersRefused + 1;
          } else {
            unknownRefused := unknownRefused + 1;
          }
          return;
        }
      }
      if pastedAt.Some? {
        if readers.pids == holders && !Bridged(c, readers.pids) && r.now - pastedAt.value <= c.grace {
          if r.written > 0 {
            served := served + 1;
            out := r.written;
            sent := sent + [Delivery(readers, out, r.now)];
          }
        } else {
          othersRefused := othersRefused + 1;
        }
        return;
      }
      if readers.OnlyWatchers() || r.now - started < c.window {
        watchersRefused := watchersRefused + 1;
        return;
      }
      if r.written == 0 { return; }
      out := r.written;
      served := served + 1;
      pastedAt := Some(r.after);
      holders := readers.pids;
      sent := sent + [Delivery(readers, out, r.now)];
    }

    method HandleCancelled()
      modifies this
      ensures Now() == OnCancelled(old(Now())) && sent == old(sent)
    {
      if outcome.None? {
        outcome := Some(if pastedAt.Some? then Pasted else Replaced);
      }
    }

    method HandleWithdraw()
      modifies this
      ensures Now() == OnWithdraw(old(Now())) && sent == old(sent)
    {
      if outcome.None? {
        outcome := Some(if pastedAt.Some? then Pasted else Withdrawn);
      }
    }

    method HandleTick(now: real)
      modifies this
      ensures Now() == Tick(c, old(Now()), now) && sent == old(sent)
    {
      if outcome.Some? { return; }
      if pastedAt.Some? {
        if now - pastedAt.value > c.grace {
          outcome := Some(Pasted);
        }
      } else if now - started >= c.timeout {
        outcome := Some(Expired);
      }
    }
  }
}
