/**
 The life of the user streams (drop-copies): the controller creates one per account when a listen
 key is published, the stream closes its connection when the key expires, a disconnected stopped
 stream is queued as a zombie, and the next controller timer removes it -- before any stream gets
 that timer -- and forces an early refresh of the listen key.
 */
module UserStream {
  import opened Wrappers
  import opened ListenKey

  /** Stream ids are 16 bits wide; `serial` is the number of streams created so far, without wrapping. */
  function StreamId(serial: nat): nat {
    serial % 0x1_0000
  }

  /** A user stream; `gone` records that it disconnected after its key had expired. */
  datatype DropCopy = DropCopy(serial: nat, listenKey: string, stop: bool, gone: bool)

  /** `births` and `deaths` count, per account, the user streams created and removed. */
  datatype State = State(
    sessions: map<string, Session>,
    dropCopy: map<string, Option<DropCopy>>,
    zombies: set<string>,
    serial: nat,
    births: map<string, nat>,
    deaths: map<string, nat>,
    clock: nat,
    lateTimer: bool,    // a stream got a timer after it was gone
    fatal: bool)        // one of the "Unexpected" fatals was reached

  datatype Change =
    | OnTimer(refreshed: set<string>)              // the accounts whose connection is up at this timer
    | OnSession(account: string, input: Input)     // a socket event or reply of the order-entry stream
    | OnKeyExpired(account: string)
    | OnDisconnected(account: string)              // of the user stream
    | OnOtherStream                                // a market-data stream takes the next stream id

  datatype Event = Occurs(now: Time, change: Change)

  /** Timers and forced refreshes reach an order-entry stream only through the controller. */
  predicate External(input: Input) {
    !input.Timer? && !input.ForceRefresh?
  }

  function Init(accounts: set<string>, serial: nat): State {
    State(
      map a | a in accounts :: INITIAL, map a | a in accounts :: None, {}, serial,
      map a | a in accounts :: 0, map a | a in accounts :: 0, 0, false, false)
  }

  /** Removing the streams of some accounts and forcing a refresh of their listen keys. */
  function Remove(s: State, accounts: set<string>, now: Time): State {
    s.(sessions := map a | a in s.sessions :: if a in accounts then Force(s.sessions[a], now) else s.sessions[a],
       dropCopy := map a | a in s.dropCopy :: if a in accounts then None else s.dropCopy[a],
       deaths := map a | a in s.deaths :: if a in accounts then s.deaths[a] + 1 else s.deaths[a])
  }

  function Reap(s: State, now: Time): State {
    Remove(s, s.zombies, now).(
      fatal := s.fatal || !(s.zombies <= s.dropCopy.Keys) || !(s.zombies <= s.sessions.Keys),
      zombies := {})
  }

  function RemoveOne(s: State, a: string, now: Time): State
    requires a in s.sessions && a in s.dropCopy && a in s.deaths
  {
    s.(sessions := s.sessions[a := Force(s.sessions[a], now)],
       dropCopy := s.dropCopy[a := None],
       deaths := s.deaths[a := s.deaths[a] + 1])
  }

  /** The zombies can be removed one at a time, in any order. */
  lemma RemoveOneMore(s: State, done: set<string>, a: string, now: Time)
    requires a in s.sessions && a in s.dropCopy && a in s.deaths && a !in done
    ensures RemoveOne(Remove(s, done, now), a, now) == Remove(s, done + {a}, now)
  {
    var before, once := Remove(s, done, now), Remove(s, done + {a}, now);
    assert before.sessions[a := Force(s.sessions[a], now)] == once.sessions;
    assert before.dropCopy[a := None] == once.dropCopy;
    assert before.deaths[a := s.deaths[a] + 1] == once.deaths;
  }

  lemma RemoveNone(s: State, now: Time)
    ensures Remove(s, {}, now) == s
  {
    var none := Remove(s, {}, now);
    assert none.sessions == s.sessions && none.dropCopy == s.dropCopy && none.deaths == s.deaths;
  }

  /** The timers of some of the order-entry streams. */
  function Refresh(c: Config, s: State, accounts: set<string>, now: Time): State {
    s.(sessions := map a | a in s.sessions :: if a in accounts then Ping(c, s.sessions[a], now) else s.sessions[a])
  }

  lemma RefreshOneMore(c: Config, s: State, done: set<string>, a: string, now: Time)
    requires a in s.sessions && a !in done
    ensures var before := Refresh(c, s, done, now);
            before.(sessions := before.sessions[a := Ping(c, s.sessions[a], now)]) == Refresh(c, s, done + {a}, now)
  {
    assert Refresh(c, s, done, now).sessions[a := Ping(c, s.sessions[a], now)]
           == Refresh(c, s, done + {a}, now).sessions;
  }

  lemma RefreshNone(c: Config, s: State, now: Time)
    ensures Refresh(c, s, {}, now) == s
  {
    assert Refresh(c, s, {}, now).sessions == s.sessions;
  }

  predicate NoneGone(streams: map<string, Option<DropCopy>>) {
    forall a :: a in streams && streams[a].Some? ==> !streams[a].value.gone
  }

  /** Passing the timer on to every stream. */
  function DispatchTimer(c: Config, s: State, now: Time, refreshed: set<string>): State {
    Refresh(c, s, refreshed, now).(lateTimer := s.lateTimer || !NoneGone(s.dropCopy))
  }

  /** A published listen key creates the stream of the account if there is none. */
  function Create(s: State, account: string, key: string): State {
    if account !in s.dropCopy || account !in s.births then s.(fatal := true)
    else if s.dropCopy[account].Some? then s
    else
      s.(serial := s.serial + 1,
         dropCopy := s.dropCopy[account := Some(DropCopy(s.serial + 1, key, false, false))],
         births := s.births[account := s.births[account] + 1])
  }

  function SessionStep(c: Config, s: State, now: Time, account: string, input: Input): State {
    if account !in s.sessions || !External(input) then s
    else
      var before := s.sessions[account];
      var published := if input.KeyReply? then Published(c, before, input.ok, input.key) else None;
      var t := s.(sessions := s.sessions[account := ListenKey.Step(c, before, ListenKey.At(now, input))]);
      if published.Some? then Create(t, account, published.value) else t
  }

  function Expire(s: State, account: string): State {
    if account in s.dropCopy && s.dropCopy[account].Some? then
      s.(dropCopy := s.dropCopy[account := Some(s.dropCopy[account].value.(stop := true))])
    else s
  }

  /** A stopped stream asks to be removed when it disconnects; any other one will reconnect. */
  function Disconnect(s: State, account: string): State {
    if account in s.dropCopy && s.dropCopy[account].Some? && s.dropCopy[account].value.stop then
      s.(dropCopy := s.dropCopy[account := Some(s.dropCopy[account].value.(gone := true))],
         zombies := s.zombies + {account})
    else s
  }

  function Step(c: Config, s: State, e: Event): State {
    var s := s.(clock := e.now);
    match e.change
    case OnTimer(refreshed) => DispatchTimer(c, Reap(s, e.now), e.now, refreshed)
    case OnSession(account, input) => SessionStep(c, s, e.now, account, input)
    case OnKeyExpired(account) => Expire(s, account)
    case OnDisconnected(account) => Disconnect(s, account)
    case OnOtherStream => s.(serial := s.serial + 1)
  }

  function Run(c: Config, s: State, events: seq<Event>): State {
    if events == [] then s else Step(c, Run(c, s, events[..|events| - 1]), events[|events| - 1])
  }

  // safety over every run

  ghost predicate Inv(accounts: set<string>, s: State) {
    && s.sessions.Keys == s.dropCopy.Keys == s.births.Keys == s.deaths.Keys == accounts
    && s.zombies <= accounts
    && (forall a :: a in accounts ==> Sound(s, a))
    && !s.lateTimer && !s.fatal
  }

  /** Per account: exactly the gone streams are zombies, only stopped streams are gone, ... */
  ghost predicate Sound(s: State, a: string)
    requires a in s.dropCopy && a in s.sessions && a in s.births && a in s.deaths
  {
    && (a in s.zombies <==> s.dropCopy[a].Some? && s.dropCopy[a].value.gone)
    && (s.dropCopy[a].Some? ==>
          && (s.dropCopy[a].value.gone ==> s.dropCopy[a].value.stop)
          && s.dropCopy[a].value.serial <= s.serial
          && s.sessions[a].deadline != 0)
    && s.births[a] == s.deaths[a] + (if s.dropCopy[a].Some? then 1 else 0)
  }

  lemma ReapIsSound(accounts: set<string>, s: State, now: Time)
    requires Inv(accounts, s)
    ensures Inv(accounts, Reap(s, now))
    ensures NoneGone(Reap(s, now).dropCopy)
  {
    forall a | a in accounts ensures Sound(Reap(s, now), a) {
      assert Sound(s, a);
    }
    assert forall a :: a in accounts ==> Sound(s, a);
  }

  lemma DispatchIsSound(c: Config, accounts: set<string>, s: State, now: Time, refreshed: set<string>)
    requires Inv(accounts, s)
    requires NoneGone(s.dropCopy)
    ensures Inv(accounts, DispatchTimer(c, s, now, refreshed))
  {
    forall a | a in accounts ensures Sound(DispatchTimer(c, s, now, refreshed), a) {
      assert Sound(s, a);
    }
  }

  lemma SessionStepIsSound(c: Config, accounts: set<string>, s: State, now: Time, account: string, input: Input)
    requires Inv(accounts, s)
    ensures Inv(accounts, SessionStep(c, s, now, account, input))
  {
    forall a | a in accounts ensures Sound(SessionStep(c, s, now, account, input), a) {
      assert Sound(s, a);
    }
  }

  lemma StreamEventsAreSound(accounts: set<string>, s: State, account: string)
    requires Inv(accounts, s)
    ensures Inv(accounts, Expire(s, account)) && Inv(accounts, Disconnect(s, account))
  {
    forall a | a in accounts ensures Sound(Expire(s, account), a) && Sound(Disconnect(s, account), a) {
      assert Sound(s, a);
    }
  }

  lemma OtherStreamIsSound(accounts: set<string>, s: State, serial: nat, clock: nat)
    requires Inv(accounts, s) && s.serial <= serial
    ensures Inv(accounts, s.(serial := serial, clock := clock))
  {
    forall a | a in accounts ensures Sound(s.(serial := serial, clock := clock), a) {
      assert Sound(s, a);
    }
  }

  lemma StepKeepsInv(c: Config, accounts: set<string>, s: State, e: Event)
    requires Inv(accounts, s)
    ensures Inv(accounts, Step(c, s, e))
  {
    hide Reap, DispatchTimer, SessionStep, Expire, Disconnect, Inv;
    var now := s.(clock := e.now);
    OtherStreamIsSound(accounts, s, s.serial, e.now);
    OtherStreamIsSound(accounts, s, s.serial + 1, e.now);
    match e.change {
      case OnTimer(refreshed) =>
        ReapIsSound(accounts, now, e.now);
        DispatchIsSound(c, accounts, Reap(now, e.now), e.now, refreshed);
      case OnSession(account, input) => SessionStepIsSound(c, accounts, now, e.now, account, input);
      case OnKeyExpired(account) => StreamEventsAreSound(accounts, now, account);
      case OnDisconnected(account) => StreamEventsAreSound(accounts, now, account);
      case OnOtherStream =>
    }
  }

  /** What a timer does when the invariant holds: no fatal, and no timer for a stream that is gone. */
  lemma TimerStep(c: Config, accounts: set<string>, s: State, now: Time, refreshed: set<string>)
    requires Inv(accounts, s)
    ensures s.zombies <= s.dropCopy.Keys && s.zombies <= s.sessions.Keys && s.zombies <= s.deaths.Keys
    ensures NoneGone(Remove(s, s.zombies, now).dropCopy)
    ensures Step(c, s, Occurs(now, OnTimer(refreshed)))
            == Refresh(c, Remove(s, s.zombies, now).(zombies := {}), refreshed, now).(clock := now)
  {
    ReapIsSound(accounts, s, now);
  }

  lemma StreamSteps(c: Config, s: State, now: Time, account: string)
    ensures Step(c, s, Occurs(now, OnKeyExpired(account))) == Expire(s.(clock := now), account)
    ensures Step(c, s, Occurs(now, OnDisconnected(account))) == Disconnect(s.(clock := now), account)
  {
  }

  /** An event of an order-entry stream: first the stream changes, then a user stream may be created. */
  lemma SessionStepParts(c: Config, s: State, now: Time, account: string, input: Input, t: State, u: State)
    requires account in s.sessions && External(input)
    requires t == s.(sessions := s.sessions[account :=
                                   ListenKey.Step(c, s.sessions[account], ListenKey.At(now, input))])
    requires var published := if input.KeyReply? then Published(c, s.sessions[account], input.ok, input.key) else None;
             u == if published.Some? then Create(t, account, published.value) else t
    ensures u == SessionStep(c, s, now, account, input)
  {
    hide Create, Published, ListenKey.Step, External;
  }

  lemma SessionEvent(c: Config, accounts: set<string>, s: State, now: Time, account: string, input: Input)
    requires Inv(accounts, s)
    ensures var t := SessionStep(c, s.(clock := now), now, account, input);
            t == Step(c, s, Occurs(now, OnSession(account, input))) && Inv(accounts, t)
  {
    hide Inv, SessionStep;
    StepKeepsInv(c, accounts, s, Occurs(now, OnSession(account, input)));
  }

  lemma InitIsSafe(c: Config, accounts: set<string>, serial: nat)
    ensures Inv(accounts, Init(accounts, serial))
  {
    Safety(c, accounts, serial, []);
  }

  /**
   In every reachable state: the drop-copy map has exactly the accounts as keys and one slot each;
   a zombie names a live stopped stream; a stream that disconnected after key expiry has never had a
   later timer; both fatals of the reaper are unreachable; a live stream implies an armed refresh
   deadline; and the streams ever created are those removed plus those alive.
   */
  lemma {:induction false} Safety(c: Config, accounts: set<string>, serial: nat, events: seq<Event>)
    ensures Inv(accounts, Run(c, Init(accounts, serial), events))
  {
    if events == [] {
      assert forall a :: a in accounts ==> Sound(Init(accounts, serial), a);
    } else {
      var n := |events| - 1;
      Safety(c, accounts, serial, events[..n]);
      StepKeepsInv(c, accounts, Run(c, Init(accounts, serial), events[..n]), events[n]);
    }
  }

  // the rate of the pings, under the controller

  ghost predicate ClockedRun(events: seq<Event>) {
    forall i, j :: 0 <= i < j < |events| ==> events[i].now <= events[j].now
  }

  /** A controller event reaches the session of an account as a forced refresh, a timer,
      both, an input, or not at all. */
  function SessionEvents(s: State, e: Event, a: string): seq<ListenKey.Event> {
    match e.change
    case OnTimer(refreshed) =>
      (if a in s.zombies then [ListenKey.At(e.now, ForceRefresh)] else [])
      + (if a in refreshed then [ListenKey.At(e.now, Timer)] else [])
    case OnSession(account, input) => if account == a && External(input) then [ListenKey.At(e.now, input)] else []
    case _ => []
  }

  /** The events the session of an account sees in a run of the controller. */
  function Projection(c: Config, s: State, events: seq<Event>, a: string): seq<ListenKey.Event> {
    if events == [] then []
    else
      var n := |events| - 1;
      Projection(c, s, events[..n], a) + SessionEvents(Run(c, s, events[..n]), events[n], a)
  }

  lemma SessionFollows(c: Config, accounts: set<string>, s: State, e: Event, a: string)
    requires Inv(accounts, s) && a in accounts
    ensures a in Step(c, s, e).sessions
    ensures Step(c, s, e).sessions[a] == ListenKey.Run(c, s.sessions[a], SessionEvents(s, e, a))
    ensures forall i :: 0 <= i < |SessionEvents(s, e, a)| ==> SessionEvents(s, e, a)[i].now == e.now
  {
    Domains(accounts, s);
    SessionSteps(c, s, e, a);
    hide Inv, Step, SessionEvents, ListenKey.Step;
    var seen := SessionEvents(s, e, a);
    if |seen| == 1 {
      OneOrTwo(c, s.sessions[a], seen[0], seen[0]);
      assert seen == [seen[0]];
    } else if |seen| == 2 {
      OneOrTwo(c, s.sessions[a], seen[0], seen[1]);
      assert seen == [seen[0], seen[1]];
    }
  }

  /** At most two events of the session are due to one event of the controller. */
  lemma SessionSteps(c: Config, s: State, e: Event, a: string)
    requires a in s.sessions
    ensures a in Step(c, s, e).sessions
    ensures var seen, x := SessionEvents(s, e, a), s.sessions[a];
            && |seen| <= 2 && (forall i :: 0 <= i < |seen| ==> seen[i].now == e.now)
            && Step(c, s, e).sessions[a]
               == if |seen| == 0 then x
                  else if |seen| == 1 then ListenKey.Step(c, x, seen[0])
                  else ListenKey.Step(c, ListenKey.Step(c, x, seen[0]), seen[1])
  {
    match e.change {
      case OnTimer(refreshed) => hide NoneGone;
      case OnSession(account, input) =>
        hide ListenKey.Step;
        SessionStepAt(c, s.(clock := e.now), e.now, account, input, a);
        hide SessionStep;
      case _ =>
    }
  }

  lemma SessionStepAt(c: Config, s: State, now: Time, account: string, input: Input, a: string)
    requires a in s.sessions
    ensures a in SessionStep(c, s, now, account, input).sessions
    ensures SessionStep(c, s, now, account, input).sessions[a]
            == if account == a && External(input) then ListenKey.Step(c, s.sessions[a], ListenKey.At(now, input))
               else s.sessions[a]
  {
    hide ListenKey.Step, Published, External;
  }

  lemma OneOrTwo(c: Config, s: Session, e: ListenKey.Event, f: ListenKey.Event)
    ensures ListenKey.Run(c, s, [e]) == ListenKey.Step(c, s, e)
    ensures ListenKey.Run(c, s, [e, f]) == ListenKey.Step(c, ListenKey.Step(c, s, e), f)
  {
    assert [e][..0] == [] && [e, f][..1] == [e];
    assert ListenKey.Run(c, s, []) == s;
  }

  lemma {:induction false} RunConcat(c: Config, s: Session, a: seq<ListenKey.Event>, b: seq<ListenKey.Event>)
    ensures ListenKey.Run(c, s, a + b) == ListenKey.Run(c, ListenKey.Run(c, s, a), b)
  {
    if b == [] {
      assert a + b == a;
    } else {
      var n := |b| - 1;
      RunConcat(c, s, a, b[..n]);
      assert (a + b)[..|a + b| - 1] == a + b[..n];
    }
  }

  /** From any state, what happens to the session of an account is a run of an order-entry stream over what it sees. */
  lemma {:induction false} SessionRuns(c: Config, accounts: set<string>, s: State, events: seq<Event>, a: string)
    requires Inv(accounts, s) && a in accounts
    ensures a in s.sessions && a in Run(c, s, events).sessions && Inv(accounts, Run(c, s, events))
    ensures Run(c, s, events).sessions[a] == ListenKey.Run(c, s.sessions[a], Projection(c, s, events, a))
  {
    hide Step, SessionEvents, Inv;
    Domains(accounts, s);
    if events == [] {
      assert ListenKey.Run(c, s.sessions[a], []) == s.sessions[a];
    } else {
      hide ListenKey.Run;
      var n := |events| - 1;
      var before := Run(c, s, events[..n]);
      SessionRuns(c, accounts, s, events[..n], a);
      SessionFollows(c, accounts, before, events[n], a);
      StepKeepsInv(c, accounts, before, events[n]);
      RunConcat(c, s.sessions[a], Projection(c, s, events[..n], a), SessionEvents(before, events[n], a));
    }
  }

  /** The session sees a clock that never goes back. */
  lemma {:induction false} SeenInOrder(c: Config, accounts: set<string>, serial: nat, events: seq<Event>, a: string)
    requires a in accounts && ClockedRun(events)
    ensures var seen := Projection(c, Init(accounts, serial), events, a);
            && ListenKey.Clocked(seen)
            && forall i :: 0 <= i < |seen| ==> events != [] && seen[i].now <= events[|events| - 1].now
  {
    hide Step, SessionEvents, Inv, ListenKey.Clocked;
    if events == [] {
      NothingSeen();
    } else {
      var n := |events| - 1;
      var init, last := events[..n], events[n];
      var before, seen := Run(c, Init(accounts, serial), init), Projection(c, Init(accounts, serial), init, a);
      Safety(c, accounts, serial, init);
      SeenInOrder(c, accounts, serial, init, a);
      SessionFollows(c, accounts, before, last, a);
      hide Init, Run, Projection;
      forall i | 0 <= i < |seen| ensures seen[i].now <= last.now {
        assert events[n - 1] == init[|init| - 1];
      }
      SeenLater(seen, SessionEvents(before, last, a), last.now);
    }
  }

  /**
   In every run of the controller the session of an account is exactly the run of an order-entry stream
   over what it sees, and it sees a clock that never goes back.
   */
  lemma SessionIsARun(c: Config, accounts: set<string>, serial: nat, events: seq<Event>, a: string)
    requires a in accounts && ClockedRun(events)
    ensures var s, seen := Run(c, Init(accounts, serial), events), Projection(c, Init(accounts, serial), events, a);
            && a in s.sessions && s.sessions[a] == ListenKey.Run(c, INITIAL, seen)
            && ListenKey.Clocked(seen)
            && forall i :: 0 <= i < |seen| ==> events != [] && seen[i].now <= events[|events| - 1].now
  {
    InitIsSafe(c, accounts, serial);
    hide Inv, ListenKey.Run, ListenKey.Clocked;
    SessionRuns(c, accounts, Init(accounts, serial), events, a);
    SeenInOrder(c, accounts, serial, events, a);
  }

  lemma NothingSeen()
    ensures ListenKey.Clocked([])
  {
  }

  lemma SeenLater(seen: seq<ListenKey.Event>, more: seq<ListenKey.Event>, now: Time)
    requires ListenKey.Clocked(seen) && forall i :: 0 <= i < |seen| ==> seen[i].now <= now
    requires forall i :: 0 <= i < |more| ==> more[i].now == now
    ensures ListenKey.Clocked(seen + more) && forall i :: 0 <= i < |seen + more| ==> (seen + more)[i].now <= now
  {
  }

  /**
   The rate bound holds under the controller.  In every run, whatever is removed and forced for
   whatever account, consecutive pings of an account are at least min(period, 10s) apart, and a window
   of length T holds at most 1 + T / min(period, 10s) of them.
   */
  lemma ControllerRefreshRate(c: Config, accounts: set<string>, serial: nat, events: seq<Event>, a: string,
                              start: int, length: nat)
    requires a in accounts && ClockedRun(events)
    ensures var s := Run(c, Init(accounts, serial), events);
            && a in s.sessions && Spaced(s.sessions[a].pings, Gap(c))
            && (c.period > 0 ==> PingsWithin(s.sessions[a].pings, start, length) <= 1 + length / Gap(c))
  {
    hide Run, Projection, PingsWithin;
    SessionIsARun(c, accounts, serial, events, a);
    RefreshRate(c, Projection(c, Init(accounts, serial), events, a), start, length);
  }

  // recovery

  /** The event is a status-200 listen-key reply of the account. */
  predicate IsKeyReply(e: Event, account: string) {
    e.change.OnSession? && e.change.account == account && e.change.input.KeyReply? && e.change.input.ok
  }

  /** Removing a zombie leaves its slot empty and its next ping due in exactly ten seconds, on every timer. */
  lemma ReapingArmsTheRefresh(c: Config, accounts: set<string>, s: State, now: Time, refreshed: set<string>, a: string)
    requires Inv(accounts, s) && a in s.zombies
    ensures var t := Step(c, s, Occurs(now, OnTimer(refreshed)));
            && t.dropCopy[a].None? && a !in t.zombies
            && t.sessions[a] == s.sessions[a].(deadline := now + REFRESH_DELAY)
            && t.serial == s.serial
  {
    assert Sound(s, a);
  }

  lemma EmptySlotStep(c: Config, accounts: set<string>, s: State, e: Event, a: string)
    requires Inv(accounts, s) && a in accounts && s.dropCopy[a].None? && !IsKeyReply(e, a)
    ensures a in Step(c, s, e).dropCopy && Step(c, s, e).dropCopy[a].None? && Step(c, s, e).serial >= s.serial
  {
  }

  lemma {:induction false} SlotStaysEmpty(c: Config, accounts: set<string>, s: State, events: seq<Event>, a: string)
    requires Inv(accounts, s) && a in accounts && s.dropCopy[a].None?
    requires forall i :: 0 <= i < |events| ==> !IsKeyReply(events[i], a)
    ensures Inv(accounts, Run(c, s, events))
    ensures Run(c, s, events).dropCopy[a].None? && Run(c, s, events).serial >= s.serial
  {
    hide Step;
    if events == [] {
    } else {
      var n := |events| - 1;
      var t := Run(c, s, events[..n]);
      SlotStaysEmpty(c, accounts, s, events[..n], a);
      StepKeepsInv(c, accounts, t, events[n]);
      EmptySlotStep(c, accounts, t, events[n], a);
    }
  }

  /** One stream more: that of the account, with the key, the next serial number, and counted once. */
  ghost predicate Creates(s: State, t: State, a: string, key: string) {
    && a in s.dropCopy && s.dropCopy[a].None? && a in s.births
    && t.serial == s.serial + 1
    && t.dropCopy == s.dropCopy[a := Some(DropCopy(t.serial, key, false, false))]
    && t.births == s.births[a := s.births[a] + 1]
  }

  lemma KeyReplyCreates(c: Config, accounts: set<string>, s: State, now: Time, a: string, key: string)
    requires c.mode == Wsapi && Inv(accounts, s) && a in accounts && s.dropCopy[a].None?
    ensures Creates(s, Step(c, s, Occurs(now, OnSession(a, KeyReply(true, key)))), a, key)
  {
  }

  /** A stream with a later serial number has, until the 16 bits wrap, a larger id. */
  ghost predicate IsNewest(s: State, serial: nat) {
    forall b :: b in s.dropCopy && s.dropCopy[b].Some? ==>
      && s.dropCopy[b].value.serial < serial
      && (serial < 0x1_0000 ==> StreamId(s.dropCopy[b].value.serial) < StreamId(serial))
  }

  lemma LaterIsNewest(accounts: set<string>, s: State, serial: nat)
    requires Inv(accounts, s) && s.serial < serial
    ensures IsNewest(s, serial)
  {
    Domains(accounts, s);
  }

  /**
   Recovery over the WebSocket API.  After a zombie is removed at a timer, whatever else happens, the
   slot stays empty until the next status-200 listen-key reply; that reply creates exactly one stream,
   with the key of that reply and a later serial number (until 2^16, a larger stream id) than every
   stream alive at the removal.
   */
  lemma Recovery(c: Config, accounts: set<string>, s: State, now: Time, refreshed: set<string>, a: string,
                 events: seq<Event>, later: Time, key: string)
    requires c.mode == Wsapi && Inv(accounts, s) && a in s.zombies
    requires forall i :: 0 <= i < |events| ==> !IsKeyReply(events[i], a)
    ensures var reaped := Step(c, s, Occurs(now, OnTimer(refreshed)));
            var before := Run(c, reaped, events);
            var after := Step(c, before, Occurs(later, OnSession(a, KeyReply(true, key))));
            Creates(before, after, a, key) && IsNewest(s, after.serial)
  {
    var reaped := Step(c, s, Occurs(now, OnTimer(refreshed)));
    var before := Run(c, reaped, events);
    Removed(c, accounts, s, now, refreshed, a);
    hide Step, Run, Inv, IsNewest;
    SlotStaysEmpty(c, accounts, reaped, events, a);
    KeyReplyCreates(c, accounts, before, later, a, key);
    LaterIsNewest(accounts, s, before.serial + 1);
  }

  lemma Removed(c: Config, accounts: set<string>, s: State, now: Time, refreshed: set<string>, a: string)
    requires Inv(accounts, s) && a in s.zombies
    ensures var reaped := Step(c, s, Occurs(now, OnTimer(refreshed)));
            && Inv(accounts, reaped) && a in accounts && a in reaped.dropCopy && reaped.dropCopy[a].None?
            && reaped.serial == s.serial
  {
    Domains(accounts, s);
    StepKeepsInv(c, accounts, s, Occurs(now, OnTimer(refreshed)));
    ReapingArmsTheRefresh(c, accounts, s, now, refreshed, a);
    hide Step, Inv;
  }

  lemma SerialGrows(c: Config, s: State, e: Event)
    ensures Step(c, s, e).serial >= s.serial
  {
    match e.change {
      case OnTimer(refreshed) =>
      case OnSession(account, input) =>
      case OnKeyExpired(account) =>
      case OnDisconnected(account) =>
      case OnOtherStream =>
    }
  }

  lemma {:induction false} SerialsGrow(c: Config, s: State, events: seq<Event>, n: nat)
    requires n <= |events|
    ensures Run(c, s, events[..n]).serial <= Run(c, s, events).serial
  {
    hide Step;
    if n == |events| {
      assert events[..n] == events;
    } else {
      var m := |events| - 1;
      SerialsGrow(c, s, events[..m], n);
      assert events[..m][..n] == events[..n];
      SerialGrows(c, Run(c, s, events[..m]), events[m]);
    }
  }

  /** A stream created at the end of a run is newer than every stream that was alive at any moment of the run. */
  lemma CreatedIsNewest(c: Config, accounts: set<string>, serial: nat, events: seq<Event>,
                        t: State, a: string, key: string, n: nat)
    requires n <= |events| && Creates(Run(c, Init(accounts, serial), events), t, a, key)
    ensures IsNewest(Run(c, Init(accounts, serial), events[..n]), t.serial)
  {
    Safety(c, accounts, serial, events[..n]);
    SerialsGrow(c, Init(accounts, serial), events, n);
    LaterIsNewest(accounts, Run(c, Init(accounts, serial), events[..n]), t.serial);
    hide IsNewest, Inv, Run;
  }

  lemma Domains(accounts: set<string>, s: State)
    requires Inv(accounts, s)
    ensures s.zombies <= accounts && s.dropCopy.Keys == s.sessions.Keys == s.births.Keys == accounts
    ensures forall b :: b in s.dropCopy && s.dropCopy[b].Some? ==> s.dropCopy[b].value.serial <= s.serial
  {
    assert forall b :: b in accounts ==> Sound(s, b);
  }

  /** The events that could move the deadline or the readiness of the account's order-entry stream. */
  predicate Quiet(e: Event, account: string, deadline: int) {
    && (e.change.OnSession? ==> e.change.account != account)
    && (e.change.OnTimer? && account in e.change.refreshed ==> e.now < deadline)
  }

  lemma QuietStep(c: Config, accounts: set<string>, s: State, e: Event, a: string)
    requires Inv(accounts, s) && a in accounts && s.dropCopy[a].None? && Quiet(e, a, s.sessions[a].deadline)
    ensures a in Step(c, s, e).sessions && Step(c, s, e).sessions[a] == s.sessions[a] && !IsKeyReply(e, a)
  {
    assert Sound(s, a);
  }

  lemma {:induction false} SessionWaits(c: Config, accounts: set<string>, s: State, events: seq<Event>, a: string)
    requires Inv(accounts, s) && a in accounts && s.dropCopy[a].None?
    requires forall i :: 0 <= i < |events| ==> Quiet(events[i], a, s.sessions[a].deadline)
    ensures Inv(accounts, Run(c, s, events)) && Run(c, s, events).dropCopy[a].None?
    ensures Run(c, s, events).sessions[a] == s.sessions[a]
  {
    hide Step;
    if events == [] {
    } else {
      var n := |events| - 1;
      var t := Run(c, s, events[..n]);
      SessionWaits(c, accounts, s, events[..n], a);
      QuietStep(c, accounts, t, events[n], a);
      EmptySlotStep(c, accounts, t, events[n], a);
      StepKeepsInv(c, accounts, t, events[n]);
    }
  }

  lemma DueTimerPings(c: Config, accounts: set<string>, s: State, now: Time, refreshed: set<string>, a: string)
    requires Inv(accounts, s) && a in accounts && s.dropCopy[a].None? && a in refreshed
    requires PingDue(c, s.sessions[a], now)
    ensures var t := Step(c, s, Occurs(now, OnTimer(refreshed)));
            a in t.sessions && t.sessions[a].pings == s.sessions[a].pings + [now]
  {
    assert Sound(s, a);
  }

  /**
   The forced refresh does lead to a ping.  After a removal, whatever else happens, the account's next
   ping is sent at the first timer its order-entry stream gets at which the stream is ready, has a key,
   and the deadline set last -- ten seconds after a removal, or a period after a status-200 reply -- has
   passed; and none is sent before.  `seen` is what the stream sees of the events.
   */
  lemma ForcedPing(c: Config, accounts: set<string>, s: State, now: Time, refreshed: set<string>, a: string,
                   events: seq<Event>)
    requires Inv(accounts, s) && a in s.zombies && a in s.sessions
    ensures var reaped := Step(c, s, Occurs(now, OnTimer(refreshed)));
            var removed, seen := s.sessions[a].(deadline := now + REFRESH_DELAY), Projection(c, reaped, events, a);
            var after := Run(c, reaped, events);
            && a in after.sessions
            && ((after.sessions[a].pings == s.sessions[a].pings)
                <==> forall i :: 0 <= i < |seen| ==> !IsDue(c, removed, seen, i))
            && forall i :: 0 <= i < |seen| && IsDue(c, removed, seen, i)
                           && (forall j :: 0 <= j < i ==> !IsDue(c, removed, seen, j)) ==>
                 s.sessions[a].pings + [seen[i].now] <= after.sessions[a].pings
  {
    var reaped := Step(c, s, Occurs(now, OnTimer(refreshed)));
    ReapingArmsTheRefresh(c, accounts, s, now, refreshed, a);
    Removed(c, accounts, s, now, refreshed, a);
    hide Step, Run, Projection, Inv, IsDue, ListenKey.Run;
    SessionRuns(c, accounts, reaped, events, a);
    NextPing(c, s.sessions[a].(deadline := now + REFRESH_DELAY), Projection(c, reaped, events, a));
  }

  /**
   The simplest case.  If the order-entry stream is connected and has a key, and sees nothing but timers,
   then the first timer it gets ten seconds or more after the removal sends a ping -- and none before.
   */
  lemma QuietPing(c: Config, accounts: set<string>, s: State, now: Time, refreshed: set<string>, a: string,
                   events: seq<Event>, later: Time, refreshedThen: set<string>)
    requires Inv(accounts, s) && a in s.zombies
    requires s.sessions[a].phase == Ready && s.sessions[a].listenKey != ""
    requires forall i :: 0 <= i < |events| ==> Quiet(events[i], a, now + REFRESH_DELAY)
    requires now + REFRESH_DELAY <= later && a in refreshedThen
    ensures var reaped := Step(c, s, Occurs(now, OnTimer(refreshed)));
            var before := Run(c, reaped, events);
            var after := Step(c, before, Occurs(later, OnTimer(refreshedThen)));
            && a in before.sessions && before.sessions[a].pings == s.sessions[a].pings
            && a in after.sessions && after.sessions[a].pings == s.sessions[a].pings + [later]
  {
    hide Step, Run;
    var reaped := Step(c, s, Occurs(now, OnTimer(refreshed)));
    StepKeepsInv(c, accounts, s, Occurs(now, OnTimer(refreshed)));
    ReapingArmsTheRefresh(c, accounts, s, now, refreshed, a);
    SessionWaits(c, accounts, reaped, events, a);
    DueTimerPings(c, accounts, Run(c, reaped, events), later, refreshedThen, a);
  }

  // the REST variant

  /** The key of the last status-200 listen-key reply of the account. */
  function LastReply(events: seq<Event>, a: string): Option<string> {
    if events == [] then None
    else
      var e := events[|events| - 1];
      if IsKeyReply(e, a) then Some(e.change.input.key) else LastReply(events[..|events| - 1], a)
  }

  /** How many of these replies carried an empty key. */
  function EmptyReplies(events: seq<Event>, a: string): nat {
    if events == [] then 0
    else
      var e := events[|events| - 1];
      EmptyReplies(events[..|events| - 1], a) + if IsKeyReply(e, a) && e.change.input.key == "" then 1 else 0
  }

  lemma KeyIsStored(c: Config, accounts: set<string>, s: State, e: Event, a: string)
    requires Inv(accounts, s) && a in accounts
    ensures var t := Step(c, s, e);
            && a in t.sessions
            && t.sessions[a].listenKey == if IsKeyReply(e, a) then e.change.input.key else s.sessions[a].listenKey
  {
    Domains(accounts, s);
    hide Inv;
    match e.change {
      case OnTimer(refreshed) => hide SessionStep;
      case OnSession(account, input) => hide Reap, DispatchTimer;
      case OnKeyExpired(account) => hide SessionStep, Reap, DispatchTimer;
      case OnDisconnected(account) => hide SessionStep, Reap, DispatchTimer;
      case OnOtherStream => hide SessionStep, Reap, DispatchTimer;
    }
  }

  /** Over REST only a reply that turns an empty stored key into a non-empty one brings a stream,
      and only into an empty slot. */
  predicate Recreates(s: State, e: Event, a: string)
    requires a in s.sessions && a in s.dropCopy
  {
    IsKeyReply(e, a) && s.dropCopy[a].None? && s.sessions[a].listenKey == "" && e.change.input.key != ""
  }

  lemma ClassicStep(c: Config, accounts: set<string>, s: State, e: Event, a: string)
    requires c.mode == Classic && Inv(accounts, s) && a in accounts
    ensures var t := Step(c, s, e);
            && a in t.births && a in t.dropCopy
            && t.births[a] == s.births[a] + (if Recreates(s, e, a) then 1 else 0)
            && (Recreates(s, e, a) ==> t.dropCopy[a] == Some(DropCopy(t.serial, e.change.input.key, false, false)))
            && (s.dropCopy[a].None? ==> (t.dropCopy[a].Some? <==> Recreates(s, e, a)))
  {
    Domains(accounts, s);
    hide Inv;
    match e.change {
      case OnTimer(refreshed) => hide SessionStep;
      case OnSession(account, input) => hide Reap, DispatchTimer;
      case OnKeyExpired(account) => hide SessionStep, Reap, DispatchTimer;
      case OnDisconnected(account) => hide SessionStep, Reap, DispatchTimer;
      case OnOtherStream => hide SessionStep, Reap, DispatchTimer;
    }
  }

  /**
   What a REST run remembers: the stored key is the one of the last status-200 reply, every stream was
   preceded by such a reply, and an account has had no more streams than replies with an empty key, plus
   one if its stored key is not empty.
   */
  lemma {:induction false} ClassicStreamsAreBounded(c: Config, accounts: set<string>, serial: nat,
                                                    events: seq<Event>, a: string)
    requires c.mode == Classic && a in accounts
    ensures var s := Run(c, Init(accounts, serial), events);
            && Inv(accounts, s)
            && s.sessions[a].listenKey == (if LastReply(events, a).Some? then LastReply(events, a).value else "")
            && (s.births[a] > 0 ==> LastReply(events, a).Some?)
            && s.births[a] <= EmptyReplies(events, a) + if s.sessions[a].listenKey != "" then 1 else 0
  {
    hide Step;
    Safety(c, accounts, serial, events);
    if events == [] {
    } else {
      var n := |events| - 1;
      var before := Run(c, Init(accounts, serial), events[..n]);
      ClassicStreamsAreBounded(c, accounts, serial, events[..n], a);
      KeyIsStored(c, accounts, before, events[n], a);
      ClassicStep(c, accounts, before, events[n], a);
    }
  }

  /**
   Recovery over REST.  After any run that leaves an account without a user stream, the next status-200
   listen-key reply creates one if and only if its key is not empty and the last such reply before it,
   if there was one, carried an empty key.  An account that has had a stream has had a reply: so a
   removed stream comes back exactly when the exchange answers with an empty key in between.
   */
  lemma ClassicRecovery(c: Config, accounts: set<string>, serial: nat, events: seq<Event>,
                        a: string, now: Time, key: string)
    requires c.mode == Classic && a in accounts
    requires a in Run(c, Init(accounts, serial), events).dropCopy
             && Run(c, Init(accounts, serial), events).dropCopy[a].None?
    ensures var s := Run(c, Init(accounts, serial), events);
            var t := Step(c, s, Occurs(now, OnSession(a, KeyReply(true, key))));
            && a in s.births && (s.births[a] > 0 ==> LastReply(events, a).Some?)
            && a in t.dropCopy
            && (t.dropCopy[a].Some? <==> key != "" && LastReply(events, a) in {None, Some("")})
            && (t.dropCopy[a].Some? ==> t.dropCopy[a] == Some(DropCopy(t.serial, key, false, false)))
  {
    hide Step, Run;
    var s := Run(c, Init(accounts, serial), events);
    ClassicStreamsAreBounded(c, accounts, serial, events, a);
    ClassicStep(c, accounts, s, Occurs(now, OnSession(a, KeyReply(true, key))), a);
  }
}
