/**
 How an order-entry stream looks after its listen key: it acquires the key while connecting, pings
 it again and again, and the controller can force an early ping.  Both order-entry streams are
 covered: over the WebSocket API and over REST ("classic").
 */
module ListenKey {
  import opened Wrappers

  /** Clock readings in nanoseconds: positive and shared by all streams. */
  type Time = x: int | 0 < x witness 1

  /** The delay of a forced refresh: 10 seconds. */
  const REFRESH_DELAY: int := 10_000_000_000

  datatype Mode = Wsapi | Classic

  /** The refresh period is a setting. */
  datatype Config = Config(mode: Mode, period: nat)

  datatype Phase = Down | Logon | KeyRequested | Ready

  /** A zero deadline means that no listen key has been received yet; `pings` is the history of refreshes sent. */
  datatype Session = Session(phase: Phase, listenKey: string, deadline: nat, pings: seq<Time>)

  datatype Input =
    | Timer                          // the connection is up and has been refreshed
    | SocketReady
    | LogonReply(ok: bool)
    | KeyReply(ok: bool, key: string)
    | Disconnected
    | ForceRefresh

  datatype Event = At(now: Time, input: Input)

  const INITIAL := Session(Down, "", 0, [])

  function Force(s: Session, now: Time): Session {
    if s.deadline != 0 then s.(deadline := now + REFRESH_DELAY) else s
  }

  predicate PingDue(c: Config, s: Session, now: Time) {
    s.phase == Ready && (c.mode == Wsapi ==> s.listenKey != "") && s.deadline != 0 && s.deadline <= now
  }

  function Ping(c: Config, s: Session, now: Time): Session {
    if PingDue(c, s, now) then s.(deadline := now + c.period, pings := s.pings + [now]) else s
  }

  /** A status-200 reply stores the key, re-arms the deadline,
      and completes the connection if that waits for the key. */
  function Receive(c: Config, s: Session, now: Time, ok: bool, key: string): Session {
    if ok then
      s.(listenKey := key, deadline := now + c.period, phase := if s.phase == KeyRequested then Ready else s.phase)
    else s
  }

  /** The key handed to the controller: every reply over the WebSocket API, but only the first key over REST. */
  function Published(c: Config, s: Session, ok: bool, key: string): Option<string> {
    if ok && (c.mode == Wsapi || (s.listenKey == "" && key != "")) then Some(key) else None
  }

  function Step(c: Config, s: Session, e: Event): Session {
    match e.input
    case Timer => Ping(c, s, e.now)
    case SocketReady => s.(phase := if c.mode == Wsapi then Logon else KeyRequested)
    case LogonReply(ok) => if ok && s.phase == Logon then s.(phase := KeyRequested) else s
    case KeyReply(ok, key) => Receive(c, s, e.now, ok, key)
    case Disconnected => s.(phase := Down)
    case ForceRefresh => Force(s, e.now)
  }

  function Run(c: Config, s: Session, events: seq<Event>): Session {
    if events == [] then s else Step(c, Run(c, s, events[..|events| - 1]), events[|events| - 1])
  }

  ghost predicate Clocked(events: seq<Event>) {
    forall i, j :: 0 <= i < j < |events| ==> events[i].now <= events[j].now
  }

  // becoming ready

  /** The socket came up at event i and has stayed up. */
  ghost predicate UpSince(events: seq<Event>, i: nat) {
    && i < |events| && events[i].input.SocketReady?
    && forall k :: i < k < |events| ==> !events[k].input.Disconnected? && !events[k].input.SocketReady?
  }

  /** On a connection made at event i the stream has logged on, which only the WebSocket API requires. */
  ghost predicate LoggedOn(c: Config, events: seq<Event>, i: nat) {
    UpSince(events, i) && (c.mode == Wsapi ==> exists j :: i < j < |events| && events[j].input == LogonReply(true))
  }

  /** ... and has received a listen key since. */
  ghost predicate HasKey(c: Config, events: seq<Event>, i: nat) {
    && UpSince(events, i)
    && exists k :: i < k < |events| && events[k].input.KeyReply? && events[k].input.ok && LoggedOn(c, events[..k], i)
  }

  lemma UpStep(events: seq<Event>, i: nat)
    requires events != []
    ensures var n := |events| - 1;
            UpSince(events, i) <==>
              if i == n then events[n].input.SocketReady?
              else UpSince(events[..n], i) && !events[n].input.Disconnected? && !events[n].input.SocketReady?
  {
    var before := events[..|events| - 1];
    assert forall k :: 0 <= k < |before| ==> before[k] == events[k];
  }

  lemma LogonStep(c: Config, events: seq<Event>, i: nat)
    requires events != []
    ensures var n := |events| - 1;
            LoggedOn(c, events, i) <==>
              && UpSince(events, i)
              && (c.mode == Wsapi ==> i < n && (LoggedOn(c, events[..n], i) || events[n].input == LogonReply(true)))
  {
    var n := |events| - 1;
    var before := events[..n];
    UpStep(events, i);
    if j :| i < j < n && before[j].input == LogonReply(true) {
      assert events[j] == before[j];
    }
    if j :| i < j < |events| && events[j].input == LogonReply(true) {
      assert j < n ==> before[j] == events[j];
    }
    hide UpSince;
  }

  lemma KeyStep(c: Config, events: seq<Event>, i: nat)
    requires events != []
    ensures var n := |events| - 1;
            HasKey(c, events, i) <==>
              && UpSince(events, i) && i < n
              && (HasKey(c, events[..n], i)
                  || (events[n].input.KeyReply? && events[n].input.ok && LoggedOn(c, events[..n], i)))
  {
    var n := |events| - 1;
    var before := events[..n];
    UpStep(events, i);
    hide UpSince, LoggedOn;
    if k :| i < k < n && before[k].input.KeyReply? && before[k].input.ok && LoggedOn(c, before[..k], i) {
      assert events[k] == before[k] && events[..k] == before[..k];
    }
    if k :| i < k < |events| && events[k].input.KeyReply? && events[k].input.ok && LoggedOn(c, events[..k], i) {
      assert k < n ==> before[k] == events[k] && before[..k] == events[..k];
    }
  }

  ghost predicate IsUp(events: seq<Event>) {
    exists i :: UpSince(events, i)
  }

  ghost predicate IsLoggedOn(c: Config, events: seq<Event>) {
    exists i :: LoggedOn(c, events, i)
  }

  ghost predicate IsKeyed(c: Config, events: seq<Event>) {
    exists i :: HasKey(c, events, i)
  }

  lemma OneUp(events: seq<Event>)
    requires events != []
    ensures var e := events[|events| - 1].input;
            IsUp(events) <==> e.SocketReady? || (IsUp(events[..|events| - 1]) && !e.Disconnected?)
  {
    var n := |events| - 1;
    UpStep(events, n);
    if i :| UpSince(events, i) {
      UpStep(events, i);
    }
    if i :| UpSince(events[..n], i) {
      UpStep(events, i);
    }
    hide UpSince;
  }

  lemma OneLogon(c: Config, events: seq<Event>)
    requires events != []
    ensures var before, e := events[..|events| - 1], events[|events| - 1].input;
            IsLoggedOn(c, events) <==>
              if c.mode == Classic then IsUp(events)
              else
                && IsUp(before) && !e.SocketReady? && !e.Disconnected?
                && (IsLoggedOn(c, before) || e == LogonReply(true))
  {
    var n := |events| - 1;
    var before := events[..n];
    if i :| LoggedOn(c, events, i) {
      LogonStep(c, events, i);
      UpStep(events, i);
    }
    if i :| LoggedOn(c, before, i) {
      LogonStep(c, events, i);
      UpStep(events, i);
    }
    if i :| UpSince(before, i) {
      LogonStep(c, events, i);
      UpStep(events, i);
    }
    if i :| UpSince(events, i) {
      LogonStep(c, events, i);
    }
    hide UpSince;
  }

  lemma LogonIsClassic(c: Config, events: seq<Event>)
    ensures c.mode == Classic ==> (IsLoggedOn(c, events) <==> IsUp(events))
    ensures IsLoggedOn(c, events) ==> IsUp(events)
  {
    if c.mode == Classic {
      if i :| UpSince(events, i) {
        assert LoggedOn(c, events, i);
      }
    }
    hide UpSince;
  }

  lemma OneKey(c: Config, events: seq<Event>)
    requires events != []
    ensures var before, e := events[..|events| - 1], events[|events| - 1].input;
            IsKeyed(c, events) <==>
              && !e.SocketReady? && !e.Disconnected?
              && (IsKeyed(c, before) || (e.KeyReply? && e.ok && IsLoggedOn(c, before)))
  {
    var n := |events| - 1;
    var before := events[..n];
    if i :| HasKey(c, events, i) {
      KeyStep(c, events, i);
      UpStep(events, i);
    }
    if i :| HasKey(c, before, i) {
      KeyStep(c, events, i);
      UpStep(events, i);
    }
    if i :| LoggedOn(c, before, i) {
      KeyStep(c, events, i);
      UpStep(events, i);
    }
    hide UpSince;
  }

  /**
   When a stream is ready, in either mode: if and only if the socket has come up, the log-on was confirmed
   (WebSocket API) and then a listen key arrived, in that order and all on the present connection.  Before
   that it waits for the key exactly when it has logged on, and for the log-on when it is up.
   */
  lemma {:induction false} ReadyInOrder(c: Config, events: seq<Event>)
    ensures var phase := Run(c, INITIAL, events).phase;
            && (phase != Down <==> exists i :: UpSince(events, i))
            && (phase == KeyRequested || phase == Ready <==> exists i :: LoggedOn(c, events, i))
            && (phase == Ready <==> exists i :: HasKey(c, events, i))
  {
    if events == [] {
    } else {
      ReadyInOrder(c, events[..|events| - 1]);
      OneUp(events);
      OneLogon(c, events);
      OneKey(c, events);
      LogonIsClassic(c, events[..|events| - 1]);
      hide UpSince, LoggedOn, HasKey;
    }
  }

  // the rate of the pings

  function Gap(c: Config): nat {
    if c.period < REFRESH_DELAY then c.period else REFRESH_DELAY
  }

  ghost predicate Spaced(times: seq<Time>, gap: nat) {
    forall i :: 0 <= i < |times| - 1 ==> times[i] + gap <= times[i + 1]
  }

  /** The next ping is never due sooner than `Gap` after the last one. */
  ghost predicate Inv(c: Config, s: Session, clock: nat) {
    && Spaced(s.pings, Gap(c))
    && (s.pings != [] ==>
          s.pings[|s.pings| - 1] <= clock && s.pings[|s.pings| - 1] + Gap(c) <= s.deadline)
  }

  lemma StepKeepsInv(c: Config, s: Session, clock: nat, e: Event)
    requires Inv(c, s, clock) && clock <= e.now
    ensures Inv(c, Step(c, s, e), e.now)
  {
  }

  lemma {:induction false} RunKeepsInv(c: Config, events: seq<Event>)
    requires Clocked(events)
    ensures Inv(c, Run(c, INITIAL, events), if events == [] then 0 else events[|events| - 1].now)
  {
    if events == [] {
    } else {
      var n := |events| - 1;
      RunKeepsInv(c, events[..n]);
      StepKeepsInv(c, Run(c, INITIAL, events[..n]), if n == 0 then 0 else events[n - 1].now, events[n]);
    }
  }

  /** How many pings fall into a window of the given length. */
  function PingsWithin(times: seq<Time>, start: int, length: nat): nat {
    if times == [] then 0
    else
      var n := |times| - 1;
      PingsWithin(times[..n], start, length) + if start <= times[n] <= start + length then 1 else 0
  }

  /**
   The refresh rate is bounded.  For every interleaving of timers, replies, reconnects and forced
   refreshes, consecutive pings are at least min(period, 10s) apart, so a window of length T holds
   at most 1 + T / min(period, 10s) of them.
   */
  lemma RefreshRate(c: Config, events: seq<Event>, start: int, length: nat)
    requires Clocked(events)
    ensures Spaced(Run(c, INITIAL, events).pings, Gap(c))
    ensures c.period > 0 ==> PingsWithin(Run(c, INITIAL, events).pings, start, length) <= 1 + length / Gap(c)
  {
    RunKeepsInv(c, events);
    SpacedPingsAreFew(c, Run(c, INITIAL, events).pings, start, length);
  }

  lemma SpacedPingsAreFew(c: Config, pings: seq<Time>, start: int, length: nat)
    requires Spaced(pings, Gap(c))
    ensures c.period > 0 ==> PingsWithin(pings, start, length) <= 1 + length / Gap(c)
  {
    var k := PingsWithin(pings, start, length);
    if c.period > 0 && k > 0 {
      WindowSpan(pings, Gap(c), start, length);
      Quotient(k - 1, Gap(c), length);
    }
  }

  /** k pings inside a window span at least k - 1 gaps. */
  lemma {:induction false} WindowSpan(times: seq<Time>, gap: nat, start: int, length: nat)
    requires Spaced(times, gap)
    ensures var k := PingsWithin(times, start, length);
            k > 0 ==> (k - 1) * gap <= length && start + (k - 1) * gap <= times[|times| - 1]
  {
    if times == [] {
    } else {
      var n := |times| - 1;
      var before := times[..n];
      WindowSpan(before, gap, start, length);
      var k := PingsWithin(before, start, length);
      if n > 0 {
        assert times[n - 1] + gap <= times[n - 1 + 1];
      }
      OneMoreGap(k, gap);
    }
  }

  lemma OneMoreGap(k: nat, gap: nat)
    ensures (k - 1) * gap + gap == k * gap
  {
  }

  lemma Quotient(n: nat, gap: nat, length: nat)
    requires gap > 0 && n * gap <= length
    ensures n <= length / gap
  {
    var q := length / gap;
    assert n - q >= 1 ==> (n - q) * gap >= gap;
  }

  // the next ping

  /** A stream has a deadline if and only if it has received a status-200 reply; a forced refresh gives it none. */
  lemma {:induction false} DeadlineExactly(c: Config, events: seq<Event>)
    ensures Run(c, INITIAL, events).deadline != 0 <==>
              exists i :: 0 <= i < |events| && events[i].input.KeyReply? && events[i].input.ok
  {
    if events == [] {
    } else {
      var n := |events| - 1;
      DeadlineExactly(c, events[..n]);
      if i :| 0 <= i < n && events[..n][i].input.KeyReply? && events[..n][i].input.ok {
        assert events[i] == events[..n][i];
      }
      if i :| 0 <= i < |events| && events[i].input.KeyReply? && events[i].input.ok {
        assert i < n ==> events[..n][i] == events[i];
      }
    }
  }

  /** The deadline set last: by a status-200 reply or a forced refresh, or else the one at the start. */
  function LastDeadline(c: Config, start: nat, events: seq<Event>): nat {
    if events == [] then start
    else
      var last := events[|events| - 1];
      if last.input.ForceRefresh? then last.now + REFRESH_DELAY
      else if last.input.KeyReply? && last.input.ok then last.now + c.period
      else LastDeadline(c, start, events[..|events| - 1])
  }

  /** At event i, a timer, the stream is ready, has a key, and the deadline set last has passed. */
  ghost predicate IsDue(c: Config, s: Session, events: seq<Event>, i: nat)
    requires i < |events|
  {
    var t := Run(c, s, events[..i]);
    && events[i].input.Timer? && t.phase == Ready && (c.mode == Wsapi ==> t.listenKey != "")
    && LastDeadline(c, s.deadline, events[..i]) <= events[i].now
  }

  lemma {:induction false} NothingDue(c: Config, s: Session, events: seq<Event>)
    requires s.deadline != 0 && forall i :: 0 <= i < |events| ==> !IsDue(c, s, events, i)
    ensures Run(c, s, events).pings == s.pings
    ensures Run(c, s, events).deadline == LastDeadline(c, s.deadline, events) != 0
  {
    if events == [] {
    } else {
      var n := |events| - 1;
      forall i | 0 <= i < n ensures !IsDue(c, s, events[..n], i) {
        PrefixDue(c, s, events, n, i);
      }
      NothingDue(c, s, events[..n]);
      assert !IsDue(c, s, events, n);
    }
  }

  lemma PrefixDue(c: Config, s: Session, events: seq<Event>, n: nat, i: nat)
    requires i < n <= |events|
    ensures IsDue(c, s, events[..n], i) <==> IsDue(c, s, events, i)
  {
    assert events[..n][..i] == events[..i];
  }

  lemma {:induction false} PingsGrow(c: Config, s: Session, events: seq<Event>, n: nat)
    requires n <= |events|
    ensures Run(c, s, events[..n]).pings <= Run(c, s, events).pings
  {
    if n == |events| {
      assert events[..n] == events;
    } else {
      var m := |events| - 1;
      PingsGrow(c, s, events[..m], n);
      assert events[..m][..n] == events[..n];
    }
  }

  /** A due timer before which nothing was due is the next ping. */
  lemma FirstDue(c: Config, s: Session, events: seq<Event>, i: nat)
    requires s.deadline != 0 && i < |events|
    requires IsDue(c, s, events, i) && forall j :: 0 <= j < i ==> !IsDue(c, s, events, j)
    ensures s.pings + [events[i].now] <= Run(c, s, events).pings
  {
    forall j | 0 <= j < i ensures !IsDue(c, s, events[..i], j) {
      PrefixDue(c, s, events, i, j);
    }
    NothingDue(c, s, events[..i]);
    assert events[..i + 1][..i] == events[..i];
    assert Run(c, s, events[..i + 1]) == Step(c, Run(c, s, events[..i]), events[i]);
    PingsGrow(c, s, events, i + 1);
  }

  /** If a timer is due, some timer is due first. */
  lemma {:induction false} SomeDueFirst(c: Config, s: Session, events: seq<Event>, k: nat) returns (i: nat)
    requires k < |events| && IsDue(c, s, events, k)
    ensures i <= k && IsDue(c, s, events, i) && forall j :: 0 <= j < i ==> !IsDue(c, s, events, j)
  {
    hide IsDue;
    if j :| 0 <= j < k && IsDue(c, s, events, j) {
      i := SomeDueFirst(c, s, events, j);
    } else {
      i := k;
    }
  }

  /**
   The next ping of a stream that has a deadline: at the first timer at which the stream is ready, has a
   key, and the deadline set last by a reply or a forced refresh has passed -- and no sooner.
   */
  lemma NextPing(c: Config, s: Session, events: seq<Event>)
    requires s.deadline != 0
    ensures Run(c, s, events).pings == s.pings <==> forall i :: 0 <= i < |events| ==> !IsDue(c, s, events, i)
    ensures forall i :: 0 <= i < |events| && IsDue(c, s, events, i)
                          && (forall j :: 0 <= j < i ==> !IsDue(c, s, events, j)) ==>
              s.pings + [events[i].now] <= Run(c, s, events).pings
  {
    hide Run, IsDue;
    forall i | 0 <= i < |events| && IsDue(c, s, events, i) && (forall j :: 0 <= j < i ==> !IsDue(c, s, events, j))
      ensures s.pings + [events[i].now] <= Run(c, s, events).pings
    {
      FirstDue(c, s, events, i);
    }
    if k :| 0 <= k < |events| && IsDue(c, s, events, k) {
      var i := SomeDueFirst(c, s, events, k);
      assert s.pings + [events[i].now] <= Run(c, s, events).pings;
    } else {
      NothingDue(c, s, events);
    }
  }

  // the stream object

  class OrderEntry {
    const config: Config
    const account: string
    var phase: Phase
    var listenKey: string
    var deadline: nat
    ghost var pings: seq<Time>

    ghost function View(): Session
      reads this
    {
      Session(phase, listenKey, deadline, pings)
    }

    constructor (config: Config, account: string)
      ensures this.config == config && this.account == account && View() == INITIAL
    {
      this.config, this.account := config, account;
      phase, listenKey, deadline, pings := Down, "", 0, [];
    }

    method ForceListenKeyRefresh(now: Time)
      modifies this
      ensures View() == Step(config, old(View()), At(now, ForceRefresh))
    {
      if deadline != 0 {
        deadline := now + REFRESH_DELAY;
      }
    }

    /** Sends the next ping when it is due. */
    method RefreshListenKey(now: Time) returns (sent: bool)
      modifies this
      ensures View() == Step(config, old(View()), At(now, Timer))
      ensures sent == PingDue(config, old(View()), now)
    {
      if phase != Ready {
        return false;
      }
      if config.mode == Wsapi && listenKey == "" {
        return false;
      }
      if deadline == 0 || now < deadline {
        return false;
      }
      deadline := now + config.period;
      pings := pings + [now];
      sent := true;
    }

    method OnListenKey(now: Time, ok: bool, key: string) returns (published: Option<string>)
      modifies this
      ensures View() == Step(config, old(View()), At(now, KeyReply(ok, key)))
      ensures published == Published(config, old(View()), ok, key)
    {
      published := None;
      if !ok {
        return;
      }
      var initial := listenKey == "";
      var changed := listenKey != key;
      listenKey := key;
      if config.mode == Wsapi || (changed && initial) {
        published := Some(key);
      }
      if phase == KeyRequested {
        phase := Ready;
      }
      deadline := now + config.period;
    }

    method OnSocketReady(now: Time)
      modifies this
      ensures View() == Step(config, old(View()), At(now, SocketReady))
    {
      phase := if config.mode == Wsapi then Logon else KeyRequested;
    }

    method OnLogon(now: Time, ok: bool)
      modifies this
      ensures View() == Step(config, old(View()), At(now, LogonReply(ok)))
    {
      if ok && phase == Logon {
        phase := KeyRequested;
      }
    }

    method OnDisconnected(now: Time)
      modifies this
      ensures View() == Step(config, old(View()), At(now, Disconnected))
    {
      phase := Down;
    }
  }
}
