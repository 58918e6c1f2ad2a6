/** Where the start-up download stops for good: exactly when that happens, and runs in which it does. */
module DownloadStranding {
  import opened Download
  import opened StaleOrders
  import opened DownloadOrder
  import opened DownloadProgress

  /** A batch of stale orders was sent, none of its orders was found, and no query is in flight. */
  predicate Stuck(d: DropCopy) {
    d.phase == GetStaleOrders && StaleOrders !in d.shared.answered && StaleOrders !in d.shared.pending
    && d.shared.inFlight == multiset{}
  }

  /** A waiting phase can be helped by some event, exactly unless it is stuck. */
  lemma HelpIsPossibleUnlessStuck(s: State)
    requires Served(s.drop) && s.drop.phase.Waiting()
    ensures (exists e :: Helpful(s, e)) <==> !Stuck(s.drop)
  {
    if !Stuck(s.drop) {
      var t := TopicOf(s.drop.phase);
      if t in s.drop.shared.answered {
        assert Helpful(s, OnDropCopyTimer({}, false, false));
      } else if t in s.drop.shared.pending {
        assert Helpful(s, OnOrderEntryTimer({t}, {}));
      } else if t == StaleOrders {
        var key :| key in s.drop.shared.inFlight;
        assert Helpful(s, OnOrderReply(key));
      } else {
        assert Helpful(s, OnReply(t));
      }
    }
  }

  /** Sending a batch strands the download exactly when none of its orders is found and nothing else is in flight. */
  predicate Strands(s: State, e: Event) {
    && s.drop.phase == GetStaleOrders && StaleOrders !in s.drop.shared.answered && StaleOrders in s.drop.shared.pending
    && e.OnOrderEntryTimer? && StaleOrders in e.granted
    && s.drop.shared.waiting * e.known == {} && s.drop.shared.inFlight == multiset{}
  }

  lemma TimerStrands(c: Config, s: State, granted: set<Topic>, known: set<Key>)
    requires !Stuck(s.drop)
    ensures Stuck(Step(c, s, OnOrderEntryTimer(granted, known)).drop) <==> Strands(s, OnOrderEntryTimer(granted, known))
  {
    TimerSends(c, Entry(s), granted, known);
    hide OrderEntryTimer;
    var found := s.drop.shared.waiting * known;
    var after := Step(c, s, OnOrderEntryTimer(granted, known)).drop.shared;
    if key :| key in s.drop.shared.inFlight {
      assert key in after.inFlight;
    } else if Sends(s.drop.shared, granted, StaleOrders) && found != {} {
      var key :| key in found;
      assert after.inFlight == s.drop.shared.inFlight + multiset(found);
      assert key in after.inFlight;
    }
  }

  lemma DropCopyTimerStrandsNothing(c: Config, d: DropCopy, stale: set<Key>, balanceDue: bool, staleDue: bool)
    requires Tracked(c, d) && !Stuck(d)
    ensures !Stuck(DropCopyTimer(c, d, stale, balanceDue, staleDue))
  {
    var e := CheckQueue(c, d, stale);
    CheckQueueIsTracked(c, d, stale);
    PollingKeepsPhase(e, balanceDue, staleDue, stale);
    LeavesWhenAnswered(c, d, stale);
    if d.phase == GetOpenOrders && OpenOrders in d.shared.answered {
      EnterStaleOrders(c, d.(shared := Discover(d.shared, stale)));
    } else if d.phase == GetPositions || d.phase == GetBalances {
      Unfold(c, d, NextPhase(d.phase));
    }
    hide CheckQueue, Enter, CheckStaleOrders, RefreshBalance;
  }

  lemma OrderReplyStrandsNothing(c: Config, s: State, key: Key)
    requires Balanced(Entry(s)) && !Stuck(s.drop)
    ensures !Stuck(Step(c, s, OnOrderReply(key)).drop)
  {
    if key in s.drop.shared.inFlight {
      CommitsOnLastReply(c, s, key);
    }
  }

  lemma ConnectingStrandsNothing(c: Config, s: State)
    ensures !Stuck(Step(c, s, SocketReady).drop) && !Stuck(Step(c, s, SocketDisconnected).drop)
  {
    Unfold(c, s.drop.(shared := s.drop.shared.(trail := [])), GetBalances);
    hide Enter;
  }

  /** There is no other way in: of all events, exactly such a timer strands a download that is not stranded. */
  lemma StrandsExactly(c: Config, s: State, e: Event)
    requires Tracked(c, s.drop) && Served(s.drop) && Balanced(Entry(s)) && !Stuck(s.drop)
    ensures Stuck(Step(c, s, e).drop) <==> Strands(s, e)
  {
    match e {
      case SocketReady => ConnectingStrandsNothing(c, s);
      case SocketDisconnected => ConnectingStrandsNothing(c, s);
      case OnDropCopyTimer(stale, balanceDue, staleDue) =>
        DropCopyTimerStrandsNothing(c, s.drop, stale, balanceDue, staleDue);
      case OnOrderEntryTimer(granted, known) => TimerStrands(c, s, granted, known);
      case OnReply(topic) =>
      case OnOrderReply(key) => OrderReplyStrandsNothing(c, s, key);
    }
    hide Begin, DropCopyTimer, OrderEntryTimer, OrderReply, Balanced, Tracked;
  }

  lemma StuckStep(c: Config, s: State, e: Event)
    requires Stuck(s.drop) && !Reconnects(e) && Tracked(c, s.drop) && Served(s.drop)
    ensures Stuck(Step(c, s, e).drop)
  {
    match e {
      case OnDropCopyTimer(stale, balanceDue, staleDue) =>
      case OnOrderEntryTimer(granted, known) =>
        TimerSends(c, Entry(s), granted, known);
        hide OrderEntryTimer;
      case OnReply(topic) =>
      case OnOrderReply(key) =>
    }
  }

  /**
   Once stranded, always stranded: nothing but a new connection brings the download any further, no
   matter what the order management and the exchange do.
   */
  lemma {:induction false} StuckForever(c: Config, s: State, events: seq<Event>)
    requires Tracked(c, s.drop) && Served(s.drop) && Stuck(s.drop)
    requires forall i :: 0 <= i < |events| ==> !Reconnects(events[i])
    ensures Tracked(c, Run(c, s, events).drop) && Served(Run(c, s, events).drop)
    ensures Stuck(Run(c, s, events).drop) && Run(c, s, events).drop.status == Downloading
  {
    hide Step;
    if events == [] {
    } else {
      var n := |events| - 1;
      StuckForever(c, s, events[..n]);
      StuckStep(c, Run(c, s, events[..n]), events[n]);
      StepIsTracked(c, Run(c, s, events[..n]), events[n]);
      StepIsServed(c, Run(c, s, events[..n]), events[n]);
    }
  }

  /**
   A reply to a query of an earlier batch can end the stale-order step before the present batch is
   sent: the source then warns of stale orders that are still waiting, and goes on without them.
   */
  lemma EarlyAnswer(c: Config, s: State, key: Key, stale: set<Key>, balanceDue: bool, staleDue: bool)
    requires Tracked(c, s.drop) && Balanced(Entry(s))
    requires s.drop.phase == GetStaleOrders && StaleOrders !in s.drop.shared.answered && key in s.drop.shared.inFlight
    ensures var t := Step(c, s, OnOrderReply(key));
            var u := Step(c, t, OnDropCopyTimer(stale, balanceDue, staleDue));
            && (u.drop.phase != GetStaleOrders <==> s.drop.shared.inFlight == multiset{key})
            && (t.drop.shared.waiting != {} <==> StaleOrders in s.drop.shared.pending)
  {
    var t := Step(c, s, OnOrderReply(key));
    CommitsOnLastReply(c, s, key);
    StepIsTracked(c, s, OnOrderReply(key));
    LeavesWhenAnswered(c, t.drop, stale);
    PollingKeepsPhase(CheckQueue(c, t.drop, stale), balanceDue, staleDue, stale);
    assert s.drop.shared.inFlight == (s.drop.shared.inFlight - multiset{key}) + multiset{key};
    hide CheckQueue, Tracked, Balanced, CheckStaleOrders, RefreshBalance;
  }

  /** Event n of a run strands the download, and no connection is made or lost after it. */
  ghost predicate StrandedAt(c: Config, events: seq<Event>, n: nat)
    requires n < |events|
  {
    Strands(Run(c, INITIAL, events[..n]), events[n]) && forall k :: n < k < |events| ==> !Reconnects(events[k])
  }

  lemma StrandedAtLast(c: Config, events: seq<Event>, n: nat)
    requires n == |events| - 1
    ensures StrandedAt(c, events, n) <==> Strands(Run(c, INITIAL, events[..n]), events[n])
    ensures forall m :: 0 <= m < n ==>
              (StrandedAt(c, events, m) <==> StrandedAt(c, events[..n], m) && !Reconnects(events[n]))
  {
    hide Run, Strands, Reconnects;
    var before := events[..n];
    forall m | 0 <= m < n ensures StrandedAt(c, events, m) <==> StrandedAt(c, before, m) && !Reconnects(events[n]) {
      assert events[..m] == before[..m] && events[m] == before[m];
      assert forall k :: m < k < n ==> events[k] == before[k];
    }
  }

  /**
   Exactly when a download is stranded.  After any run it is if and only if some timer of the run sent a
   batch of stale orders none of which was found while no query was in flight, and the connection has
   been the same since.
   */
  lemma {:induction false} StrandedRuns(c: Config, events: seq<Event>)
    ensures Stuck(Run(c, INITIAL, events).drop) <==> exists n :: 0 <= n < |events| && StrandedAt(c, events, n)
  {
    hide Step, Stuck, Strands, Balanced, Tracked, Served, StrandedAt, Reconnects;
    if events == [] {
      NothingIsStuck();
    } else {
      var n := |events| - 1;
      var before, e := events[..n], events[n];
      var s := Run(c, INITIAL, before);
      StrandedRuns(c, before);
      StrandedAtLast(c, events, n);
      EveryPhaseIsServed(c, before);
      StaleOrdersAreConserved(c, before);
      StepStrands(c, s, e);
    }
  }

  /** One step of that: stranded before and still connected, or stranded now. */
  lemma StepStrands(c: Config, s: State, e: Event)
    requires Tracked(c, s.drop) && Served(s.drop) && Balanced(Entry(s))
    ensures Stuck(Step(c, s, e).drop) <==> Strands(s, e) || (Stuck(s.drop) && !Reconnects(e))
  {
    if !Stuck(s.drop) {
      StrandsExactly(c, s, e);
    } else if Reconnects(e) {
      ConnectingStrandsNothing(c, s);
    } else {
      StuckStep(c, s, e);
    }
    hide Step, Balanced, Tracked, Served;
  }

  lemma NothingIsStuck()
    ensures !Stuck(INITIAL.drop)
  {
  }

  // runs that end this way

  /** A topic is sent, answered, and the phase left. */
  function Serve(t: Topic, stale: set<Key>): seq<Event> {
    [OnOrderEntryTimer({t}, {})] + [OnReply(t)] + [OnDropCopyTimer(stale, false, false)]
  }

  /** The phase has asked and waits, and no stale order does. */
  ghost predicate Asking(c: Config, d: DropCopy, p: Phase) {
    && Tracked(c, d) && Served(d) && d.phase == p && p.Waiting()
    && TopicOf(p) in d.shared.pending && TopicOf(p) !in d.shared.answered
  }

  lemma WaitsOnlyIfWanted(c: Config, d: DropCopy)
    requires Tracked(c, d) && d.phase == GetTrades
    ensures c.WantsTrades()
  {
    hide Subsequence, Entries;
  }

  lemma Sent(c: Config, s: State, p: Phase)
    requires p != GetStaleOrders && Asking(c, s.drop, p)
    ensures var t := Step(c, s, OnOrderEntryTimer({TopicOf(p)}, {})).drop;
            && Tracked(c, t) && Served(t) && t.phase == p && TopicOf(p) in t.shared.outstanding
            && t.shared.waiting == s.drop.shared.waiting && t.shared.inFlight == s.drop.shared.inFlight
  {
    hide OrderEntryTimer, Tracked, Served;
    var topic := TopicOf(p);
    if p == GetTrades {
      WaitsOnlyIfWanted(c, s.drop);
    }
    TimerSends(c, Entry(s), {topic}, {});
    StepIsTracked(c, s, OnOrderEntryTimer({topic}, {}));
    StepIsServed(c, s, OnOrderEntryTimer({topic}, {}));
  }

  lemma SentAndAnswered(c: Config, s: State, p: Phase)
    requires p != GetStaleOrders && Asking(c, s.drop, p)
    ensures var t := Step(c, Step(c, s, OnOrderEntryTimer({TopicOf(p)}, {})), OnReply(TopicOf(p))).drop;
            && Tracked(c, t) && Served(t) && t.phase == p && TopicOf(p) in t.shared.answered
            && t.shared.waiting == s.drop.shared.waiting && t.shared.inFlight == s.drop.shared.inFlight
  {
    hide OrderEntryTimer, Tracked, Served;
    var t := Step(c, s, OnOrderEntryTimer({TopicOf(p)}, {}));
    Sent(c, s, p);
    StepIsTracked(c, t, OnReply(TopicOf(p)));
    StepIsServed(c, t, OnReply(TopicOf(p)));
  }

  /** Entering one of the next two phases asks for its topic; entering the stale orders does if there are any. */
  lemma EntersAsking(c: Config, d: DropCopy, p: Phase)
    requires p in {GetPositions, GetOpenOrders} || (p == GetStaleOrders && d.shared.waiting != {})
    ensures var e := Enter(c, d, p);
            && e.phase == p && e.status == Downloading
            && TopicOf(p) in e.shared.pending && TopicOf(p) !in e.shared.answered
            && e.shared.waiting == d.shared.waiting && e.shared.inFlight == d.shared.inFlight
  {
    Unfold(c, d, p);
    hide Enter;
  }

  lemma ServeAdvances(c: Config, s: State, p: Phase, stale: set<Key>)
    requires p in {GetBalances, GetPositions, GetOpenOrders} && Asking(c, s.drop, p)
    requires p == GetOpenOrders ==> s.drop.shared.waiting + stale != {}
    ensures var t := Run(c, s, Serve(TopicOf(p), stale)).drop;
            && Asking(c, t, NextPhase(p)) && t.shared.inFlight == s.drop.shared.inFlight
            && t.shared.waiting == s.drop.shared.waiting + if p == GetOpenOrders then stale else {}
  {
    var e1, e2, e3 := OnOrderEntryTimer({TopicOf(p)}, {}), OnReply(TopicOf(p)), OnDropCopyTimer(stale, false, false);
    var s2 := Step(c, Step(c, s, e1), e2);
    RunOfOne(c, s, e1);
    RunConcat(c, s, [e1], [e2]);
    RunOfOne(c, Step(c, s, e1), e2);
    RunConcat(c, s, [e1] + [e2], [e3]);
    RunOfOne(c, s2, e3);
    SentAndAnswered(c, s, p);
    StepIsTracked(c, s2, e3);
    StepIsServed(c, s2, e3);
    if p == GetOpenOrders {
      EntersAsking(c, s2.drop.(shared := Discover(s2.drop.shared, stale)), GetStaleOrders);
    } else {
      EntersAsking(c, s2.drop, NextPhase(p));
    }
    hide Run, Enter, Tracked, Served, OrderEntryTimer, Reply;
  }

  /** Up to the stale orders, of which one is found. */
  function UpToStaleOrders(key: Key): seq<Event> {
    Serve(Balances, {}) + Serve(Positions, {}) + Serve(OpenOrders, {key})
  }

  lemma ReachesStaleOrders(c: Config, s: State, key: Key)
    requires Asking(c, s.drop, GetBalances) && s.drop.shared.waiting == {}
    ensures var t := Run(c, s, UpToStaleOrders(key)).drop;
            && Asking(c, t, GetStaleOrders) && t.shared.waiting == {key} && t.shared.inFlight == s.drop.shared.inFlight
  {
    hide Run, Serve, Asking;
    var a, b, d := Serve(Balances, {}), Serve(Positions, {}), Serve(OpenOrders, {key});
    RunConcat(c, s, a, b);
    RunConcat(c, s, a + b, d);
    ServeAdvances(c, s, GetBalances, {});
    ServeAdvances(c, Run(c, s, a), GetPositions, {});
    ServeAdvances(c, Run(c, s, a + b), GetOpenOrders, {key});
  }

  lemma ConnectingAsks(c: Config, s: State)
    requires Tracked(c, s.drop) && Served(s.drop)
    ensures var t := Step(c, s, SocketReady).drop;
            && Asking(c, t, GetBalances) && t.shared.waiting == s.drop.shared.waiting
            && t.shared.inFlight == s.drop.shared.inFlight
            && t.shared.outstanding == s.drop.shared.outstanding
  {
    StepIsTracked(c, s, SocketReady);
    StepIsServed(c, s, SocketReady);
    Unfold(c, s.drop.(shared := s.drop.shared.(trail := [])), GetBalances);
    hide Enter, Tracked, Served;
  }

  /** A connection is lost between asking for the balances and their answer; the next one asks again. */
  const RECONNECTING: seq<Event> :=
    [SocketReady] + [OnOrderEntryTimer({Balances}, {})] + [SocketDisconnected] + [SocketReady]

  /**
   The reply to the first request ends the first phase of the second connection: the download goes on
   to the positions while its own request for the balances is still waiting to be sent.
   */
  lemma EarlyBalances(c: Config)
    ensures var s := Run(c, INITIAL, RECONNECTING);
            var u := Step(c, Step(c, s, OnReply(Balances)), OnDropCopyTimer({}, false, false)).drop;
            && s.drop.phase == GetBalances && Balances in s.drop.shared.pending && Balances !in s.drop.shared.answered
            && AnsweredUnsent(c, s, [OnReply(Balances)])
            && u.phase == GetPositions && Balances in u.shared.pending
  {
    EveryPhaseIsServed(c, []);
    assert Run(c, INITIAL, []) == INITIAL;
    hide Run, OrderEntryTimer, Tracked, Served, Begin, DropCopyTimer, Reply;
    var ready, timer, lost := SocketReady, OnOrderEntryTimer({Balances}, {}), SocketDisconnected;
    var s1 := Step(c, INITIAL, ready);
    var s2 := Step(c, s1, timer);
    var s3 := Step(c, s2, lost);
    var s4 := Step(c, s3, ready);
    RunOfOne(c, INITIAL, ready);
    RunConcat(c, INITIAL, [ready], [timer]);
    RunOfOne(c, s1, timer);
    RunConcat(c, INITIAL, [ready] + [timer], [lost]);
    RunOfOne(c, s2, lost);
    RunConcat(c, INITIAL, [ready] + [timer] + [lost], [ready]);
    RunOfOne(c, s3, ready);
    ConnectingAsks(c, INITIAL);
    Sent(c, s1, GetBalances);
    StepIsTracked(c, s2, lost);
    StepIsServed(c, s2, lost);
    ConnectingAsks(c, s3);
    BalancesPassOn(c, s4);
  }

  lemma BalancesPassOn(c: Config, s: State)
    requires Asking(c, s.drop, GetBalances) && Balances in s.drop.shared.outstanding
    ensures AnsweredUnsent(c, s, [OnReply(Balances)])
    ensures var u := Step(c, Step(c, s, OnReply(Balances)), OnDropCopyTimer({}, false, false)).drop;
            u.phase == GetPositions && Balances in u.shared.pending
  {
    RunOfOne(c, s, OnReply(Balances));
    var t := Step(c, s, OnReply(Balances)).drop;
    Unfold(c, t, GetPositions);
    hide Run, Tracked, Served, Enter;
  }

  /** A first connection, with one stale order, whose batch is sent; the order is found or not. */
  function FirstChase(key: Key, found: bool): seq<Event> {
    [SocketReady] + UpToStaleOrders(key) + [OnOrderEntryTimer({StaleOrders}, if found then {key} else {})]
  }

  lemma Chases(c: Config, s: State, key: Key, found: bool)
    requires Asking(c, s.drop, GetStaleOrders) && s.drop.shared.waiting == {key} && s.drop.shared.inFlight == multiset{}
    ensures Chased(c, Step(c, s, OnOrderEntryTimer({StaleOrders}, if found then {key} else {})).drop, key, found)
  {
    hide OrderEntryTimer, Tracked, Served;
    var e := OnOrderEntryTimer({StaleOrders}, if found then {key} else {});
    StepIsTracked(c, s, e);
    StepIsServed(c, s, e);
    TimerSends(c, Entry(s), e.granted, e.known);
    FoundOrders(key, found);
  }

  lemma FoundOrders(key: Key, found: bool)
    ensures multiset{} + multiset({key} * if found then {key} else {}) == if found then multiset{key} else multiset{}
  {
    assert {key} * {key} == {key} && {key} * {} == {};
  }

  ghost predicate Chased(c: Config, d: DropCopy, key: Key, found: bool) {
    && Tracked(c, d) && Served(d) && d.phase == GetStaleOrders && StaleOrders !in d.shared.answered
    && StaleOrders !in d.shared.pending && d.shared.waiting == {}
    && d.shared.inFlight == if found then multiset{key} else multiset{}
  }

  lemma AfterFirstChase(c: Config, key: Key, found: bool)
    ensures Chased(c, Run(c, INITIAL, FirstChase(key, found)).drop, key, found)
  {
    EveryPhaseIsServed(c, []);
    assert Run(c, INITIAL, []) == INITIAL;
    hide Run, UpToStaleOrders, Asking, Chased, Step;
    var connected := Run(c, INITIAL, [SocketReady]);
    var asked := Run(c, INITIAL, [SocketReady] + UpToStaleOrders(key));
    var e := OnOrderEntryTimer({StaleOrders}, if found then {key} else {});
    RunOfOne(c, INITIAL, SocketReady);
    ConnectingAsks(c, INITIAL);
    ReachesStaleOrders(c, connected, key);
    RunConcat(c, INITIAL, [SocketReady], UpToStaleOrders(key));
    RunConcat(c, INITIAL, [SocketReady] + UpToStaleOrders(key), [e]);
    RunOfOne(c, asked, e);
    Chases(c, asked, key, found);
  }

  /** One stale order that is not found strands a first download. */
  lemma StrandedDownload(c: Config, key: Key)
    ensures Stuck(Run(c, INITIAL, FirstChase(key, false)).drop)
  {
    AfterFirstChase(c, key, false);
  }

  /** The same with an order that is found, then a new connection that finds another stale order. */
  function SecondChase(first: Key, second: Key): seq<Event> {
    FirstChase(first, true) + [SocketReady] + UpToStaleOrders(second)
  }

  /**
   The first order's reply ends the step of the second connection: the second order has not been
   queried, is still waiting, and the download goes on.
   */
  lemma EarlyAnswerHappens(c: Config, first: Key, second: Key)
    ensures var s := Run(c, INITIAL, SecondChase(first, second));
            var u := Step(c, Step(c, s, OnOrderReply(first)), OnDropCopyTimer({}, false, false)).drop;
            && s.drop.phase == GetStaleOrders && u.phase.Index() > s.drop.phase.Index() && second in u.shared.waiting
  {
    hide Run, FirstChase, UpToStaleOrders, Step;
    var chased := Run(c, INITIAL, FirstChase(first, true));
    var connected := Run(c, INITIAL, FirstChase(first, true) + [SocketReady]);
    var s := Run(c, INITIAL, SecondChase(first, second));
    AfterFirstChase(c, first, true);
    RunConcat(c, INITIAL, FirstChase(first, true), [SocketReady]);
    RunOfOne(c, chased, SocketReady);
    ConnectingAsks(c, chased);
    RunConcat(c, INITIAL, FirstChase(first, true) + [SocketReady], UpToStaleOrders(second));
    ReachesStaleOrders(c, connected, second);
    StaleOrdersAreConserved(c, SecondChase(first, second));
    Answers(c, s, first, second);
  }

  lemma Answers(c: Config, s: State, first: Key, second: Key)
    requires Asking(c, s.drop, GetStaleOrders) && Balanced(Entry(s))
    requires s.drop.shared.inFlight == multiset{first} && s.drop.shared.waiting == {second}
    ensures var u := Step(c, Step(c, s, OnOrderReply(first)), OnDropCopyTimer({}, false, false)).drop;
            u.phase.Index() > GetStaleOrders.Index() && second in u.shared.waiting
  {
    var t := Step(c, s, OnOrderReply(first));
    EarlyAnswer(c, s, first, {}, false, false);
    StepIsTracked(c, s, OnOrderReply(first));
    StepIsServed(c, s, OnOrderReply(first));
    StepIsForward(c, t, OnDropCopyTimer({}, false, false));
    WaitingStays(c, t.drop);
    hide Tracked, Served, Balanced, DropCopyTimer;
  }

  lemma WaitingStays(c: Config, d: DropCopy)
    ensures DropCopyTimer(c, d, {}, false, false).shared.waiting == d.shared.waiting
  {
    if d.phase.Waiting() && TopicOf(d.phase) in d.shared.answered {
      if d.phase == GetOpenOrders {
        EnterKeepsBooks(c, d.(shared := Discover(d.shared, {})), GetStaleOrders);
      } else {
        EnterKeepsBooks(c, d, NextPhase(d.phase));
      }
    }
    hide Enter;
  }
}
