/** How the start-up download ends READY: it still can from every state that is not stranded,
    and a run in which it does. */
module DownloadReady {
  import opened Download
  import opened StaleOrders
  import opened DownloadOrder
  import opened DownloadProgress
  import opened DownloadStranding

  // one step further

  /** The event waited for, where stale orders are found when they are queried, strands nothing and adds no order. */
  lemma NextHelp(c: Config, s: State) returns (e: Event)
    requires Tracked(c, s.drop) && Served(s.drop) && Balanced(Entry(s)) && s.drop.phase.Waiting() && !Stuck(s.drop)
    ensures Helpful(s, e) && !Reconnects(e) && !Stuck(Step(c, s, e).drop) && Backlog(Step(c, s, e)) <= Backlog(s)
  {
    hide Step, Balanced, Served, Backlog, Strands;
    var d, t := s.drop.shared, TopicOf(s.drop.phase);
    if t in d.answered {
      e := OnDropCopyTimer({}, false, false);
      TimerAddsNothing(c, s);
    } else if t in d.pending {
      e := OnOrderEntryTimer({t}, d.waiting);
      QueryAddsNothing(c, s, t);
    } else {
      HelpIsPossibleUnlessStuck(s);
      e :| Helpful(s, e);
      ReplyAddsNothing(c, s, e);
    }
    FoundStrandsNothing(c, s, e);
    StrandsExactly(c, s, e);
  }

  lemma FoundStrandsNothing(c: Config, s: State, e: Event)
    requires Tracked(c, s.drop) && (e.OnOrderEntryTimer? ==> e.known == s.drop.shared.waiting)
    ensures !Strands(s, e)
  {
    assert s.drop.shared.waiting * s.drop.shared.waiting == s.drop.shared.waiting;
  }

  lemma TimerAddsNothing(c: Config, s: State)
    ensures Backlog(Step(c, s, OnDropCopyTimer({}, false, false))) == Backlog(s)
  {
    var d := s.drop;
    if d.phase.Waiting() && TopicOf(d.phase) in d.shared.answered {
      if d.phase == GetOpenOrders {
        EnterKeepsBooks(c, d.(shared := Discover(d.shared, {})), GetStaleOrders);
      } else {
        EnterKeepsBooks(c, d, NextPhase(d.phase));
      }
    }
    hide Enter;
  }

  lemma QueryAddsNothing(c: Config, s: State, t: Topic)
    ensures Backlog(Step(c, s, OnOrderEntryTimer({t}, s.drop.shared.waiting))) == Backlog(s)
  {
    var waiting := s.drop.shared.waiting;
    TimerSends(c, Entry(s), {t}, waiting);
    hide OrderEntryTimer;
    assert waiting * waiting == waiting;
  }

  lemma ReplyAddsNothing(c: Config, s: State, e: Event)
    requires e.OnReply? || (e.OnOrderReply? && e.key in s.drop.shared.inFlight)
    ensures Backlog(Step(c, s, e)) <= Backlog(s)
  {
    if e.OnOrderReply? {
      assert |s.drop.shared.inFlight - multiset{e.key}| == |s.drop.shared.inFlight| - 1;
    }
  }

  // to the end

  /** A continuation on the same connection that ends READY. */
  ghost predicate Completes(c: Config, s: State, events: seq<Event>) {
    (forall i :: 0 <= i < |events| ==> !Reconnects(events[i])) && Run(c, s, events).drop.status == Ready
  }

  /** From a state that is not stranded the phases can be helped as often as one likes. */
  lemma {:induction false} FairRunsExist(c: Config, s: State, m: nat, n: nat) returns (pieces: seq<seq<Event>>)
    requires Tracked(c, s.drop) && Served(s.drop) && Balanced(Entry(s)) && s.drop.phase != Undefined
    requires !Stuck(s.drop) && Backlog(s) <= m
    ensures |pieces| == n && Fair(c, s, pieces, m)
    ensures forall i :: 0 <= i < |Flatten(pieces)| ==> !Reconnects(Flatten(pieces)[i])
    decreases n
  {
    hide Run, Step, Tracked, Served, Balanced, Backlog, Stuck, Helpful, BoundedBacklog, HelpfulEvents;
    if n == 0 {
      pieces := [];
    } else if s.drop.phase == Done {
      var rest := FairRunsExist(c, s, m, n - 1);
      NoEvent(c, s, m);
      pieces := [[]] + rest;
    } else {
      var e := NextHelp(c, s);
      RankShrinks(c, s, e, m);
      StepIsTracked(c, s, e);
      StepIsServed(c, s, e);
      StepKeepsBooks(c, s, e);
      StepIsForward(c, s, e);
      var rest := FairRunsExist(c, Step(c, s, e), m, n - 1);
      OneEvent(c, s, e, m);
      pieces := [[e]] + rest;
    }
  }

  lemma NoEvent(c: Config, s: State, m: nat)
    requires Tracked(c, s.drop) && s.drop.phase == Done && Backlog(s) <= m
    ensures Run(c, s, []) == s && BoundedBacklog(c, s, [], m) && s.drop.status == Ready
  {
    hide Subsequence, Entries, Backlog;
  }

  lemma OneEvent(c: Config, s: State, e: Event, m: nat)
    requires Helpful(s, e) && Backlog(s) <= m && Backlog(Step(c, s, e)) <= m
    ensures Run(c, s, [e]) == Step(c, s, e) && BoundedBacklog(c, s, [e], m) && HelpfulEvents(c, s, [e]) == 1
  {
    hide Step, Helpful, Backlog;
    RunOfOne(c, s, e);
    assert [e][..0] == [] && [e][..1] == [e];
    assert HelpfulEvents(c, s, []) == 0 && Run(c, s, []) == s;
  }

  lemma CanComplete(c: Config, s: State) returns (events: seq<Event>)
    requires Tracked(c, s.drop) && Served(s.drop) && Balanced(Entry(s)) && s.drop.phase != Undefined && !Stuck(s.drop)
    ensures Completes(c, s, events)
  {
    hide Run, Tracked, Served, Balanced, Backlog, Stuck, Rank, Fair, Flatten;
    var m := Backlog(s);
    var pieces := FairRunsExist(c, s, m, Rank(s.drop, m));
    DownloadCompletes(c, s, pieces, m);
    events := Flatten(pieces);
  }

  lemma StuckIsNotReady(c: Config, s: State, events: seq<Event>)
    requires Tracked(c, s.drop) && Served(s.drop) && Stuck(s.drop)
    ensures !Completes(c, s, events)
  {
    hide Run, Stuck, Served, Tracked;
    if forall i :: 0 <= i < |events| ==> !Reconnects(events[i]) {
      StuckForever(c, s, events);
    }
  }

  /**
   When a download can still complete.  After any run that leaves the stream connected there is a
   continuation on the same connection that ends READY, if and only if the download has not been
   stranded on it.
   */
  lemma ReadyUnlessStranded(c: Config, events: seq<Event>)
    requires Run(c, INITIAL, events).drop.phase != Undefined
    ensures (exists more :: Completes(c, Run(c, INITIAL, events), more))
            <==> !exists n :: 0 <= n < |events| && StrandedAt(c, events, n)
  {
    hide Run, Stuck, StrandedAt, Served, Tracked, Balanced, Completes, Backlog;
    var s := Run(c, INITIAL, events);
    StrandedRuns(c, events);
    EveryPhaseIsServed(c, events);
    StaleOrdersAreConserved(c, events);
    if Stuck(s.drop) {
      forall more ensures !Completes(c, s, more) {
        StuckIsNotReady(c, s, more);
      }
    } else {
      var more := CanComplete(c, s);
    }
  }

  // a whole download

  /** Without stale orders: three requests, each answered, and the trades if they are wanted. */
  function WholeDownload(c: Config): seq<Event> {
    [SocketReady] + Serve(Balances, {}) + Serve(Positions, {}) + Serve(OpenOrders, {})
    + if c.WantsTrades() then Serve(Trades, {}) else []
  }

  /** A phase is served without stale orders: answered, and left at the next timer. */
  lemma ServesPhase(c: Config, s: State, p: Phase)
    requires p != GetStaleOrders && Asking(c, s.drop, p) && s.drop.shared.waiting == {}
    ensures var t := Step(c, Step(c, s, OnOrderEntryTimer({TopicOf(p)}, {})), OnReply(TopicOf(p)));
            && Run(c, s, Serve(TopicOf(p), {})) == Step(c, t, OnDropCopyTimer({}, false, false))
            && Tracked(c, t.drop) && Served(t.drop) && t.drop.phase == p && TopicOf(p) in t.drop.shared.answered
            && t.drop.shared.waiting == {}
  {
    hide Step, Run, Tracked, Served;
    var e1, e2, e3 := OnOrderEntryTimer({TopicOf(p)}, {}), OnReply(TopicOf(p)), OnDropCopyTimer({}, false, false);
    RunOfOne(c, s, e1);
    RunConcat(c, s, [e1], [e2]);
    RunOfOne(c, Step(c, s, e1), e2);
    RunConcat(c, s, [e1] + [e2], [e3]);
    RunOfOne(c, Step(c, Step(c, s, e1), e2), e3);
    SentAndAnswered(c, s, p);
  }

  /** The open orders are the last phase to wait for, except for the trades. */
  lemma AfterOpenOrders(c: Config, s: State)
    requires Asking(c, s.drop, GetOpenOrders) && s.drop.shared.waiting == {}
    ensures var t := Run(c, s, Serve(OpenOrders, {})).drop;
            if c.WantsTrades() then Asking(c, t, GetTrades) && t.shared.waiting == {} else t.status == Ready
  {
    hide Run, Serve, Step, Tracked, Served;
    ServesPhase(c, s, GetOpenOrders);
    var u := Step(c, Step(c, s, OnOrderEntryTimer({OpenOrders}, {})), OnReply(OpenOrders));
    StepIsTracked(c, u, OnDropCopyTimer({}, false, false));
    StepIsServed(c, u, OnDropCopyTimer({}, false, false));
    LeavesOpenOrders(c, u);
  }

  lemma LeavesOpenOrders(c: Config, s: State)
    requires s.drop.phase == GetOpenOrders && OpenOrders in s.drop.shared.answered && s.drop.shared.waiting == {}
    ensures var t := Step(c, s, OnDropCopyTimer({}, false, false)).drop;
            if c.WantsTrades() then
              && t.phase == GetTrades && Trades in t.shared.pending && Trades !in t.shared.answered
              && t.shared.waiting == {}
            else t.status == Ready
  {
    hide Enter;
    EntersTheEnd(c, s.drop.(shared := Discover(s.drop.shared, {})));
  }

  lemma EntersTheEnd(c: Config, d: DropCopy)
    requires d.shared.waiting == {}
    ensures var e := Enter(c, d, GetStaleOrders);
            if c.WantsTrades() then
              && e.phase == GetTrades && e.status == Downloading
              && Trades in e.shared.pending && Trades !in e.shared.answered
              && e.shared.waiting == {}
            else e.status == Ready
  {
    hide Enter;
    Unfold(c, d, GetStaleOrders);
    var (e, _) := Callback(c, Mark(d, GetStaleOrders), GetStaleOrders);
    Unfold(c, e, GetTrades);
    var (f, _) := Callback(c, Mark(e, GetTrades), GetTrades);
    Unfold(c, f, Done);
  }

  /**
   Without stale orders the open orders are the last thing a download waits for if and only if no trades
   are to be downloaded: because none are asked for, or because there are no symbols to ask for.
   */
  lemma TradesExactly(c: Config)
    ensures var served := [SocketReady] + Serve(Balances, {}) + Serve(Positions, {}) + Serve(OpenOrders, {});
            Run(c, INITIAL, served).drop.status == Ready <==> c.lookback == 0 || c.symbols == 0
  {
    AfterPositions(c);
    var ab := [SocketReady] + Serve(Balances, {}) + Serve(Positions, {});
    RunConcat(c, INITIAL, ab, Serve(OpenOrders, {}));
    AfterOpenOrders(c, Run(c, INITIAL, ab));
    hide Run, Serve;
    AskingIsNotReady(c, Run(c, INITIAL, ab + Serve(OpenOrders, {})).drop);
  }

  lemma AskingIsNotReady(c: Config, d: DropCopy)
    ensures Asking(c, d, GetTrades) ==> d.status != Ready
  {
    hide Subsequence, Entries, Served;
  }

  lemma AfterTrades(c: Config, s: State)
    requires Asking(c, s.drop, GetTrades) && s.drop.shared.waiting == {}
    ensures Run(c, s, Serve(Trades, {})).drop.status == Ready
  {
    hide Run, Serve, Step, Tracked, Served;
    ServesPhase(c, s, GetTrades);
    LeavesTrades(c, Step(c, Step(c, s, OnOrderEntryTimer({Trades}, {})), OnReply(Trades)));
  }

  lemma LeavesTrades(c: Config, s: State)
    requires s.drop.phase == GetTrades && Trades in s.drop.shared.answered
    ensures Step(c, s, OnDropCopyTimer({}, false, false)).drop.status == Ready
  {
    hide Enter;
    Unfold(c, s.drop, Done);
  }

  lemma AfterPositions(c: Config)
    ensures var s := Run(c, INITIAL, [SocketReady] + Serve(Balances, {}) + Serve(Positions, {}));
            Asking(c, s.drop, GetOpenOrders) && s.drop.shared.waiting == {}
  {
    EveryPhaseIsServed(c, []);
    RunNothing(c, INITIAL);
    ConnectingAsks(c, INITIAL);
    hide Run, Serve, Asking, Step;
    var a, b := Serve(Balances, {}), Serve(Positions, {});
    var connected := Run(c, INITIAL, [SocketReady]);
    RunOfOne(c, INITIAL, SocketReady);
    RunConcat(c, INITIAL, [SocketReady], a);
    RunConcat(c, INITIAL, [SocketReady] + a, b);
    ServeAdvances(c, connected, GetBalances, {});
    ServeAdvances(c, Run(c, connected, a), GetPositions, {});
  }

  /** A first download without stale orders ends READY, whether or not trades are downloaded. */
  lemma WholeDownloadIsReady(c: Config)
    ensures Run(c, INITIAL, WholeDownload(c)).drop.status == Ready
  {
    hide Run, Serve, Asking;
    var ab := [SocketReady] + Serve(Balances, {}) + Serve(Positions, {});
    var s := Run(c, INITIAL, ab);
    AfterPositions(c);
    RunConcat(c, INITIAL, ab, Serve(OpenOrders, {}));
    AfterOpenOrders(c, s);
    if c.WantsTrades() {
      RunConcat(c, INITIAL, ab + Serve(OpenOrders, {}), Serve(Trades, {}));
      AfterTrades(c, Run(c, INITIAL, ab + Serve(OpenOrders, {})));
    } else {
      assert WholeDownload(c) == ab + Serve(OpenOrders, {});
    }
  }
}
