/** The books of the stale-order chase: nothing is lost, and the counter is the number of queries in flight. */
module StaleOrders {
  import opened Download

  ghost predicate Balanced(o: OrderEntry) {
    && o.counter == |o.shared.inFlight| && !o.underflow
    && o.shared.discovered == multiset(o.shared.waiting) + o.shared.inFlight + o.shared.queried + o.shared.notFound
  }

  predicate SameBooks(s: Shared, t: Shared) {
    s.waiting == t.waiting && s.outstanding == t.outstanding && s.inFlight == t.inFlight
    && s.discovered == t.discovered && s.queried == t.queried && s.notFound == t.notFound
  }

  lemma {:induction false} EnterKeepsBooks(c: Config, d: DropCopy, p: Phase)
    ensures SameBooks(d.shared, Enter(c, d, p).shared)
    decreases 6 - p.Index()
  {
    var (e, wait) := Callback(c, Mark(d, p), p);
    if wait == 1 || !p.Waiting() {
    } else {
      EnterKeepsBooks(c, e, NextPhase(p));
    }
  }

  lemma DiscoverKeepsBooks(o: OrderEntry, stale: set<Key>)
    requires Balanced(o)
    ensures Balanced(o.(shared := Discover(o.shared, stale)))
  {
    SplitSet(o.shared.waiting, stale);
  }

  lemma SplitSet(s: set<Key>, t: set<Key>)
    ensures multiset(s + t) == multiset(s) + multiset(t - s)
    ensures multiset(s) == multiset(s * t) + multiset(s - t)
  {
  }

  lemma ChaseKeepsBooks(o: OrderEntry, granted: set<Topic>, known: set<Key>)
    requires Balanced(o)
    ensures Balanced(Chase(o, granted, known))
  {
    SplitSet(o.shared.waiting, known);
    assert multiset(o.shared.waiting * known) + multiset(o.shared.waiting - known) == multiset(o.shared.waiting);
  }

  lemma OrderReplyKeepsBooks(o: OrderEntry, key: Key)
    requires Balanced(o)
    ensures Balanced(OrderReply(o, key))
  {
  }

  lemma DropCopyTimerKeepsBooks(c: Config, o: OrderEntry, d: DropCopy, stale: set<Key>,
                                balanceDue: bool, staleDue: bool)
    requires Balanced(o) && o.shared == d.shared
    ensures Balanced(o.(shared := DropCopyTimer(c, d, stale, balanceDue, staleDue).shared))
  {
    hide Enter;
    var d1 := CheckQueue(c, d, stale);
    DiscoverKeepsBooks(o, stale);
    if d.phase.Waiting() && TopicOf(d.phase) in d.shared.answered {
      if d.phase == GetOpenOrders {
        EnterKeepsBooks(c, d.(shared := Discover(d.shared, stale)), GetStaleOrders);
      } else {
        EnterKeepsBooks(c, d, NextPhase(d.phase));
      }
    }
    DiscoverKeepsBooks(o.(shared := d1.shared), stale);
    DiscoverKeepsBooks(o.(shared := RefreshBalance(d1, true).shared), stale);
  }

  lemma StepKeepsBooks(c: Config, s: State, e: Event)
    requires Balanced(Entry(s))
    ensures Balanced(Entry(Step(c, s, e)))
  {
    match e {
      case SocketReady => EnterKeepsBooks(c, s.drop.(shared := s.drop.shared.(trail := [])), GetBalances);
      case SocketDisconnected =>
      case OnDropCopyTimer(stale, balanceDue, staleDue) =>
        hide DropCopyTimer;
        DropCopyTimerKeepsBooks(c, Entry(s), s.drop, stale, balanceDue, staleDue);
      case OnOrderEntryTimer(granted, known) =>
        hide Chase, Balanced;
        OrderEntryTimerKeepsBooks(c, Entry(s), granted, known);
      case OnReply(topic) =>
      case OnOrderReply(key) => OrderReplyKeepsBooks(Entry(s), key);
    }
  }

  lemma OrderEntryTimerKeepsBooks(c: Config, o: OrderEntry, granted: set<Topic>, known: set<Key>)
    requires Balanced(o)
    ensures Balanced(OrderEntryTimer(c, o, granted, known))
  {
    hide Chase;
    var before := o.(shared := Send(Send(Send(o.shared, granted, Balances, 1), granted, Positions, 1),
                                    granted, OpenOrders, 1));
    ChaseKeepsBooks(before, granted, known);
  }

  /**
   Conservation of stale orders, for every interleaving of connections, timers and replies.  The
   counter always equals the number of order queries in flight, it never underflows, and every stale
   order discovered is waiting, in flight, answered or not found -- exactly one of these, as often as
   it was discovered.
   */
  lemma {:induction false} StaleOrdersAreConserved(c: Config, events: seq<Event>)
    ensures Balanced(Entry(Run(c, INITIAL, events)))
  {
    if events == [] {
    } else {
      var n := |events| - 1;
      StaleOrdersAreConserved(c, events[..n]);
      StepKeepsBooks(c, Run(c, INITIAL, events[..n]), events[n]);
    }
  }

  /** In every reachable state the counter is positive while a query is in flight, so a reply never finds it at zero. */
  lemma NoUnderflow(c: Config, events: seq<Event>, key: Key)
    ensures var s := Run(c, INITIAL, events);
            && s.counter == |s.drop.shared.inFlight|
            && (key in s.drop.shared.inFlight ==> s.counter > 0)
  {
    StaleOrdersAreConserved(c, events);
    hide Run;
    var inFlight := Run(c, INITIAL, events).drop.shared.inFlight;
    if key in inFlight {
      assert |inFlight - multiset{key}| == |inFlight| - 1;
    }
  }

  // the requests

  /** The requests of a topic a run has sent: one whenever it was pending and granted; for trades, one per symbol. */
  function Requested(c: Config, events: seq<Event>, t: Topic): nat {
    if events == [] then 0
    else
      var n := |events| - 1;
      var e := events[n];
      var sent := e.OnOrderEntryTimer? && t in e.granted && t in Run(c, INITIAL, events[..n]).drop.shared.pending;
      Requested(c, events[..n], t) + if !sent then 0 else if t == Trades then c.symbols else 1
  }

  /** The replies to a topic's requests; there is none without a request. */
  function Replied(c: Config, events: seq<Event>, t: Topic): nat {
    if events == [] then 0
    else
      var n := |events| - 1;
      Replied(c, events[..n], t)
      + if events[n] == OnReply(t) && t in Run(c, INITIAL, events[..n]).drop.shared.outstanding then 1 else 0
  }

  lemma OutstandingStep(c: Config, s: State, e: Event, t: Topic)
    requires t != StaleOrders
    ensures var before, after := s.drop.shared, Step(c, s, e).drop.shared;
            after.outstanding[t] ==
            before.outstanding[t]
            + (if !(e.OnOrderEntryTimer? && t in e.granted && t in before.pending) then 0
               else if t == Trades then c.symbols else 1)
            - (if e == OnReply(t) && t in before.outstanding then 1 else 0)
  {
    match e {
      case SocketReady =>
        hide Enter;
        EnterKeepsBooks(c, s.drop.(shared := s.drop.shared.(trail := [])), GetBalances);
      case SocketDisconnected =>
      case OnDropCopyTimer(stale, balanceDue, staleDue) =>
        hide DropCopyTimer;
        TimerKeepsOutstanding(c, s.drop, stale, balanceDue, staleDue);
      case OnOrderEntryTimer(granted, known) =>
        hide OrderEntryTimer;
        TimerSends(c, Entry(s), granted, known);
      case OnReply(topic) =>
        hide Reply;
        ReplyIsTaken(s.drop.shared, topic, t);
      case OnOrderReply(key) =>
        hide OrderReply;
        OrderReplyKeepsOutstanding(Entry(s), key);
    }
  }

  lemma ReplyIsTaken(s: Shared, topic: Topic, t: Topic)
    ensures Reply(s, topic).outstanding[t]
         == s.outstanding[t] - if topic == t && t in s.outstanding then 1 else 0
  {
  }

  lemma OrderReplyKeepsOutstanding(o: OrderEntry, key: Key)
    ensures OrderReply(o, key).shared.outstanding == o.shared.outstanding
  {
  }

  lemma TimerKeepsOutstanding(c: Config, d: DropCopy, stale: set<Key>, balanceDue: bool, staleDue: bool)
    ensures DropCopyTimer(c, d, stale, balanceDue, staleDue).shared.outstanding == d.shared.outstanding
  {
    if d.phase.Waiting() && TopicOf(d.phase) in d.shared.answered {
      if d.phase == GetOpenOrders {
        EnterKeepsBooks(c, d.(shared := Discover(d.shared, stale)), GetStaleOrders);
      } else {
        EnterKeepsBooks(c, d, NextPhase(d.phase));
      }
    }
    hide Enter;
  }

  /** Over every run the requests of a topic are those answered and those outstanding. */
  lemma {:induction false} RequestsAreConserved(c: Config, events: seq<Event>, t: Topic)
    requires t != StaleOrders
    ensures Run(c, INITIAL, events).drop.shared.outstanding[t] + Replied(c, events, t) == Requested(c, events, t)
  {
    hide Step;
    if events == [] {
    } else {
      var n := |events| - 1;
      RequestsAreConserved(c, events[..n], t);
      OutstandingStep(c, Run(c, INITIAL, events[..n]), events[n], t);
    }
  }

  // the last reply of a batch

  /** An order reply commits the batch exactly when it answers the last query in flight. */
  lemma CommitsOnLastReply(c: Config, s: State, key: Key)
    requires Balanced(Entry(s)) && key in s.drop.shared.inFlight
    ensures var before, after := s.drop.shared, Step(c, s, OnOrderReply(key)).drop.shared;
            && after.inFlight == before.inFlight - multiset{key}
            && after.answered == before.answered + (if after.inFlight == multiset{} then {StaleOrders} else {})
            && (after.trail != before.trail <==> after.inFlight == multiset{})
  {
    assert |s.drop.shared.inFlight - multiset{key}| == |s.drop.shared.inFlight| - 1;
  }

  /** What a timer asks for while the stream is ready. */
  predicate Polls(s: Shared, stale: set<Key>, balanceDue: bool, staleDue: bool, topic: Topic) {
    || (topic == Balances && balanceDue)
    || (topic == StaleOrders && staleDue && exists key :: key in stale && key !in s.waiting)
  }

  lemma CheckStaleOrdersAsks(d: DropCopy, due: bool, stale: set<Key>, topic: Topic)
    ensures var s, r := d.shared, CheckStaleOrders(d, due, stale).shared;
            var asks := topic == StaleOrders && due && exists key :: key in stale && key !in s.waiting;
            && (topic in r.pending <==> topic in s.pending || asks)
            && (topic in r.answered <==> topic in s.answered && !asks)
            && r.waiting == s.waiting + if due then stale else {}
  {
  }

  /**
   Polling while ready: the balances are asked for when they are due; stale orders are asked for exactly
   when the check is due and finds one that is not waiting already; no other topic is touched.
   */
  lemma PollingAsks(c: Config, s: State, stale: set<Key>, balanceDue: bool, staleDue: bool, topic: Topic)
    requires s.drop.phase == Done && s.drop.status == Ready
    ensures var before, after := s.drop.shared, Step(c, s, OnDropCopyTimer(stale, balanceDue, staleDue)).drop.shared;
            && (topic in after.pending <==>
                  topic in before.pending || Polls(before, stale, balanceDue, staleDue, topic))
            && (topic in after.answered <==>
                  topic in before.answered && !Polls(before, stale, balanceDue, staleDue, topic))
            && after.waiting == before.waiting + if staleDue then stale else {}
  {
    assert CheckQueue(c, s.drop, stale) == s.drop;
    CheckStaleOrdersAsks(RefreshBalance(s.drop, balanceDue), staleDue, stale, topic);
    hide CheckQueue, CheckStaleOrders;
  }
}
