/** Progress of the start-up download: every event it waits for brings it closer to its end, in any interleaving. */
module DownloadProgress {
  import opened Download
  import opened StaleOrders
  import opened DownloadOrder

  /** Whatever a phase waits for is answered, about to be sent, or on its way -- stale orders excepted. */
  ghost predicate Served(d: DropCopy) {
    && StaleOrders !in d.shared.outstanding
    && (d.phase.Waiting() ==>
          var t := TopicOf(d.phase);
          t in d.shared.answered || t in d.shared.pending || t == StaleOrders || t in d.shared.outstanding)
  }

  lemma {:induction false} EnterIsServed(c: Config, d: DropCopy, p: Phase)
    requires StaleOrders !in d.shared.outstanding
    ensures Served(Enter(c, d, p))
    decreases 6 - p.Index()
  {
    var (e, wait) := Callback(c, Mark(d, p), p);
    if wait == 1 || !p.Waiting() {
    } else {
      EnterIsServed(c, e, NextPhase(p));
    }
  }

  lemma SendingIsServed(c: Config, d: DropCopy, o: OrderEntry, granted: set<Topic>, known: set<Key>)
    requires Tracked(c, d) && Served(d) && o.shared == d.shared
    ensures Served(d.(shared := OrderEntryTimer(c, o, granted, known).shared))
  {
    TimerSends(c, o, granted, known);
    hide OrderEntryTimer;
  }

  lemma CheckQueueIsServed(c: Config, d: DropCopy, stale: set<Key>)
    requires Served(d)
    ensures Served(CheckQueue(c, d, stale))
  {
    hide Enter;
    if d.phase.Waiting() {
      if d.phase == GetOpenOrders {
        EnterIsServed(c, d.(shared := Discover(d.shared, stale)), GetStaleOrders);
      } else {
        EnterIsServed(c, d, NextPhase(d.phase));
      }
    }
  }

  lemma ReplyIsServed(d: DropCopy, topic: Topic)
    requires Served(d)
    ensures Served(d.(shared := Reply(d.shared, topic)))
  {
  }

  lemma StepIsServed(c: Config, s: State, e: Event)
    requires Tracked(c, s.drop) && Served(s.drop)
    ensures Served(Step(c, s, e).drop)
  {
    hide Enter, Tracked, CheckQueue, OrderEntryTimer, OrderReply, Reply;
    match e {
      case SocketReady =>
        EnterIsServed(c, s.drop.(shared := s.drop.shared.(trail := [])), GetBalances);
      case SocketDisconnected =>
      case OnDropCopyTimer(stale, balanceDue, staleDue) =>
        CheckQueueIsServed(c, s.drop, stale);
        CheckQueueIsTracked(c, s.drop, stale);
      case OnOrderEntryTimer(granted, known) => SendingIsServed(c, s.drop, Entry(s), granted, known);
      case OnReply(topic) => ReplyIsServed(s.drop, topic);
      case OnOrderReply(key) => OrderReplyIsServed(s, key);
    }
  }

  lemma OrderReplyIsServed(s: State, key: Key)
    requires Served(s.drop)
    ensures Served(s.drop.(shared := OrderReply(Entry(s), key).shared))
  {
  }

  lemma {:induction false} EveryPhaseIsServed(c: Config, events: seq<Event>)
    ensures Tracked(c, Run(c, INITIAL, events).drop) && Served(Run(c, INITIAL, events).drop)
  {
    DownloadIsOrdered(c, events);
    if events == [] {
    } else {
      var n := |events| - 1;
      EveryPhaseIsServed(c, events[..n]);
      StepIsServed(c, Run(c, INITIAL, events[..n]), events[n]);
    }
  }

  /** The events the current phase is waiting for. */
  predicate Helpful(s: State, e: Event) {
    s.drop.phase.Waiting()
    && var t := TopicOf(s.drop.phase);
       if t in s.drop.shared.answered then e.OnDropCopyTimer?
       else if t in s.drop.shared.pending then e.OnOrderEntryTimer? && t in e.granted
       else if t == StaleOrders then e.OnOrderReply? && e.key in s.drop.shared.inFlight
       else e.OnReply? && e.topic == t && t in s.drop.shared.outstanding
  }

  /** At most how many helpful events the current phase still needs, the timer that ends it not counted. */
  function Wait(d: DropCopy): nat {
    if !d.phase.Waiting() || TopicOf(d.phase) in d.shared.answered then 0
    else if d.phase != GetStaleOrders then (if TopicOf(d.phase) in d.shared.pending then 2 else 1)
    else if StaleOrders in d.shared.pending then 2 + |d.shared.waiting| + |d.shared.inFlight|
    else 1 + |d.shared.inFlight|
  }

  function Backlog(s: State): nat {
    |s.drop.shared.waiting| + |s.drop.shared.inFlight|
  }

  /** What is left of the download, when no more than `m` stale orders are being chased at any time. */
  function Rank(d: DropCopy, m: nat): nat {
    (6 - d.phase.Index()) * (m + 3) + Wait(d)
  }

  predicate Reconnects(e: Event) {
    e.SocketReady? || e.SocketDisconnected?
  }

  lemma TimerShrinksWait(c: Config, s: State, granted: set<Topic>, known: set<Key>)
    requires Tracked(c, s.drop) && s.drop.phase.Waiting()
    ensures var e := OnOrderEntryTimer(granted, known);
            Wait(Step(c, s, e).drop) + (if Helpful(s, e) then 1 else 0) <= Wait(s.drop)
  {
    TimerSends(c, Entry(s), granted, known);
    SplitSizes(s.drop.shared.waiting, known);
    hide OrderEntryTimer, Tracked;
  }

  lemma ReplyShrinksWait(c: Config, s: State, topic: Topic)
    requires Served(s.drop) && s.drop.phase.Waiting()
    ensures Wait(Step(c, s, OnReply(topic)).drop) + (if Helpful(s, OnReply(topic)) then 1 else 0) <= Wait(s.drop)
  {
  }

  lemma OrderReplyShrinksWait(c: Config, s: State, key: Key)
    requires s.drop.phase.Waiting()
    ensures Wait(Step(c, s, OnOrderReply(key)).drop) + (if Helpful(s, OnOrderReply(key)) then 1 else 0) <= Wait(s.drop)
  {
  }

  lemma WaitShrinks(c: Config, s: State, e: Event)
    requires Tracked(c, s.drop) && Served(s.drop) && !Reconnects(e) && !e.OnDropCopyTimer?
    ensures Step(c, s, e).drop.phase == s.drop.phase
    ensures Wait(Step(c, s, e).drop) + (if Helpful(s, e) then 1 else 0) <= Wait(s.drop)
  {
    if s.drop.phase.Waiting() {
      match e {
        case OnOrderEntryTimer(granted, known) => TimerShrinksWait(c, s, granted, known);
        case OnReply(topic) => ReplyShrinksWait(c, s, topic);
        case OnOrderReply(key) => OrderReplyShrinksWait(c, s, key);
      }
    }
    hide Wait, Helpful, OrderEntryTimer, OrderReply, Reply;
  }

  lemma SplitSizes(s: set<Key>, t: set<Key>)
    ensures |s * t| <= |s|
    ensures |multiset(s * t)| == |s * t|
  {
    assert |s * t| + |s - t| == |s| by {
      assert (s * t) + (s - t) == s;
    }
  }

  /** Every state of the run chases at most m stale orders. */
  ghost predicate BoundedBacklog(c: Config, s: State, events: seq<Event>, m: nat) {
    forall n :: 0 <= n <= |events| ==> Backlog(Run(c, s, events[..n])) <= m
  }

  /** How many events of a run were helpful when they happened. */
  function HelpfulEvents(c: Config, s: State, events: seq<Event>): nat {
    if events == [] then 0
    else
      var n := |events| - 1;
      HelpfulEvents(c, s, events[..n]) + if Helpful(Run(c, s, events[..n]), events[n]) then 1 else 0
  }

  lemma PhasesWeigh(d: DropCopy, e: DropCopy, m: nat)
    requires d.phase.Index() < e.phase.Index() && Wait(e) <= m + 2
    ensures Rank(e, m) + 1 <= Rank(d, m)
  {
    assert (6 - d.phase.Index()) * (m + 3) >= (6 - e.phase.Index() + 1) * (m + 3);
  }

  lemma PollingKeepsPhase(d: DropCopy, balanceDue: bool, staleDue: bool, stale: set<Key>)
    ensures CheckStaleOrders(RefreshBalance(d, balanceDue), staleDue, stale).phase == d.phase
  {
  }

  /** The rank never grows, and every helpful event makes it smaller. */
  lemma RankShrinks(c: Config, s: State, e: Event, m: nat)
    requires Tracked(c, s.drop) && Served(s.drop) && !Reconnects(e)
    requires Backlog(Step(c, s, e)) <= m
    ensures Rank(Step(c, s, e).drop, m) + (if Helpful(s, e) then 1 else 0) <= Rank(s.drop, m)
  {
    hide Rank, Wait, Step, CheckQueue, Tracked, Served, Helpful;
    var after := Step(c, s, e).drop;
    if e.OnDropCopyTimer? {
      TimerAdvances(c, s, e);
      if s.drop.phase.Index() < after.phase.Index() {
        WaitIsBounded(after);
        PhasesWeigh(s.drop, after, m);
      } else {
        SamePhaseRank(s.drop, after, m);
      }
    } else {
      WaitShrinks(c, s, e);
      SamePhaseRank(s.drop, after, m);
    }
  }

  lemma WaitIsBounded(d: DropCopy)
    ensures Wait(d) <= 2 + |d.shared.waiting| + |d.shared.inFlight|
  {
  }

  lemma SamePhaseRank(d: DropCopy, e: DropCopy, m: nat)
    requires d.phase == e.phase
    ensures Rank(e, m) - Rank(d, m) == Wait(e) - Wait(d)
  {
  }

  /** A timer leaves the phase, or changes nothing it waits for. */
  lemma TimerAdvances(c: Config, s: State, e: Event)
    requires Tracked(c, s.drop) && e.OnDropCopyTimer?
    ensures var d := Step(c, s, e).drop;
            || s.drop.phase.Index() < d.phase.Index()
            || (d.phase == s.drop.phase && Wait(d) == Wait(s.drop) && !Helpful(s, e))
  {
    var d := CheckQueue(c, s.drop, e.stale);
    CheckQueueIsTracked(c, s.drop, e.stale);
    PollingKeepsPhase(d, e.balanceDue, e.staleDue, e.stale);
    LeavesWhenAnswered(c, s.drop, e.stale);
    hide CheckQueue, RefreshBalance, CheckStaleOrders;
  }

  lemma LeavesWhenAnswered(c: Config, d: DropCopy, stale: set<Key>)
    requires Tracked(c, d)
    ensures d.phase.Waiting() && TopicOf(d.phase) in d.shared.answered <==> CheckQueue(c, d, stale).phase != d.phase
    ensures CheckQueue(c, d, stale).phase == d.phase ==> CheckQueue(c, d, stale) == d
  {
    CheckQueueIsTracked(c, d, stale);
    if d.phase.Waiting() && TopicOf(d.phase) in d.shared.answered {
      if d.phase == GetOpenOrders {
        EnterIsForward(c, d.(shared := Discover(d.shared, stale)), GetStaleOrders);
      } else {
        EnterIsForward(c, d, NextPhase(d.phase));
      }
    }
  }

  lemma {:induction false} EnterIsForward(c: Config, d: DropCopy, p: Phase)
    ensures Enter(c, d, p).phase.Index() >= p.Index()
    decreases 6 - p.Index()
  {
    var (e, wait) := Callback(c, Mark(d, p), p);
    if wait == 1 || !p.Waiting() {
    } else {
      EnterIsForward(c, e, NextPhase(p));
    }
  }

  /**
   Helpful events are used up.  Let any run go on without reconnects, in any interleaving and with any
   events in between: each event that the current phase waits for uses up at least one of the `Rank`
   that is left, and nothing ever adds to it.
   */
  lemma {:induction false} HelpIsUsedUp(c: Config, s: State, events: seq<Event>, m: nat)
    requires Tracked(c, s.drop) && Served(s.drop) && s.drop.phase != Undefined
    requires forall i :: 0 <= i < |events| ==> !Reconnects(events[i])
    requires BoundedBacklog(c, s, events, m)
    ensures var t := Run(c, s, events);
            && Tracked(c, t.drop) && Served(t.drop) && t.drop.phase.Index() >= s.drop.phase.Index()
            && Rank(t.drop, m) + HelpfulEvents(c, s, events) <= Rank(s.drop, m)
  {
    hide Tracked, Served, Step, Helpful, Wait;
    if events == [] {
    } else {
      var n := |events| - 1;
      var before := Run(c, s, events[..n]);
      forall k | 0 <= k <= n ensures Backlog(Run(c, s, events[..n][..k])) <= m {
        assert events[..n][..k] == events[..k];
      }
      assert events[..|events|] == events;
      assert Backlog(Run(c, s, events)) <= m;
      HelpIsUsedUp(c, s, events[..n], m);
      RankShrinks(c, before, events[n], m);
      StepIsTracked(c, before, events[n]);
      StepIsServed(c, before, events[n]);
      StepIsForward(c, before, events[n]);
    }
  }

  lemma StepIsForward(c: Config, s: State, e: Event)
    requires Tracked(c, s.drop) && Served(s.drop) && !Reconnects(e)
    ensures Step(c, s, e).drop.phase.Index() >= s.drop.phase.Index()
  {
    if e.OnDropCopyTimer? {
      CheckQueueIsTracked(c, s.drop, e.stale);
      PollingKeepsPhase(CheckQueue(c, s.drop, e.stale), e.balanceDue, e.staleDue, e.stale);
    } else {
      WaitShrinks(c, s, e);
    }
    hide Step, CheckQueue, Tracked, Served;
  }

  lemma ReadyWhenNothingIsLeft(c: Config, d: DropCopy, m: nat)
    requires Tracked(c, d) && d.phase != Undefined
    ensures Rank(d, m) == 0 <==> d.status == Ready
  {
    if d.phase != Done {
      assert (6 - d.phase.Index()) * (m + 3) >= 1 * (m + 3);
    }
  }

  /** A run given in pieces. */
  function Flatten(pieces: seq<seq<Event>>): seq<Event> {
    if pieces == [] then [] else pieces[0] + Flatten(pieces[1..])
  }

  /**
   The pieces are without reconnects and chase at most m stale orders at any time; and in each of them
   that does not start READY some event happens that the phase it finds is waiting for.
   */
  ghost predicate Fair(c: Config, s: State, pieces: seq<seq<Event>>, m: nat)
    decreases |pieces|
  {
    pieces != [] ==>
      && (forall i :: 0 <= i < |pieces[0]| ==> !Reconnects(pieces[0][i]))
      && BoundedBacklog(c, s, pieces[0], m)
      && (s.drop.status != Ready ==> HelpfulEvents(c, s, pieces[0]) > 0)
      && Fair(c, Run(c, s, pieces[0]), pieces[1..], m)
  }

  lemma {:induction false} FairRun(c: Config, s: State, pieces: seq<seq<Event>>, m: nat)
    requires Tracked(c, s.drop) && Served(s.drop) && s.drop.phase != Undefined && Fair(c, s, pieces, m)
    ensures var t := Run(c, s, Flatten(pieces)).drop;
            && Tracked(c, t) && Served(t) && t.phase.Index() >= s.drop.phase.Index()
            && (Rank(t, m) == 0 || Rank(t, m) + |pieces| <= Rank(s.drop, m))
    decreases |pieces|
  {
    hide Run, Rank, Tracked, Served, BoundedBacklog, HelpfulEvents;
    if pieces == [] {
      RunNothing(c, s);
    } else {
      var first, rest := pieces[0], pieces[1..];
      HelpIsUsedUp(c, s, first, m);
      ReadyWhenNothingIsLeft(c, s.drop, m);
      FairRun(c, Run(c, s, first), rest, m);
      RunConcat(c, s, first, Flatten(rest));
    }
  }

  /**
   The download completes.  Whatever else happens, in any interleaving: if again and again some event
   happens that the current phase is waiting for, at the latest after `Rank` times the stream is READY.
   */
  lemma DownloadCompletes(c: Config, s: State, pieces: seq<seq<Event>>, m: nat)
    requires Tracked(c, s.drop) && Served(s.drop) && s.drop.phase != Undefined && Fair(c, s, pieces, m)
    ensures |pieces| >= Rank(s.drop, m) ==> Run(c, s, Flatten(pieces)).drop.status == Ready
  {
    hide Run, Rank, Tracked, Served, Fair;
    FairRun(c, s, pieces, m);
    ReadyWhenNothingIsLeft(c, Run(c, s, Flatten(pieces)).drop, m);
  }

  // answers to the requests of earlier connections

  /** An answer for the topic is on its way. */
  predicate Underway(d: DropCopy, t: Topic) {
    if t == StaleOrders then d.shared.inFlight != multiset{} else t in d.shared.outstanding
  }

  /** The phase waits; a request that has not been sent has not been answered, and nothing else will answer it. */
  ghost predicate OwnAnswerOnly(d: DropCopy, p: Phase) {
    && p.Waiting() && d.phase == p
    && (TopicOf(p) in d.shared.pending ==> TopicOf(p) !in d.shared.answered && !Underway(d, TopicOf(p)))
  }

  lemma OwnAnswerTimer(c: Config, d: DropCopy, o: OrderEntry, granted: set<Topic>, known: set<Key>, p: Phase)
    requires OwnAnswerOnly(d, p) && o.shared == d.shared
    ensures OwnAnswerOnly(d.(shared := OrderEntryTimer(c, o, granted, known).shared), p)
  {
    TimerSends(c, o, granted, known);
    hide OrderEntryTimer;
  }

  lemma OwnAnswerReply(d: DropCopy, topic: Topic, p: Phase)
    requires OwnAnswerOnly(d, p) && StaleOrders !in d.shared.outstanding
    ensures OwnAnswerOnly(d.(shared := Reply(d.shared, topic)), p)
  {
  }

  lemma OwnAnswerOrderReply(d: DropCopy, o: OrderEntry, key: Key, p: Phase)
    requires OwnAnswerOnly(d, p) && o.shared == d.shared
    ensures OwnAnswerOnly(d.(shared := OrderReply(o, key).shared), p)
  {
  }

  lemma OwnAnswerStep(c: Config, s: State, e: Event, p: Phase)
    requires Tracked(c, s.drop) && Served(s.drop) && !Reconnects(e) && OwnAnswerOnly(s.drop, p)
    requires Step(c, s, e).drop.phase == p
    ensures OwnAnswerOnly(Step(c, s, e).drop, p)
  {
    match e {
      case OnDropCopyTimer(stale, balanceDue, staleDue) =>
        PollingKeepsPhase(CheckQueue(c, s.drop, stale), balanceDue, staleDue, stale);
        LeavesWhenAnswered(c, s.drop, stale);
        hide CheckQueue, CheckStaleOrders, RefreshBalance;
        assert s.drop.status != Ready;
      case OnOrderEntryTimer(granted, known) => OwnAnswerTimer(c, s.drop, Entry(s), granted, known, p);
      case OnReply(topic) => OwnAnswerReply(s.drop, topic, p);
      case OnOrderReply(key) => OwnAnswerOrderReply(s.drop, Entry(s), key, p);
    }
    hide Tracked, Served, OwnAnswerOnly, OrderEntryTimer, OrderReply, Reply;
  }

  lemma {:induction false} OwnAnswerRun(c: Config, s: State, events: seq<Event>, p: Phase)
    requires Tracked(c, s.drop) && Served(s.drop) && Balanced(Entry(s)) && OwnAnswerOnly(s.drop, p)
    requires forall i :: 0 <= i < |events| ==> !Reconnects(events[i])
    ensures var t := Run(c, s, events);
            && Tracked(c, t.drop) && Served(t.drop) && Balanced(Entry(t)) && t.drop.phase.Index() >= p.Index()
            && (t.drop.phase == p ==> OwnAnswerOnly(t.drop, p))
  {
    hide Step, Tracked, Served, Balanced, OwnAnswerOnly;
    if events == [] {
      assert s.drop.phase == p by {
        OwnAnswerPhase(s.drop, p);
      }
    } else {
      var n := |events| - 1;
      var before := Run(c, s, events[..n]);
      OwnAnswerRun(c, s, events[..n], p);
      StepIsTracked(c, before, events[n]);
      StepIsServed(c, before, events[n]);
      StepKeepsBooks(c, before, events[n]);
      StepIsForward(c, before, events[n]);
      SameIndex(before.drop.phase, p);
      SameIndex(Run(c, s, events).drop.phase, p);
      if before.drop.phase == p && Run(c, s, events).drop.phase == p {
        OwnAnswerStep(c, before, events[n], p);
      }
    }
  }

  lemma OwnAnswerPhase(d: DropCopy, p: Phase)
    requires OwnAnswerOnly(d, p)
    ensures d.phase == p
  {
  }

  lemma SameIndex(p: Phase, q: Phase)
    ensures p.Index() == q.Index() <==> p == q
  {
  }

  /** Answering everything in flight, one order after the other, answers the topic without sending its batch. */
  lemma {:induction false} Drain(c: Config, s: State) returns (events: seq<Event>)
    requires Balanced(Entry(s)) && s.drop.shared.inFlight != multiset{} && StaleOrders in s.drop.shared.pending
    ensures forall i :: 0 <= i < |events| ==> !Reconnects(events[i])
    ensures var t := Run(c, s, events).drop;
            t.phase == s.drop.phase && StaleOrders in t.shared.answered && StaleOrders in t.shared.pending
    decreases |s.drop.shared.inFlight|
  {
    hide Run, Balanced;
    var key :| key in s.drop.shared.inFlight;
    var e := OnOrderReply(key);
    var t := Step(c, s, e);
    CommitsOnLastReply(c, s, key);
    StepKeepsBooks(c, s, e);
    RunOfOne(c, s, e);
    if t.drop.shared.inFlight == multiset{} {
      events := [e];
    } else {
      var rest := Drain(c, t);
      events := [e] + rest;
      RunConcat(c, s, [e], rest);
    }
  }

  /** The phase is answered, on the same connection, while its own request has not been sent. */
  ghost predicate AnsweredUnsent(c: Config, s: State, events: seq<Event>) {
    && (forall i :: 0 <= i < |events| ==> !Reconnects(events[i]))
    && var d := Run(c, s, events).drop;
       s.drop.phase.Waiting() && d.phase == s.drop.phase
       && TopicOf(d.phase) in d.shared.answered && TopicOf(d.phase) in d.shared.pending
  }

  /**
   When the answer a phase ends with may belong to a request of an earlier connection: a phase that has
   just asked can be answered before its own request is sent, if and only if an answer for its topic was
   already on its way.
   */
  lemma AnsweredUnsentExactly(c: Config, s: State)
    requires Tracked(c, s.drop) && Served(s.drop) && Balanced(Entry(s)) && s.drop.phase.Waiting()
    requires TopicOf(s.drop.phase) in s.drop.shared.pending && TopicOf(s.drop.phase) !in s.drop.shared.answered
    ensures (exists events :: AnsweredUnsent(c, s, events)) <==> Underway(s.drop, TopicOf(s.drop.phase))
  {
    var p := s.drop.phase;
    if !Underway(s.drop, TopicOf(p)) {
      forall events ensures !AnsweredUnsent(c, s, events) {
        if forall i :: 0 <= i < |events| ==> !Reconnects(events[i]) {
          OwnAnswerRun(c, s, events, p);
        }
      }
    } else if p == GetStaleOrders {
      var events := Drain(c, s);
      assert AnsweredUnsent(c, s, events);
    } else {
      var events := [OnReply(TopicOf(p))];
      RunOfOne(c, s, OnReply(TopicOf(p)));
      assert AnsweredUnsent(c, s, events);
    }
  }
}
