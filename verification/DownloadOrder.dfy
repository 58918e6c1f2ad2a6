/** The order of the start-up download: what a stream has seen when it enters a phase or is published READY. */
module DownloadOrder {
  import opened Download
  import opened StaleOrders

  /** `wanted` occurs inside `all`, in order and possibly with other elements in between. */
  predicate Subsequence<T(==)>(wanted: seq<T>, all: seq<T>)
    decreases |all|
  {
    wanted == []
    || (all != []
        && (Subsequence(wanted, all[..|all| - 1])
            || (wanted[|wanted| - 1] == all[|all| - 1] && Subsequence(wanted[..|wanted| - 1], all[..|all| - 1]))))
  }

  lemma Append<T>(wanted: seq<T>, all: seq<T>, x: T)
    requires Subsequence(wanted, all)
    ensures Subsequence(wanted, all + [x]) && Subsequence(wanted + [x], all + [x])
  {
    assert (all + [x])[..|all|] == all && (wanted + [x])[..|wanted|] == wanted;
  }

  function PhaseAt(n: nat): Phase {
    if n == 1 then GetBalances
    else if n == 2 then GetPositions
    else if n == 3 then GetOpenOrders
    else if n == 4 then GetStaleOrders
    else if n == 5 then GetTrades
    else if n == 6 then Done
    else Undefined
  }

  /** The first n phases of a download, in order. */
  function Path(n: nat): seq<Phase> {
    if n == 0 then [] else Path(n - 1) + [PhaseAt(n)]
  }

  /** The phases a connection has entered. */
  function Entries(trail: seq<Note>): seq<Phase> {
    if trail == [] then []
    else
      var last := trail[|trail| - 1];
      Entries(trail[..|trail| - 1]) + if last.Entered? then [last.phase] else []
  }

  lemma AppendEntry(trail: seq<Note>, m: Note)
    ensures Entries(trail + [m]) == Entries(trail) + if m.Entered? then [m.phase] else []
  {
    assert (trail + [m])[..|trail|] == trail;
  }

  /** What must have happened, in this order, before a phase is entered. */
  function Before(c: Config, chased: bool, p: Phase): seq<Note>
    decreases p.Index(), 0
  {
    match p
    case Undefined => []
    case GetBalances => []
    case GetPositions => UpTo(c, chased, GetBalances) + [Answered(Balances)]
    case GetOpenOrders => UpTo(c, chased, GetPositions) + [Answered(Positions)]
    case GetStaleOrders => UpTo(c, chased, GetOpenOrders) + [Answered(OpenOrders)]
    case GetTrades =>
      if chased then UpTo(c, chased, GetStaleOrders) + [Answered(StaleOrders)] else UpTo(c, chased, GetStaleOrders)
    case Done =>
      if c.WantsTrades() then UpTo(c, chased, GetTrades) + [Answered(Trades)] else UpTo(c, chased, GetTrades)
  }

  function UpTo(c: Config, chased: bool, p: Phase): seq<Note>
    decreases p.Index(), 1
  {
    Before(c, chased, p) + if p.Undefined? then [] else [Entered(p)]
  }

  /** A waiting phase has asked, and its answer, if there is one, came after that. */
  ghost predicate Tracked(c: Config, d: DropCopy) {
    && Entries(d.shared.trail) == Path(d.phase.Index())
    && Subsequence(UpTo(c, d.shared.chased, d.phase), d.shared.trail)
    && (d.phase.Waiting() && TopicOf(d.phase) in d.shared.answered ==>
          Subsequence(UpTo(c, d.shared.chased, d.phase) + [Answered(TopicOf(d.phase))], d.shared.trail))
    && (d.status == Ready <==> d.phase == Done) && (d.status == Disconnected <==> d.phase == Undefined)
    && (d.phase == GetStaleOrders ==> d.shared.chased && (d.shared.waiting != {} <==> StaleOrders in d.shared.pending))
    && (d.phase == GetTrades ==> c.WantsTrades())
  }

  lemma UpToIgnoresChase(c: Config, p: Phase)
    requires p.Index() <= 4
    ensures Before(c, true, p) == Before(c, false, p) && UpTo(c, true, p) == UpTo(c, false, p)
    decreases p.Index()
  {
    match p {
      case GetPositions => UpToIgnoresChase(c, GetBalances);
      case GetOpenOrders => UpToIgnoresChase(c, GetPositions);
      case GetStaleOrders => UpToIgnoresChase(c, GetOpenOrders);
      case _ =>
    }
  }

  /** The mark of the phase being entered. */
  lemma Enters(c: Config, d: DropCopy, p: Phase)
    requires p != Undefined
    requires Entries(d.shared.trail) == Path(p.Index() - 1)
    requires Subsequence(Before(c, d.shared.chased, p), d.shared.trail)
    ensures var trail := d.shared.trail + [Entered(p)];
            Entries(trail) == Path(p.Index()) && Subsequence(UpTo(c, d.shared.chased, p), trail)
    ensures p.Index() <= 4 ==> UpTo(c, d.shared.chased, p) == UpTo(c, !d.shared.chased, p)
  {
    hide Subsequence, Entries, Before;
    AppendEntry(d.shared.trail, Entered(p));
    Append(Before(c, d.shared.chased, p), d.shared.trail, Entered(p));
    if p.Index() <= 4 {
      UpToIgnoresChase(c, p);
    }
  }

  lemma CallbackIsTracked(c: Config, d: DropCopy, p: Phase)
    requires p != Undefined && d.phase == p
    requires Entries(d.shared.trail) == Path(p.Index())
    requires Subsequence(UpTo(c, d.shared.chased, p), d.shared.trail)
    requires p.Index() <= 4 ==> UpTo(c, d.shared.chased, p) == UpTo(c, !d.shared.chased, p)
    ensures var (e, wait) := Callback(c, d, p);
            && e.shared.trail == d.shared.trail
            && (if wait == 1 || !p.Waiting() then Tracked(c, e) && e.phase == p
                else Before(c, e.shared.chased, NextPhase(p)) == UpTo(c, e.shared.chased, p)
                     == UpTo(c, d.shared.chased, p))
  {
    hide Subsequence, Entries, UpTo, Path;
    match p {
      case GetStaleOrders =>
      case GetTrades =>
      case _ =>
    }
  }

  lemma {:induction false} EnterIsTracked(c: Config, d: DropCopy, p: Phase)
    requires p != Undefined
    requires Entries(d.shared.trail) == Path(p.Index() - 1)
    requires Subsequence(Before(c, d.shared.chased, p), d.shared.trail)
    ensures Tracked(c, Enter(c, d, p)) && Enter(c, d, p).phase.Index() >= p.Index()
    decreases 6 - p.Index()
  {
    hide Subsequence, Entries, UpTo, Before, Path, Enter, Callback, Tracked;
    var (e, wait) := Callback(c, Mark(d, p), p);
    Unfold(c, d, p);
    Enters(c, d, p);
    CallbackIsTracked(c, Mark(d, p), p);
    if wait == 1 || !p.Waiting() {
    } else {
      EnterIsTracked(c, e, NextPhase(p));
    }
  }

  lemma CheckQueueIsTracked(c: Config, d: DropCopy, stale: set<Key>)
    requires Tracked(c, d)
    ensures Tracked(c, CheckQueue(c, d, stale))
    ensures var e := CheckQueue(c, d, stale);
            e == d || (d.phase.Waiting() && TopicOf(d.phase) in d.shared.answered && e.phase.Index() > d.phase.Index())
  {
    hide Subsequence, Entries, Enter;
    if d.phase.Waiting() && TopicOf(d.phase) in d.shared.answered {
      assert UpTo(c, d.shared.chased, d.phase) + [Answered(TopicOf(d.phase))]
             == Before(c, d.shared.chased, NextPhase(d.phase));
      if d.phase == GetOpenOrders {
        EnterIsTracked(c, d.(shared := Discover(d.shared, stale)), GetStaleOrders);
      } else {
        EnterIsTracked(c, d, NextPhase(d.phase));
      }
    }
  }

  lemma CommitIsTracked(c: Config, d: DropCopy, t: Topic)
    requires Tracked(c, d)
    ensures Tracked(c, d.(shared := Commit(d.shared, t)))
  {
    hide Subsequence, Entries, Before;
    AppendEntry(d.shared.trail, Answered(t));
    Append(UpTo(c, d.shared.chased, d.phase), d.shared.trail, Answered(t));
    if d.phase.Waiting() && TopicOf(d.phase) in d.shared.answered {
      Append(UpTo(c, d.shared.chased, d.phase) + [Answered(TopicOf(d.phase))], d.shared.trail, Answered(t));
    }
  }

  /** While the stream is ready, new requests do not touch the download. */
  lemma PollingIsTracked(c: Config, d: DropCopy, balanceDue: bool, staleDue: bool, stale: set<Key>)
    requires Tracked(c, d) && d.status == Ready
    ensures Tracked(c, CheckStaleOrders(RefreshBalance(d, balanceDue), staleDue, stale))
  {
    hide Subsequence, Entries, UpTo;
  }

  lemma ChaseIsTracked(c: Config, d: DropCopy, o: OrderEntry, granted: set<Topic>, known: set<Key>)
    requires Tracked(c, d) && o.shared == d.shared
    ensures Tracked(c, d.(shared := OrderEntryTimer(c, o, granted, known).shared))
  {
    TimerSends(c, o, granted, known);
    hide Subsequence, Entries, UpTo, OrderEntryTimer;
  }

  lemma BooksDoNotMatter(c: Config, d: DropCopy, shared: Shared)
    requires Tracked(c, d)
    requires shared.trail == d.shared.trail && shared.chased == d.shared.chased && shared.waiting == d.shared.waiting
    requires shared.pending == d.shared.pending && shared.answered == d.shared.answered
    ensures Tracked(c, d.(shared := shared))
  {
    hide Subsequence, Entries, UpTo;
  }

  lemma ReplyIsTracked(c: Config, d: DropCopy, topic: Topic)
    requires Tracked(c, d)
    ensures Tracked(c, d.(shared := Reply(d.shared, topic)))
  {
    var shared := d.shared.(outstanding := d.shared.outstanding - multiset{topic});
    BooksDoNotMatter(c, d, shared);
    CommitIsTracked(c, d.(shared := shared), topic);
    hide Tracked, Commit;
  }

  lemma OrderReplyIsTracked(c: Config, d: DropCopy, o: OrderEntry, key: Key)
    requires Tracked(c, d) && o.shared == d.shared
    ensures Tracked(c, d.(shared := OrderReply(o, key).shared))
  {
    var shared := o.shared.(inFlight := o.shared.inFlight - multiset{key}, queried := o.shared.queried + multiset{key});
    BooksDoNotMatter(c, d, shared);
    CommitIsTracked(c, d.(shared := shared), StaleOrders);
    hide Tracked, Commit;
  }

  lemma StepIsTracked(c: Config, s: State, e: Event)
    requires Tracked(c, s.drop)
    ensures Tracked(c, Step(c, s, e).drop)
  {
    match e {
      case SocketReady =>
        NothingYet(c, s.drop.shared.chased);
        EnterIsTracked(c, s.drop.(shared := s.drop.shared.(trail := [])), GetBalances);
      case SocketDisconnected => NothingYet(c, s.drop.shared.chased);
      case OnDropCopyTimer(stale, balanceDue, staleDue) =>
        hide CheckQueue, Tracked;
        var d := CheckQueue(c, s.drop, stale);
        CheckQueueIsTracked(c, s.drop, stale);
        if d.status == Ready {
          PollingIsTracked(c, d, balanceDue, staleDue, stale);
        }
      case OnOrderEntryTimer(granted, known) =>
        hide OrderEntryTimer, Tracked;
        ChaseIsTracked(c, s.drop, Entry(s), granted, known);
      case OnReply(topic) => ReplyIsTracked(c, s.drop, topic);
      case OnOrderReply(key) => OrderReplyIsTracked(c, s.drop, Entry(s), key);
    }
  }

  lemma NothingYet(c: Config, chased: bool)
    ensures Entries([]) == [] && Subsequence<Note>([], [])
    ensures Before(c, chased, GetBalances) == [] && UpTo(c, chased, Undefined) == []
  {
  }

  /**
   The order of every download.  In every reachable state the phases entered since the connection was
   made are exactly the first ones, in strictly increasing order, and each was entered only after the
   answer to the one before had arrived.  In particular the stream is published READY only when this
   connection has asked for and seen the answers of the balances, the positions and the open orders,
   in that order; then of the stale orders, if it had to wait for them; then of the trades, if wanted.
   */
  lemma {:induction false} DownloadIsOrdered(c: Config, events: seq<Event>)
    ensures Tracked(c, Run(c, INITIAL, events).drop)
    ensures var d := Run(c, INITIAL, events).drop;
            d.status == Ready ==>
              Entries(d.shared.trail) == Path(6) && Subsequence(ReadyTrail(c, d.shared.chased), d.shared.trail)
  {
    if events == [] {
    } else {
      var n := |events| - 1;
      DownloadIsOrdered(c, events[..n]);
      StepIsTracked(c, Run(c, INITIAL, events[..n]), events[n]);
    }
    ReadyTrailIsUpTo(c, Run(c, INITIAL, events).drop.shared.chased);
  }

  /** The history of a complete download, without the marks of other answers. */
  function ReadyTrail(c: Config, chased: bool): seq<Note> {
    [Entered(GetBalances), Answered(Balances), Entered(GetPositions), Answered(Positions),
     Entered(GetOpenOrders), Answered(OpenOrders), Entered(GetStaleOrders)]
    + (if chased then [Answered(StaleOrders)] else []) + [Entered(GetTrades)]
    + (if c.WantsTrades() then [Answered(Trades)] else []) + [Entered(Done)]
  }

  lemma ReadyTrailIsUpTo(c: Config, chased: bool)
    ensures UpTo(c, chased, Done) == ReadyTrail(c, chased)
  {
    assert UpTo(c, chased, GetStaleOrders)
        == [Entered(GetBalances), Answered(Balances), Entered(GetPositions), Answered(Positions),
            Entered(GetOpenOrders), Answered(OpenOrders), Entered(GetStaleOrders)];
  }

  /** Entering the stale-order step: it waits if there are stale orders and is passed over otherwise. */
  lemma EnterStaleOrders(c: Config, d: DropCopy)
    ensures var e := Enter(c, d, GetStaleOrders);
            && (e.phase == GetStaleOrders <==> d.shared.waiting != {})
            && (e.shared.chased <==> d.shared.waiting != {})
            && e.shared.waiting == d.shared.waiting
  {
    EnterKeepsBooks(c, d, GetStaleOrders);
  }

  /** The stale-order step waits exactly when there are stale orders right after the open orders. */
  lemma WaitsForStaleOrders(c: Config, s: State, stale: set<Key>, balanceDue: bool, staleDue: bool)
    requires s.drop.phase == GetOpenOrders && OpenOrders in s.drop.shared.answered
    ensures var t := Step(c, s, OnDropCopyTimer(stale, balanceDue, staleDue)).drop;
            && (t.phase == GetStaleOrders <==> s.drop.shared.waiting + stale != {})
            && (t.shared.chased <==> s.drop.shared.waiting + stale != {})
            && s.drop.shared.waiting + stale <= t.shared.waiting
  {
    hide Enter;
    EnterStaleOrders(c, s.drop.(shared := Discover(s.drop.shared, stale)));
  }
}
