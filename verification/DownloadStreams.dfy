/**
 The objects of the download: the user stream and the order-entry stream of an account, and the
 request object they share.
 */
module DownloadStreams {
  import opened Download
  import opened Wrappers

  /** The shared latches and the set of stale orders; the ghost fields are the history. */
  class SharedRequest {
    var pending: set<Topic>
    var answered: set<Topic>
    var waiting: set<Key>
    ghost var outstanding: multiset<Topic>
    ghost var inFlight: multiset<Key>
    ghost var discovered: multiset<Key>
    ghost var queried: multiset<Key>
    ghost var notFound: multiset<Key>
    ghost var chased: bool
    ghost var trail: seq<Note>

    ghost function View(): Shared
      reads this
    {
      Shared(pending, answered, waiting, outstanding, inFlight, discovered, queried, notFound, chased, trail)
    }

    constructor ()
      ensures View() == NOTHING
    {
      pending, answered, waiting := {}, {}, {};
      outstanding, inFlight, discovered, queried, notFound :=
        multiset{}, multiset{}, multiset{}, multiset{}, multiset{};
      chased, trail := false, [];
    }

    method Ask(t: Topic)
      modifies this
      ensures View() == Download.Request(old(View()), t)
    {
      pending, answered := pending + {t}, answered - {t};
    }

    /** A request goes out once per `Ask`, when the rate limiter grants it. */
    method CheckPending(t: Topic, granted: set<Topic>) returns (send: bool)
      modifies `pending
      ensures send == Sends(old(View()), granted, t)
      ensures View() == if send then old(View()).(pending := old(pending) - {t}) else old(View())
    {
      send := t in pending && t in granted;
      if send {
        pending := pending - {t};
      }
    }

    method Commit(t: Topic)
      modifies this
      ensures View() == Download.Commit(old(View()), t)
    {
      answered := answered + {t};
      trail := trail + [Answered(t)];
    }

    /** Inserts one stale order; tells whether it was new. */
    method Insert(key: Key) returns (inserted: bool)
      modifies `waiting, `discovered
      ensures inserted == (key !in old(waiting))
      ensures waiting == old(waiting) + {key}
      ensures discovered == old(discovered) + if inserted then multiset{key} else multiset{}
    {
      inserted := key !in waiting;
      waiting := waiting + {key};
      if inserted {
        discovered := discovered + multiset{key};
      }
    }

    method ClearWaiting()
      modifies `waiting
      ensures View() == old(View()).(waiting := {})
    {
      waiting := {};
    }

    /** An order query has been answered. */
    ghost method Settle(key: Key)
      modifies `inFlight, `queried
      ensures View() == old(View()).(inFlight := old(inFlight) - multiset{key}, queried := old(queried) + multiset{key})
    {
      inFlight := inFlight - multiset{key};
      queried := queried + multiset{key};
    }

    /** Sends one request to the exchange, which will be answered once. */
    ghost method Sent(t: Topic)
      modifies `outstanding
      ensures outstanding == old(outstanding) + multiset{t}
    {
      outstanding := outstanding + multiset{t};
    }
  }

  class DropCopyClassic {
    const config: Config
    const request: SharedRequest
    var phase: Phase
    var status: Status

    ghost function View(): DropCopy
      reads this, request
    {
      DropCopy(phase, status, request.View())
    }

    constructor (config: Config, request: SharedRequest)
      ensures this.config == config && this.request == request
      ensures View() == DropCopy(Undefined, Disconnected, request.View())
    {
      this.config, this.request := config, request;
      phase, status := Undefined, Disconnected;
    }

    /** The download callback. */
    method OnDownload(p: Phase) returns (wait: nat)
      modifies this, request
      ensures (View(), wait) == Callback(config, old(View()), p)
    {
      wait := 0;
      match p {
        case Undefined =>
        case GetBalances =>
          status := Downloading;
          request.Ask(Balances);
          wait := 1;
        case GetPositions =>
          status := Downloading;
          request.Ask(Positions);
          wait := 1;
        case GetOpenOrders =>
          status := Downloading;
          request.Ask(OpenOrders);
          wait := 1;
        case GetStaleOrders =>
          request.chased := request.waiting != {};
          if request.waiting != {} {
            status := Downloading;
            request.Ask(StaleOrders);
            wait := 1;
          }
        case GetTrades =>
          if config.lookback != 0 && config.symbols != 0 {
            status := Downloading;
            request.Ask(Trades);
            wait := 1;
          }
        case Done =>
          status := Ready;
      }
    }

    method VisitPhase(p: Phase) returns (wait: nat)
      modifies this, request
      ensures (View(), wait) == Callback(config, Mark(old(View()), p), p)
    {
      phase := p;
      request.trail := request.trail + [Entered(p)];
      wait := OnDownload(p);
    }

    /** Enters a phase and goes on for as long as the callback returns 0. */
    method EnterPhase(p: Phase)
      modifies this, request
      ensures View() == Enter(config, old(View()), p)
    {
      hide Enter, Callback, Mark;
      Unfold(config, View(), p);
      var at := p;
      var wait := VisitPhase(p);
      while wait == 0 && at.Waiting()
        invariant wait <= 1
        invariant Enter(config, old(View()), p)
               == if wait == 1 || !at.Waiting() then View() else Enter(config, View(), NextPhase(at))
        decreases 6 - at.Index()
      {
        at := NextPhase(at);
        Unfold(config, View(), at);
        wait := VisitPhase(at);
      }
    }

    method OnReady()
      modifies this, request
      ensures View() == Begin(config, old(View()))
    {
      request.trail := [];
      EnterPhase(GetBalances);
    }

    method OnDisconnected()
      modifies this, request
      ensures View() == Disconnect(old(View()))
    {
      status := Disconnected;
      phase := Undefined;
      request.trail := [];
    }

    /** Adds the stale orders the order management reports, in any order; tells whether one was new. */
    method FindStaleOrders(stale: set<Key>) returns (found: bool)
      modifies request`waiting, request`discovered
      ensures View() == old(View()).(shared := Discover(old(View()).shared, stale))
      ensures found <==> !(stale <= old(request.waiting))
    {
      found := false;
      ghost var was, books := request.waiting, request.discovered;
      var todo := stale;
      ghost var seen := {};
      while todo != {}
        invariant todo + seen == stale && todo !! seen
        invariant request.waiting == was + seen
        invariant request.discovered == books + multiset(seen - was)
        invariant found <==> !(seen <= was)
        decreases |todo|
      {
        var key :| key in todo;
        DiscoverOne(was, seen, key, books);
        MoveOne(todo, seen, key);
        todo := todo - {key};
        var inserted := request.Insert(key);
        found := found || inserted;
        seen := seen + {key};
      }
      assert seen == stale;
    }

    method CheckRequestQueue(stale: set<Key>)
      modifies this, request
      ensures View() == CheckQueue(config, old(View()), stale)
    {
      hide Enter, Discover;
      match phase {
        case Undefined =>
        case GetBalances =>
          if Balances in request.answered {
            EnterPhase(GetPositions);
          }
        case GetPositions =>
          if Positions in request.answered {
            EnterPhase(GetOpenOrders);
          }
        case GetOpenOrders =>
          if OpenOrders in request.answered {
            var _ := FindStaleOrders(stale);
            EnterPhase(GetStaleOrders);
          }
        case GetStaleOrders =>
          if StaleOrders in request.answered {
            EnterPhase(GetTrades);
          }
        case GetTrades =>
          if Trades in request.answered {
            EnterPhase(Done);
          }
        case Done =>
      }
    }

    method OnTimer(stale: set<Key>, balanceDue: bool, staleDue: bool)
      modifies this, request
      ensures View() == DropCopyTimer(config, old(View()), stale, balanceDue, staleDue)
    {
      CheckRequestQueue(stale);
      if status == Ready {
        if balanceDue {
          request.Ask(Balances);
        }
        if staleDue {
          var found := FindStaleOrders(stale);
          if found {
            request.Ask(StaleOrders);
          }
        }
      }
    }
  }

  /** The set can be grown one order at a time. */
  lemma DiscoverOne(waiting: set<Key>, seen: set<Key>, key: Key, books: multiset<Key>)
    requires key !in seen
    ensures books + multiset(seen + {key} - waiting)
         == books + multiset(seen - waiting) + if key !in waiting + seen then multiset{key} else multiset{}
    ensures seen + {key} <= waiting <==> seen <= waiting && key in waiting + seen
    ensures waiting + (seen + {key}) == waiting + seen + {key}
  {
    if key in waiting {
      assert seen + {key} - waiting == seen - waiting;
    } else {
      assert seen + {key} - waiting == seen - waiting + {key};
    }
  }

  class OrderEntryClassic {
    const config: Config
    const request: SharedRequest
    var counter: nat
    ghost var underflow: bool

    ghost function View(): OrderEntry
      reads this, request
    {
      OrderEntry(counter, underflow, request.View())
    }

    constructor (config: Config, request: SharedRequest)
      ensures this.config == config && this.request == request
      ensures View() == OrderEntry(0, false, request.View())
    {
      this.config, this.request := config, request;
      counter, underflow := 0, false;
    }

    method SendCopies(t: Topic, copies: nat)
      modifies request`outstanding
      ensures request.outstanding == old(request.outstanding)[t := old(request.outstanding)[t] + copies]
    {
      var i := 0;
      while i < copies
        invariant 0 <= i <= copies
        invariant request.outstanding == old(request.outstanding)[t := old(request.outstanding)[t] + i]
      {
        request.Sent(t);
        i := i + 1;
      }
    }

    method CheckPending(t: Topic, granted: set<Topic>, copies: nat)
      modifies request`pending, request`outstanding
      ensures View() == old(View()).(shared := Send(old(View()).shared, granted, t, copies))
    {
      var send := request.CheckPending(t, granted);
      if send {
        SendCopies(t, copies);
      }
    }

    method QueryOrder(key: Key, known: set<Key>)
      modifies `counter, request`inFlight, request`notFound
      ensures counter == old(counter) + if key in known then 1 else 0
      ensures request.inFlight == old(request.inFlight) + if key in known then multiset{key} else multiset{}
      ensures request.notFound == old(request.notFound) + if key in known then multiset{} else multiset{key}
    {
      if key in known {
        counter := counter + 1;
        request.inFlight := request.inFlight + multiset{key};
      } else {
        request.notFound := request.notFound + multiset{key};
      }
    }

    /** Queries the waiting stale orders that are known, one request each. */
    method QueryOrders(known: set<Key>)
      modifies `counter, request`inFlight, request`notFound
      ensures counter == old(counter) + |request.waiting * known|
      ensures request.inFlight == old(request.inFlight) + multiset(request.waiting * known)
      ensures request.notFound == old(request.notFound) + multiset(request.waiting - known)
    {
      var todo := request.waiting;
      ghost var done := {};
      while todo != {}
        invariant todo + done == request.waiting && todo !! done
        invariant counter == old(counter) + |done * known|
        invariant request.inFlight == old(request.inFlight) + multiset(done * known)
        invariant request.notFound == old(request.notFound) + multiset(done - known)
        decreases |todo|
      {
        var key :| key in todo;
        ChaseOne(done, known, key);
        QueryOrder(key, known);
        MoveOne(todo, done, key);
        todo := todo - {key};
        done := done + {key};
      }
      assert done == request.waiting;
    }

    /** The whole set is queried as one batch and cleared. */
    method QueryWaiting(known: set<Key>)
      modifies `counter, request`inFlight, request`notFound, request`waiting
      ensures var o, s := old(View()), old(View()).shared;
              View() == o.(counter := o.counter + |s.waiting * known|,
                           shared := s.(waiting := {}, inFlight := s.inFlight + multiset(s.waiting * known),
                                        notFound := s.notFound + multiset(s.waiting - known)))
    {
      QueryOrders(known);
      request.ClearWaiting();
    }

    method ChaseStaleOrders(granted: set<Topic>, known: set<Key>)
      modifies `counter, request
      ensures View() == Chase(old(View()), granted, known)
    {
      hide Sends;
      var send := request.CheckPending(StaleOrders, granted);
      if send {
        QueryWaiting(known);
      }
    }

    method OnTimer(granted: set<Topic>, known: set<Key>)
      modifies this, request
      ensures View() == OrderEntryTimer(config, old(View()), granted, known)
    {
      CheckPending(Balances, granted, 1);
      CheckPending(Positions, granted, 1);
      CheckPending(OpenOrders, granted, 1);
      ChaseStaleOrders(granted, known);
      CheckPending(Trades, granted, config.symbols);
    }

    method OnReply(t: Topic)
      requires t in request.outstanding
      modifies request
      ensures View() == old(View()).(shared := Reply(old(View()).shared, t))
    {
      request.outstanding := request.outstanding - multiset{t};
      request.Commit(t);
    }

    method OnOrderReply(key: Key)
      requires key in request.inFlight
      modifies this, request
      ensures View() == OrderReply(old(View()), key)
    {
      request.Settle(key);
      if counter > 0 {
        counter := counter - 1;
      } else {
        underflow := true;
      }
      if counter == 0 {
        request.Commit(StaleOrders);
      }
    }
  }

  lemma ChaseOne(done: set<Key>, known: set<Key>, key: Key)
    requires key !in done
    ensures |(done + {key}) * known| == |done * known| + if key in known then 1 else 0
    ensures multiset((done + {key}) * known)
            == multiset(done * known) + if key in known then multiset{key} else multiset{}
    ensures multiset((done + {key}) - known)
            == multiset(done - known) + if key in known then multiset{} else multiset{key}
  {
    if key in known {
      assert (done + {key}) * known == done * known + {key};
      assert (done + {key}) - known == done - known;
    } else {
      assert (done + {key}) * known == done * known;
      assert (done + {key}) - known == done - known + {key};
    }
  }
}
