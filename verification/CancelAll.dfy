/**
 Cancel-all over REST ("classic"): the order-entry stream remembers every symbol it has placed orders
 for or has seen open orders of, and cancels symbol by symbol.
 */
module CancelAll {

  datatype OpenOrder = OpenOrder(symbol: string, clientOrderId: string)

  datatype Event =
    | Ready
    | Disconnected
    | OrderPlace(symbol: string)
    | OpenOrders(items: seq<OpenOrder>)     // the download of the open orders

  datatype State = State(ready: bool, symbols: set<string>)

  const INITIAL := State(false, {})

  /** Orders without a client id are not the gateway's. */
  function SymbolsOf(items: seq<OpenOrder>): set<string> {
    set item | item in items && item.clientOrderId != "" :: item.symbol
  }

  function Step(s: State, e: Event): State {
    match e
    case Ready => s.(ready := true)
    case Disconnected => s.(ready := false)
    case OrderPlace(symbol) => if s.ready then s.(symbols := s.symbols + {symbol}) else s
    case OpenOrders(items) => s.(symbols := s.symbols + SymbolsOf(items))
  }

  function Run(s: State, events: seq<Event>): State {
    if events == [] then s else Step(Run(s, events[..|events| - 1]), events[|events| - 1])
  }

  /** The stream is ready before event i: it became ready and has not been disconnected since. */
  ghost predicate ReadyAt(events: seq<Event>, i: nat)
    requires i <= |events|
  {
    exists k :: 0 <= k < i && events[k].Ready? && forall j :: k < j < i ==> !events[j].Disconnected?
  }

  /** Event i makes a symbol known. */
  ghost predicate Introduces(events: seq<Event>, i: nat, symbol: string)
    requires i < |events|
  {
    || (events[i] == OrderPlace(symbol) && ReadyAt(events, i))
    || (events[i].OpenOrders? &&
         exists item :: item in events[i].items && item.clientOrderId != "" && item.symbol == symbol)
  }

  lemma {:induction false} ReadyIsReadyAt(events: seq<Event>)
    ensures Run(INITIAL, events).ready <==> ReadyAt(events, |events|)
  {
    if events == [] {
    } else {
      var n := |events| - 1;
      ReadyIsReadyAt(events[..n]);
      if ReadyAt(events[..n], n) && !events[n].Disconnected? {
        var k :| 0 <= k < n && events[..n][k].Ready? && forall j :: k < j < n ==> !events[..n][j].Disconnected?;
        assert events[k].Ready? && forall j :: k < j < n ==> events[j] == events[..n][j];
      }
      if events[n].Ready? {
        assert ReadyAt(events, |events|);
      }
      if ReadyAt(events, |events|) && !events[n].Ready? {
        var k :| 0 <= k < |events| && events[k].Ready? && forall j :: k < j < |events| ==> !events[j].Disconnected?;
        assert events[..n][k].Ready? && forall j :: k < j < n ==> events[..n][j] == events[j];
      }
    }
  }

  lemma PrefixIntroduces(events: seq<Event>, n: nat, i: nat, symbol: string)
    requires i < n <= |events|
    ensures Introduces(events[..n], i, symbol) <==> Introduces(events, i, symbol)
  {
    assert events[..n][i] == events[i];
    assert forall k :: 0 <= k < i ==> events[..n][k] == events[k];
    if ReadyAt(events, i) {
      var k :| 0 <= k < i && events[k].Ready? && forall j :: k < j < i ==> !events[j].Disconnected?;
      assert events[..n][k].Ready? && forall j :: k < j < i ==> !events[..n][j].Disconnected?;
    }
    if ReadyAt(events[..n], i) {
      var k :| 0 <= k < i && events[..n][k].Ready? && forall j :: k < j < i ==> !events[..n][j].Disconnected?;
      assert events[k].Ready? && forall j :: k < j < i ==> events[..n][j] == events[j];
    }
  }

  /**
   The known symbols are exactly those of an order ever placed while ready, or downloaded as an open
   order with a client id; disconnects forget none of them.
   */
  lemma {:induction false} KnownSymbols(events: seq<Event>, symbol: string)
    ensures symbol in Run(INITIAL, events).symbols <==> exists i :: 0 <= i < |events| && Introduces(events, i, symbol)
  {
    if events == [] {
    } else {
      var n := |events| - 1;
      var before := events[..n];
      KnownSymbols(before, symbol);
      ReadyIsReadyAt(before);
      forall i | 0 <= i < n ensures Introduces(before, i, symbol) <==> Introduces(events, i, symbol) {
        PrefixIntroduces(events, n, i, symbol);
      }
      LastIntroduces(events, symbol);
      if symbol in Run(INITIAL, before).symbols {
        var i :| 0 <= i < n && Introduces(before, i, symbol);
        assert Introduces(events, i, symbol);
      }
    }
  }

  lemma LastIntroduces(events: seq<Event>, symbol: string)
    requires events != []
    ensures var n := |events| - 1;
            symbol in Run(INITIAL, events).symbols
            <==> symbol in Run(INITIAL, events[..n]).symbols || Introduces(events, n, symbol)
  {
    var n := |events| - 1;
    ReadyIsReadyAt(events[..n]);
    assert ReadyAt(events[..n], n) <==> ReadyAt(events, n) by {
      SameReady(events, n);
    }
  }

  lemma SameReady(events: seq<Event>, n: nat)
    requires n <= |events|
    ensures ReadyAt(events[..n], n) <==> ReadyAt(events, n)
  {
    assert forall k :: 0 <= k < n ==> events[..n][k] == events[k];
    if ReadyAt(events, n) {
      var k :| 0 <= k < n && events[k].Ready? && forall j :: k < j < n ==> !events[j].Disconnected?;
      assert events[..n][k].Ready? && forall j :: k < j < n ==> !events[..n][j].Disconnected?;
    }
  }

  // the requests

  datatype Output = Delete(symbol: string, requestId: string) | Forwarded(symbol: string, requestId: string)

  /** The symbols a request concerns; an empty filter means all of them. */
  function Targets(symbols: set<string>, filter: string): set<string> {
    if filter == "" then symbols else symbols * {filter}
  }

  /** For each symbol in some order: its request, and the acknowledgement that it was forwarded. */
  function Requests(order: seq<string>, filter: string, requestId: string): seq<Output> {
    if order == [] then []
    else
      Requests(order[..|order| - 1], filter, requestId)
      + [Delete(order[|order| - 1], requestId), Forwarded(filter, requestId)]
  }

  predicate Distinct(order: seq<string>) {
    forall i, j :: 0 <= i < j < |order| ==> order[i] != order[j]
  }

  ghost predicate Covers(outputs: seq<Output>, targets: set<string>, filter: string, requestId: string) {
    exists order: seq<string> ::
      Distinct(order) && (forall s :: s in order <==> s in targets) && outputs == Requests(order, filter, requestId)
  }

  lemma {:induction false} CountRequests(order: seq<string>, filter: string, requestId: string, symbol: string)
    requires Distinct(order)
    ensures var m := multiset(Requests(order, filter, requestId));
            && m[Delete(symbol, requestId)] == (if symbol in order then 1 else 0)
            && m[Forwarded(filter, requestId)] == |order|
            && |Requests(order, filter, requestId)| == 2 * |order|
  {
    if order == [] {
    } else {
      var n := |order| - 1;
      CountRequests(order[..n], filter, requestId, symbol);
      assert Requests(order, filter, requestId)
          == Requests(order[..n], filter, requestId) + [Delete(order[n], requestId), Forwarded(filter, requestId)];
      assert order == order[..n] + [order[n]];
      var before := Requests(order[..n], filter, requestId);
      var d, a := Delete(order[n], requestId), Forwarded(filter, requestId);
      assert before + [d, a] == before + [d] + [a];
      assert multiset(before + [d] + [a]) == multiset(before) + multiset{d} + multiset{a};
      hide Requests;
    }
  }

  lemma NoTargets(symbols: set<string>, filter: string, requestId: string)
    ensures Targets(symbols - symbols, filter) == {} && Requests([], filter, requestId) == [] && Distinct([])
  {
  }

  /** Visiting one more symbol makes it a target unless the filter excludes it. */
  lemma NextTarget(symbols: set<string>, todo: set<string>, filter: string, symbol: string)
    requires symbol in todo && todo <= symbols
    ensures symbol !in Targets(symbols - todo, filter)
    ensures forall s :: s in Targets(symbols - (todo - {symbol}), filter)
                   <==> s in Targets(symbols - todo, filter) || (s == symbol && (filter == "" || symbol == filter))
  {
  }

  lemma NextRequests(order: seq<string>, filter: string, requestId: string, symbol: string)
    ensures Requests(order + [symbol], filter, requestId)
         == Requests(order, filter, requestId) + [Delete(symbol, requestId)] + [Forwarded(filter, requestId)]
  {
    assert (order + [symbol])[..|order|] == order;
  }

  lemma DistinctAppend(order: seq<string>, symbol: string)
    requires Distinct(order) && symbol !in order
    ensures Distinct(order + [symbol])
  {
  }

  lemma {:induction false} CountOrder(order: seq<string>, targets: set<string>)
    requires Distinct(order) && forall s :: s in order <==> s in targets
    ensures |order| == |targets|
  {
    if order == [] {
      assert targets == {};
    } else {
      var n := |order| - 1;
      assert order == order[..n] + [order[n]];
      CountOrder(order[..n], targets - {order[n]});
    }
  }

  /** Exactly one request for every target and none for any other symbol, and one acknowledgement for each. */
  lemma CancelsEachOnce(outputs: seq<Output>, targets: set<string>, filter: string, requestId: string, symbol: string)
    requires Covers(outputs, targets, filter, requestId)
    ensures multiset(outputs)[Delete(symbol, requestId)] == if symbol in targets then 1 else 0
    ensures multiset(outputs)[Forwarded(filter, requestId)] == |targets| && |outputs| == 2 * |targets|
  {
    var order: seq<string> :| Distinct(order) && (forall s :: s in order <==> s in targets)
                              && outputs == Requests(order, filter, requestId);
    CountRequests(order, filter, requestId, symbol);
    CountOrder(order, targets);
  }

  /** One request for a symbol that some event made known and that passes the filter, none for any other. */
  ghost function Deletes(events: seq<Event>, filter: string, symbol: string): nat {
    if (filter == "" || symbol == filter) && exists i :: 0 <= i < |events| && Introduces(events, i, symbol)
    then 1 else 0
  }

  /**
   Coverage.  After any run, an unfiltered cancel-all requests the cancellation of exactly the symbols
   ever made known, once each and acknowledged once each; a filter restricts it to that symbol.
   */
  lemma CancelAllCovers(events: seq<Event>, outputs: seq<Output>, filter: string, requestId: string, symbol: string)
    requires Covers(outputs, Targets(Run(INITIAL, events).symbols, filter), filter, requestId)
    ensures multiset(outputs)[Delete(symbol, requestId)] == Deletes(events, filter, symbol)
    ensures multiset(outputs)[Forwarded(filter, requestId)] == |Targets(Run(INITIAL, events).symbols, filter)|
  {
    KnownSymbols(events, symbol);
    CancelsEachOnce(outputs, Targets(Run(INITIAL, events).symbols, filter), filter, requestId, symbol);
  }

  // the stream object

  class OrderEntryClassic {
    var ready: bool
    var symbols: set<string>
    ghost var events: seq<Event>

    ghost predicate Valid()
      reads this
    {
      State(ready, symbols) == Run(INITIAL, events)
    }

    constructor ()
      ensures Valid() && events == []
    {
      ready, symbols, events := false, {}, [];
    }

    ghost method Record(e: Event)
      modifies `events
      ensures events == old(events) + [e]
      ensures Run(INITIAL, events) == Step(Run(INITIAL, old(events)), e)
    {
      events := events + [e];
      assert events[..|events| - 1] == old(events);
    }

    method OnReady()
      requires Valid()
      modifies this
      ensures Valid() && events == old(events) + [Ready]
    {
      Record(Ready);
      ready := true;
    }

    method OnDisconnected()
      requires Valid()
      modifies this
      ensures Valid() && events == old(events) + [Disconnected]
    {
      Record(Disconnected);
      ready := false;
    }

    /** A new order is refused while the stream is not ready. */
    method PlaceOrder(symbol: string) returns (accepted: bool)
      requires Valid()
      modifies this
      ensures Valid() && events == old(events) + [OrderPlace(symbol)] && accepted == old(ready)
    {
      Record(OrderPlace(symbol));
      if !ready {
        return false;
      }
      symbols := symbols + {symbol};
      accepted := true;
    }

    method OnOpenOrders(items: seq<OpenOrder>)
      requires Valid()
      modifies this
      ensures Valid() && events == old(events) + [OpenOrders(items)]
    {
      Record(OpenOrders(items));
      for i := 0 to |items|
        invariant symbols == old(symbols) + SymbolsOf(items[..i]) && ready == old(ready)
        invariant events == old(events) + [OpenOrders(items)]
      {
        assert items[..i + 1] == items[..i] + [items[i]];
        if items[i].clientOrderId != "" {
          symbols := symbols + {items[i].symbol};
        }
      }
      assert items[..|items|] == items;
    }

    /** Visits the known symbols in any order; it does not ask whether the stream is ready. */
    method VisitSymbols(filter: string, requestId: string) returns (outputs: seq<Output>)
      ensures Covers(outputs, Targets(symbols, filter), filter, requestId)
    {
      hide Targets, Requests, Distinct;
      outputs := [];
      var todo := symbols;
      ghost var order := [];
      NoTargets(symbols, filter, requestId);
      while todo != {}
        invariant todo <= symbols && outputs == Requests(order, filter, requestId) && Distinct(order)
        invariant forall s :: s in order <==> s in Targets(symbols - todo, filter)
        decreases |todo|
      {
        var symbol :| symbol in todo;
        NextTarget(symbols, todo, filter, symbol);
        todo := todo - {symbol};
        if filter != "" && symbol != filter {
          continue;
        }
        DistinctAppend(order, symbol);
        NextRequests(order, filter, requestId, symbol);
        outputs := outputs + [Delete(symbol, requestId)];
        outputs := outputs + [Forwarded(filter, requestId)];
        order := order + [symbol];
      }
      assert symbols - todo == symbols;
    }

    /** One request for every symbol ever made known that passes the filter, none for others, each acknowledged. */
    method CancelAllOrders(filter: string, requestId: string) returns (outputs: seq<Output>)
      requires Valid()
      ensures Covers(outputs, Targets(symbols, filter), filter, requestId)
      ensures forall symbol :: multiset(outputs)[Delete(symbol, requestId)] == Deletes(events, filter, symbol)
      ensures multiset(outputs)[Forwarded(filter, requestId)] == |Targets(symbols, filter)|
      ensures |outputs| == 2 * |Targets(symbols, filter)|
    {
      hide Covers, Deletes, Targets, Run;
      outputs := VisitSymbols(filter, requestId);
      forall symbol ensures multiset(outputs)[Delete(symbol, requestId)] == Deletes(events, filter, symbol) {
        CancelAllCovers(events, outputs, filter, requestId, symbol);
      }
      CancelsEachOnce(outputs, Targets(symbols, filter), filter, requestId, "");
    }
  }
}
