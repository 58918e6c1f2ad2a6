/**
 Fills on the user stream.  The exchange reports a trade twice, as an order update and as a "lite"
 trade; a setting decides which of the two is published.  A lite trade can only be published when the
 order management finds its order.
 */
module Fills {
  import opened Wrappers
  import DecimalText

  datatype Trade = Trade(
    id: int, symbol: string, clientOrderId: string, buy: bool, quantity: int, price: int, maker: bool)

  /** `found` tells whether the order management knows the order of a lite trade when it arrives. */
  datatype Event = OrderTradeUpdate(isTrade: bool, trade: Trade) | TradeLite(trade: Trade, found: bool)

  datatype Fill = Fill(externalTradeId: string, symbol: string, buy: bool, quantity: int, price: int, maker: bool)

  datatype Output = OrderUpdated(clientOrderId: string) | Traded(fill: Fill)

  function FillOf(t: Trade): Fill {
    Fill(DecimalText.Print(t.id), t.symbol, t.buy, t.quantity, t.price, t.maker)
  }

  function OutputsOf(lite: bool, e: Event): seq<Output> {
    match e
    case OrderTradeUpdate(isTrade, trade) =>
      [OrderUpdated(trade.clientOrderId)] + if isTrade && !lite then [Traded(FillOf(trade))] else []
    case TradeLite(trade, found) => if lite && found then [Traded(FillOf(trade))] else []
  }

  function Run(lite: bool, events: seq<Event>): seq<Output> {
    if events == [] then [] else Run(lite, events[..|events| - 1]) + OutputsOf(lite, events[|events| - 1])
  }

  /** The fills among the outputs. */
  function Published(outputs: seq<Output>): seq<Fill> {
    if outputs == [] then []
    else
      var last := outputs[|outputs| - 1];
      Published(outputs[..|outputs| - 1]) + if last.Traded? then [last.fill] else []
  }

  lemma {:induction false} PublishedConcat(a: seq<Output>, b: seq<Output>)
    ensures Published(a + b) == Published(a) + Published(b)
  {
    hide Published;
    PublishedNothing();
    if b == [] {
      assert a + b == a;
    } else {
      var init, last := b[..|b| - 1], b[|b| - 1];
      PublishedConcat(a, init);
      PublishedAppend(init, last);
      PublishedAppend(a + init, last);
      LastOfConcat(a, b);
    }
  }

  lemma PublishedNothing()
    ensures Published([]) == []
  {
  }

  lemma PublishedAppend(outputs: seq<Output>, o: Output)
    ensures Published(outputs + [o]) == Published(outputs) + if o.Traded? then [o.fill] else []
  {
    assert (outputs + [o])[..|outputs|] == outputs;
  }

  // what the exchange said

  /** The trades announced by order updates. */
  function Reports(events: seq<Event>): seq<Trade> {
    if events == [] then []
    else
      var last := events[|events| - 1];
      Reports(events[..|events| - 1]) + if last.OrderTradeUpdate? && last.isTrade then [last.trade] else []
  }

  /** The trades announced by lite trades, all of them or only those whose order was found. */
  function Lites(events: seq<Event>, onlyFound: bool): seq<Trade> {
    if events == [] then []
    else
      var last := events[|events| - 1];
      Lites(events[..|events| - 1], onlyFound)
      + if last.TradeLite? && (onlyFound ==> last.found) then [last.trade] else []
  }

  function FillsOf(trades: seq<Trade>): (r: seq<Fill>)
    ensures |r| == |trades|
  {
    seq(|trades|, i requires 0 <= i < |trades| => FillOf(trades[i]))
  }

  /** Each setting publishes exactly one of the two announcements, in order of arrival. */
  lemma {:induction false} PublishesOneKind(lite: bool, events: seq<Event>)
    ensures Published(Run(lite, events)) == FillsOf(if lite then Lites(events, true) else Reports(events))
  {
    if events == [] {
    } else {
      var n := |events| - 1;
      var outputs := OutputsOf(lite, events[n]);
      PublishesOneKind(lite, events[..n]);
      PublishedConcat(Run(lite, events[..n]), outputs);
      OneEvent(lite, events[n]);
      FillsAppend(if lite then Lites(events[..n], true) else Reports(events[..n]), events[n].trade);
      hide Published, OutputsOf, FillsOf;
    }
  }

  lemma FillsAppend(trades: seq<Trade>, t: Trade)
    ensures FillsOf(trades + [t]) == FillsOf(trades) + [FillOf(t)] && FillsOf(trades + []) == FillsOf(trades) + []
    ensures FillsOf([]) == []
  {
    assert trades + [] == trades;
  }

  lemma OneEvent(lite: bool, e: Event)
    ensures Published(OutputsOf(lite, e)) ==
            if (e.OrderTradeUpdate? && e.isTrade && !lite) || (e.TradeLite? && e.found && lite)
            then [FillOf(e.trade)] else []
  {
    var outputs := OutputsOf(lite, e);
    if |outputs| > 0 {
      PublishedOne(outputs[0]);
    }
    if |outputs| == 2 {
      PublishedConcat([outputs[0]], [outputs[1]]);
      PublishedOne(outputs[1]);
      assert outputs == [outputs[0]] + [outputs[1]];
    } else if |outputs| == 1 {
      assert outputs == [outputs[0]];
    }
  }

  lemma PublishedOne(o: Output)
    ensures Published([o]) == if o.Traded? then [o.fill] else []
  {
    assert [o][..0] == [];
  }

  // order updates

  /** The orders updated, in order. */
  function Updated(outputs: seq<Output>): seq<string> {
    if outputs == [] then []
    else
      var last := outputs[|outputs| - 1];
      Updated(outputs[..|outputs| - 1]) + if last.OrderUpdated? then [last.clientOrderId] else []
  }

  /** The orders the exchange sent updates of, with or without a trade. */
  function Orders(events: seq<Event>): seq<string> {
    if events == [] then []
    else
      var last := events[|events| - 1];
      Orders(events[..|events| - 1]) + if last.OrderTradeUpdate? then [last.trade.clientOrderId] else []
  }

  lemma {:induction false} UpdatedConcat(a: seq<Output>, b: seq<Output>)
    ensures Updated(a + b) == Updated(a) + Updated(b)
  {
    if b == [] {
      assert a + b == a;
    } else {
      var n := |b| - 1;
      UpdatedConcat(a, b[..n]);
      assert (a + b)[..|a + b| - 1] == a + b[..n];
    }
  }

  /** Whatever the setting, every order update is passed on once, in order of arrival. */
  lemma {:induction false} EveryOrderIsUpdated(lite: bool, events: seq<Event>)
    ensures Updated(Run(lite, events)) == Orders(events)
  {
    if events == [] {
    } else {
      var n := |events| - 1;
      EveryOrderIsUpdated(lite, events[..n]);
      UpdatedConcat(Run(lite, events[..n]), OutputsOf(lite, events[n]));
      UpdatedByOne(lite, events[n]);
      hide Updated, OutputsOf;
    }
  }

  lemma UpdatedByOne(lite: bool, e: Event)
    ensures Updated(OutputsOf(lite, e)) == if e.OrderTradeUpdate? then [e.trade.clientOrderId] else []
  {
    var outputs := OutputsOf(lite, e);
    if |outputs| > 0 {
      assert outputs[..1] == [outputs[0]] && [outputs[0]][..0] == [];
      assert Updated([outputs[0]]) == if outputs[0].OrderUpdated? then [outputs[0].clientOrderId] else [];
    }
    if |outputs| == 2 {
      assert Updated(outputs) == Updated([outputs[0]]);
    } else if |outputs| == 1 {
      assert outputs == [outputs[0]];
    }
  }

  // exactly once

  /** The exchange identifies a trade by its symbol and its id. */
  ghost predicate DistinctTrades(trades: seq<Trade>) {
    forall i, j :: 0 <= i < j < |trades| ==> trades[i].symbol != trades[j].symbol || trades[i].id != trades[j].id
  }

  ghost predicate DistinctFills(fills: seq<Fill>) {
    forall i, j :: 0 <= i < j < |fills| ==>
      fills[i].symbol != fills[j].symbol || fills[i].externalTradeId != fills[j].externalTradeId
  }

  /** Every one of the trades is announced once in each of the two ways, in any interleaving. */
  ghost predicate AnnouncedTwice(events: seq<Event>, trades: seq<Trade>) {
    multiset(Reports(events)) == multiset(trades) && multiset(Lites(events, false)) == multiset(trades)
  }

  function Without<T>(s: seq<T>, k: nat): seq<T>
    requires k < |s|
  {
    s[..k] + s[k + 1..]
  }

  lemma WithoutOne<T>(s: seq<T>, k: nat)
    requires k < |s|
    ensures multiset(Without(s, k)) == multiset(s) - multiset{s[k]}
  {
    assert s == s[..k] + [s[k]] + s[k + 1..];
  }

  /** The first element of a sequence, found in a rearrangement of it. */
  lemma FirstInSame<T>(a: seq<T>, b: seq<T>) returns (k: nat)
    requires a != [] && multiset(a) == multiset(b)
    ensures k < |b| && b[k] == a[0] && multiset(Without(a, 0)) == multiset(Without(b, k))
    ensures |Without(a, 0)| == |a| - 1 && Without(a, 0) == a[1..]
  {
    assert a[0] in multiset(b);
    k :| 0 <= k < |b| && b[k] == a[0];
    WithoutOne(a, 0);
    WithoutOne(b, k);
    assert Without(a, 0) == a[1..];
  }

  lemma {:induction false} FillsOfSame(a: seq<Trade>, b: seq<Trade>)
    requires multiset(a) == multiset(b)
    ensures multiset(FillsOf(a)) == multiset(FillsOf(b))
    decreases |a|
  {
    if a == [] {
      assert |multiset(b)| == 0;
    } else {
      hide FillsOf, Without;
      var k := FirstInSame(a, b);
      FillsOfWithout(a, 0);
      FillsOfWithout(b, k);
      FillsOfSame(Without(a, 0), Without(b, k));
      SameAfterAdding(FillsOf(a), FillsOf(b), FillOf(a[0]));
    }
  }

  lemma FillsOfWithout(trades: seq<Trade>, k: nat)
    requires k < |trades|
    ensures multiset(FillsOf(Without(trades, k))) == multiset(FillsOf(trades)) - multiset{FillOf(trades[k])}
    ensures FillOf(trades[k]) in FillsOf(trades)
  {
    var fills := FillsOf(trades);
    assert fills[k] == FillOf(trades[k]);
    assert FillsOf(Without(trades, k)) == Without(fills, k);
    WithoutOne(fills, k);
  }

  lemma SameAfterAdding<T>(a: seq<T>, b: seq<T>, x: T)
    requires x in a && x in b && multiset(a) - multiset{x} == multiset(b) - multiset{x}
    ensures multiset(a) == multiset(b)
  {
    assert multiset(a) == multiset(a) - multiset{x} + multiset{x};
    assert multiset(b) == multiset(b) - multiset{x} + multiset{x};
  }

  lemma DistinctTradesHaveDistinctFills(trades: seq<Trade>)
    requires DistinctTrades(trades)
    ensures DistinctFills(FillsOf(trades))
  {
    forall i, j | 0 <= i < j < |trades|
      ensures trades[i].symbol != trades[j].symbol
              || FillsOf(trades)[i].externalTradeId != FillsOf(trades)[j].externalTradeId
    {
      DecimalText.PrintInjective(trades[i].id, trades[j].id);
    }
  }

  /** The trades announced by lite trades whose order was not found. */
  function Missed(events: seq<Event>): seq<Trade> {
    if events == [] then []
    else
      var last := events[|events| - 1];
      Missed(events[..|events| - 1]) + if last.TradeLite? && !last.found then [last.trade] else []
  }

  /** Whether the order of a trade was known when its lite trade arrived. */
  ghost predicate FoundLite(events: seq<Event>, t: Trade) {
    exists i :: 0 <= i < |events| && events[i] == TradeLite(t, true)
  }

  lemma {:induction false} FoundOrMissed(events: seq<Event>)
    ensures multiset(Lites(events, false)) == multiset(Lites(events, true)) + multiset(Missed(events))
  {
    if events == [] {
    } else {
      hide Lites, Missed;
      var before := events[..|events| - 1];
      FoundOrMissed(before);
      var found, missed := OneLite(events);
      DealOut(Lites(before, false), Lites(before, true), Missed(before), found, missed);
    }
  }

  lemma OneLite(events: seq<Event>) returns (found: seq<Trade>, missed: seq<Trade>)
    requires events != []
    ensures var before := events[..|events| - 1];
            && Lites(events, false) == Lites(before, false) + (found + missed)
            && Lites(events, true) == Lites(before, true) + found && Missed(events) == Missed(before) + missed
  {
    var e := events[|events| - 1];
    found := if e.TradeLite? && e.found then [e.trade] else [];
    missed := if e.TradeLite? && !e.found then [e.trade] else [];
    assert found + missed == if e.TradeLite? then [e.trade] else [];
  }

  lemma DealOut<T>(all: seq<T>, a: seq<T>, b: seq<T>, x: seq<T>, y: seq<T>)
    requires multiset(all) == multiset(a) + multiset(b)
    ensures multiset(all + (x + y)) == multiset(a + x) + multiset(b + y)
  {
  }

  lemma {:induction false} NoneMissed(events: seq<Event>)
    ensures Missed(events) == [] <==> forall i :: 0 <= i < |events| && events[i].TradeLite? ==> events[i].found
  {
    if events == [] {
    } else {
      var n := |events| - 1;
      NoneMissed(events[..n]);
      assert forall i :: 0 <= i < n ==> events[..n][i] == events[i];
    }
  }

  lemma {:induction false} FoundLitesAreListed(events: seq<Event>, t: Trade)
    ensures t in Lites(events, true) <==> FoundLite(events, t)
  {
    if events == [] {
    } else {
      var n := |events| - 1;
      FoundLitesAreListed(events[..n], t);
      assert forall i :: 0 <= i < n ==> events[..n][i] == events[i];
      assert FoundLite(events, t) <==> FoundLite(events[..n], t) || events[n] == TradeLite(t, true);
    }
  }

  /** Among trades that are all different, the fills count what the trades count. */
  lemma {:induction false} FillsCountTrades(p: seq<Trade>, trades: seq<Trade>, t: Trade)
    requires DistinctTrades(trades) && t in trades && multiset(p) <= multiset(trades)
    ensures multiset(FillsOf(p))[FillOf(t)] == multiset(p)[t] == if t in p then 1 else 0
  {
    if p == [] {
    } else {
      var n := |p| - 1;
      assert p == p[..n] + [p[n]];
      FillsCountTrades(p[..n], trades, t);
      FillsAppend(p[..n], p[n]);
      assert p[n] in multiset(p);
      SameFillSameTrade(trades, p[n], t);
      DistinctCount(trades, t);
      hide FillOf, FillsOf;
    }
  }

  lemma SameFillSameTrade(trades: seq<Trade>, x: Trade, y: Trade)
    requires DistinctTrades(trades) && x in trades && y in trades
    ensures FillOf(x) == FillOf(y) <==> x == y
  {
    DecimalText.PrintInjective(x.id, y.id);
  }

  lemma DistinctCount(trades: seq<Trade>, t: Trade)
    requires DistinctTrades(trades) && t in trades
    ensures multiset(trades)[t] == 1
  {
    var k :| 0 <= k < |trades| && trades[k] == t;
    assert trades == trades[..k] + [t] + trades[k + 1..];
    assert t !in trades[..k] && t !in trades[k + 1..];
  }

  /** The trades a setting publishes are all of the announced ones, except for the missed lite trades. */
  lemma PublishedTrades(lite: bool, events: seq<Event>, trades: seq<Trade>) returns (p: seq<Trade>)
    requires AnnouncedTwice(events, trades)
    ensures Published(Run(lite, events)) == FillsOf(p)
    ensures multiset(p) + multiset(if lite then Missed(events) else []) == multiset(trades)
    ensures forall t :: t in trades ==> (t in p <==> (lite ==> FoundLite(events, t)))
  {
    PublishesOneKind(lite, events);
    FoundOrMissed(events);
    p := if lite then Lites(events, true) else Reports(events);
    forall t | t in trades ensures t in p <==> (lite ==> FoundLite(events, t)) {
      FoundLitesAreListed(events, t);
      assert t in multiset(trades);
    }
    hide FoundLite, Lites, Reports, Missed, Published, Run;
  }

  /** Where the only fill with some value stands. */
  lemma OnlyOne(fills: seq<Fill>, f: Fill) returns (k: nat)
    requires multiset(fills)[f] == 1
    ensures k < |fills| && fills[k] == f && forall j :: 0 <= j < |fills| && j != k ==> fills[j] != f
  {
    assert f in multiset(fills);
    k :| 0 <= k < |fills| && fills[k] == f;
    assert fills == fills[..k] + [f] + fills[k + 1..];
    assert f !in multiset(fills[..k]) && f !in multiset(fills[k + 1..]);
    forall j | 0 <= j < |fills| && j != k ensures fills[j] != f {
      assert fills[j] in fills[..k] || fills[j] in fills[k + 1..];
    }
  }

  /** A published fill that names a trade is the fill of that trade. */
  lemma NamesOne(lite: bool, events: seq<Event>, trades: seq<Trade>, t: Trade, f: Fill)
    requires DistinctTrades(trades) && AnnouncedTwice(events, trades) && t in trades
    requires f in Published(Run(lite, events)) && f.symbol == t.symbol && f.externalTradeId == DecimalText.Print(t.id)
    ensures f == FillOf(t)
  {
    hide Published, Run, AnnouncedTwice;
    PublishedIsAnnounced(lite, events, trades, f);
    var u :| u in trades && f == FillOf(u);
    DecimalText.PrintInjective(t.id, u.id);
  }

  lemma PublishedIsAnnounced(lite: bool, events: seq<Event>, trades: seq<Trade>, f: Fill)
    requires AnnouncedTwice(events, trades) && f in Published(Run(lite, events))
    ensures exists t :: t in trades && f == FillOf(t)
  {
    hide FoundLite, Missed, Published, Run, FillOf;
    var p := PublishedTrades(lite, events, trades);
    var i :| 0 <= i < |p| && f == FillsOf(p)[i];
    assert p[i] in multiset(p);
    assert p[i] in multiset(trades);
  }

  /** Nothing but announced trades is published, each with its own symbol, side, quantity, price and maker flag. */
  lemma OnlyTradesArePublished(lite: bool, events: seq<Event>, trades: seq<Trade>, f: Fill)
    requires AnnouncedTwice(events, trades) && f in Published(Run(lite, events))
    ensures exists t ::
              && t in trades && f.symbol == t.symbol && f.externalTradeId == DecimalText.Print(t.id)
              && f.buy == t.buy && f.quantity == t.quantity && f.price == t.price && f.maker == t.maker
  {
    PublishedIsAnnounced(lite, events, trades, f);
    hide Published, Run, AnnouncedTwice;
    var t :| t in trades && f == FillOf(t);
  }

  /**
   Every trade is published exactly once, with its own side, quantity, price and maker flag -- except that
   with lite trades as the source it is published if and only if its order is found when its lite trade
   arrives.  A trade is recognized by its symbol and its printed id.
   */
  lemma EachTradeOnce(lite: bool, events: seq<Event>, trades: seq<Trade>, t: Trade)
    requires DistinctTrades(trades) && AnnouncedTwice(events, trades) && t in trades
    ensures var fills := Published(Run(lite, events));
            if lite ==> FoundLite(events, t) then
              exists k ::
                && 0 <= k < |fills| && fills[k].symbol == t.symbol
                && fills[k].externalTradeId == DecimalText.Print(t.id)
                && fills[k].buy == t.buy && fills[k].quantity == t.quantity && fills[k].price == t.price
                && fills[k].maker == t.maker
                && forall j :: 0 <= j < |fills| && j != k ==>
                     fills[j].symbol != t.symbol || fills[j].externalTradeId != DecimalText.Print(t.id)
            else
              forall j :: 0 <= j < |fills| ==>
                fills[j].symbol != t.symbol || fills[j].externalTradeId != DecimalText.Print(t.id)
  {
    var fills := Published(Run(lite, events));
    PublishedOnce(lite, events, trades, t);
    hide Published, Run, AnnouncedTwice, FoundLite, DistinctTrades, FillOf;
    forall j | 0 <= j < |fills| && fills[j].symbol == t.symbol && fills[j].externalTradeId == DecimalText.Print(t.id)
      ensures fills[j] == FillOf(t)
    {
      NamesOne(lite, events, trades, t, fills[j]);
    }
    if lite ==> FoundLite(events, t) {
      var k := OnlyOne(fills, FillOf(t));
      FieldsOf(t);
    }
  }

  lemma FieldsOf(t: Trade)
    ensures var f := FillOf(t);
            && f.symbol == t.symbol && f.externalTradeId == DecimalText.Print(t.id)
            && f.buy == t.buy && f.quantity == t.quantity && f.price == t.price && f.maker == t.maker
  {
  }

  lemma PublishedOnce(lite: bool, events: seq<Event>, trades: seq<Trade>, t: Trade)
    requires DistinctTrades(trades) && AnnouncedTwice(events, trades) && t in trades
    ensures (lite ==> FoundLite(events, t)) ==> multiset(Published(Run(lite, events)))[FillOf(t)] == 1
    ensures lite && !FoundLite(events, t) ==> FillOf(t) !in Published(Run(lite, events))
  {
    hide FoundLite, Missed, Published, Run, FillOf, DistinctTrades;
    var p := PublishedTrades(lite, events, trades);
    FillsCountTrades(p, trades, t);
  }

  /** Whether the published fills are all the trades, each exactly once. */
  ghost predicate ExactlyOnce(fills: seq<Fill>, trades: seq<Trade>) {
    multiset(fills) == multiset(FillsOf(trades)) && DistinctFills(FillsOf(trades))
  }

  /**
   All trades are published exactly once: always when order updates are the source, and when lite
   trades are the source if and only if the order of every lite trade is found.
   */
  lemma AllTradesOnce(lite: bool, events: seq<Event>, trades: seq<Trade>)
    requires DistinctTrades(trades) && AnnouncedTwice(events, trades)
    ensures ExactlyOnce(Published(Run(lite, events)), trades)
            <==> (lite ==> forall i :: 0 <= i < |events| && events[i].TradeLite? ==> events[i].found)
  {
    hide Published, Run, FoundLite;
    var p := PublishedTrades(lite, events, trades);
    DistinctTradesHaveDistinctFills(trades);
    NoneMissed(events);
    if lite && Missed(events) != [] {
      assert |multiset(p)| < |multiset(trades)|;
      assert |multiset(FillsOf(p))| < |multiset(FillsOf(trades))|;
    } else {
      FillsOfSame(p, trades);
    }
  }

  function Total(fills: seq<Fill>): int {
    if fills == [] then 0 else fills[0].quantity + Total(fills[1..])
  }

  lemma {:induction false} TotalRemove(fills: seq<Fill>, k: nat)
    requires k < |fills|
    ensures Total(fills) == fills[k].quantity + Total(Without(fills, k))
  {
    var rest := Without(fills, k);
    if k == 0 {
      assert rest == fills[1..];
    } else {
      TotalRemove(fills[1..], k - 1);
      assert rest[1..] == Without(fills[1..], k - 1);
    }
  }

  lemma {:induction false} TotalOfSame(a: seq<Fill>, b: seq<Fill>)
    requires multiset(a) == multiset(b)
    ensures Total(a) == Total(b)
    decreases |a|
  {
    if a == [] {
      assert |multiset(b)| == 0;
    } else {
      var k := FirstInSame(a, b);
      TotalRemove(b, k);
      TotalOfSame(a[1..], Without(b, k));
    }
  }

  lemma {:induction false} TotalConcat(a: seq<Fill>, b: seq<Fill>)
    ensures Total(a + b) == Total(a) + Total(b)
  {
    if a == [] {
      assert a + b == b;
    } else {
      TotalConcat(a[1..], b);
      assert (a + b)[1..] == a[1..] + b;
    }
  }

  /** What a number of trades traded. */
  function QuantityOf(trades: seq<Trade>): int {
    if trades == [] then 0 else trades[0].quantity + QuantityOf(trades[1..])
  }

  lemma {:induction false} QuantityIsTotal(trades: seq<Trade>)
    ensures Total(FillsOf(trades)) == QuantityOf(trades)
  {
    if trades == [] {
    } else {
      QuantityIsTotal(trades[1..]);
      assert FillsOf(trades)[1..] == FillsOf(trades[1..]);
    }
  }

  /**
   The filled quantity is conserved in every interleaving: what is published and what is missed by
   lite trades without an order add up to what was traded.
   */
  lemma QuantityIsConserved(lite: bool, events: seq<Event>, trades: seq<Trade>)
    requires AnnouncedTwice(events, trades)
    ensures Total(Published(Run(lite, events))) + QuantityOf(if lite then Missed(events) else []) == QuantityOf(trades)
  {
    hide Published, Run, FoundLite, Missed, Total, QuantityOf, FillsOf;
    var p := PublishedTrades(lite, events, trades);
    var missed := if lite then Missed(events) else [];
    TotalOfParts(p, missed, trades);
    QuantityIsTotal(missed);
    QuantityIsTotal(trades);
  }

  lemma TotalOfParts(a: seq<Trade>, b: seq<Trade>, trades: seq<Trade>)
    requires multiset(a) + multiset(b) == multiset(trades)
    ensures Total(FillsOf(a)) + Total(FillsOf(b)) == Total(FillsOf(trades))
  {
    hide Total, FillOf, FillsOf;
    FillsConcat(a, b);
    FillsOfSame(a + b, trades);
    TotalOfSame(FillsOf(a + b), FillsOf(trades));
    TotalConcat(FillsOf(a), FillsOf(b));
  }

  lemma FillsConcat(a: seq<Trade>, b: seq<Trade>)
    ensures FillsOf(a + b) == FillsOf(a) + FillsOf(b)
  {
  }

  // the stream object

  class DropCopyClassic {
    const tradeLite: bool
    ghost var events: seq<Event>
    ghost var outputs: seq<Output>

    ghost predicate Valid()
      reads this
    {
      outputs == Run(tradeLite, events)
    }

    constructor (tradeLite: bool)
      ensures this.tradeLite == tradeLite && Valid() && events == []
    {
      this.tradeLite := tradeLite;
      events, outputs := [], [];
    }

    method OnOrderTradeUpdate(isTrade: bool, trade: Trade)
      requires Valid()
      modifies this
      ensures Valid() && events == old(events) + [OrderTradeUpdate(isTrade, trade)]
      ensures outputs == old(outputs) + [OrderUpdated(trade.clientOrderId)]
                         + if isTrade && !tradeLite then [Traded(FillOf(trade))] else []
    {
      ghost var before := events;
      events := events + [OrderTradeUpdate(isTrade, trade)];
      assert events[..|events| - 1] == before;
      outputs := outputs + [OrderUpdated(trade.clientOrderId)];
      if !isTrade {
        return;
      }
      if tradeLite {
        return;
      }
      outputs := outputs + [Traded(FillOf(trade))];
    }

    method OnTradeLite(trade: Trade, found: bool)
      requires Valid()
      modifies this
      ensures Valid() && events == old(events) + [TradeLite(trade, found)]
      ensures outputs == old(outputs) + if tradeLite && found then [Traded(FillOf(trade))] else []
    {
      ghost var before := events;
      events := events + [TradeLite(trade, found)];
      assert events[..|events| - 1] == before;
      if !tradeLite {
        return;
      }
      if found {
        outputs := outputs + [Traded(FillOf(trade))];
      }
    }
  }
}
