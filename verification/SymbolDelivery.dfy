/**
 What the market-data streams do: when a stream is ready, what a timer sends, that the queue is sent in
 the end, and which symbols are subscribed at all.
 */
module SymbolDelivery {
  import opened Wrappers
  import opened SymbolSlices

  // readiness

  /** Event k brings the stream up, which exists by then, and nothing takes it down afterwards. */
  ghost predicate UpFrom(c: Config, events: seq<Event>, kind: Kind, i: nat, k: nat)
    requires c.Valid() && k < |events|
  {
    && events[k] == OnStream(kind, i, Up) && i < |Layer(Run(c, INITIAL, events[..k]), kind)|
    && forall j :: k < j < |events| ==> events[j] != OnStream(kind, i, Down)
  }

  /** The socket of the stream came up after the stream was created, and has not gone down since. */
  ghost predicate IsUp(c: Config, events: seq<Event>, kind: Kind, i: nat)
    requires c.Valid()
  {
    exists k :: 0 <= k < |events| && UpFrom(c, events, kind, i, k)
  }

  /** What an event changes about the readiness of a stream. */
  lemma ReadyStep(c: Config, s: State, e: Event, kind: Kind, i: nat)
    requires c.Valid()
    ensures var t := Step(c, s, e);
            if i < |Layer(s, kind)| then
              && i < |Layer(t, kind)|
              && Layer(t, kind)[i].ready ==
                 if e == OnStream(kind, i, Up) then true
                 else if e == OnStream(kind, i, Down) then false
                 else Layer(s, kind)[i].ready
            else i < |Layer(t, kind)| ==> !Layer(t, kind)[i].ready
  {
    match e {
      case OnStream(_, _, _) =>
      case ExchangeInfo(items) =>
        hide Included;
        LearnReady(c, s, Included(items), false, kind, i);
        hide Learn;
      case ClientSubscribe(symbols) =>
        LearnReady(c, s, symbols, true, kind, i);
        hide Learn;
    }
  }

  lemma LearnReady(c: Config, s: State, symbols: seq<string>, always: bool, kind: Kind, i: nat)
    requires c.Valid()
    ensures var t := Learn(c, s, symbols, always);
            if i < |Layer(s, kind)| then i < |Layer(t, kind)| && Layer(t, kind)[i].ready == Layer(s, kind)[i].ready
            else i < |Layer(t, kind)| ==> !Layer(t, kind)[i].ready
  {
    hide Unseen, Elements;
    var added := Unseen(s.known, symbols);
    UpdateReady(c, kind, Layer(s, kind), s.all + added, |s.all|, i);
    hide UpdateLayer;
  }

  lemma UpdateReady(c: Config, kind: Kind, streams: seq<Stream>, all: seq<string>, start: nat, i: nat)
    requires c.Valid()
    ensures var r := UpdateLayer(c, kind, streams, all, start);
            if i < |streams| then i < |r| && r[i].ready == streams[i].ready
            else i < |r| ==> !r[i].ready
  {
    hide Slice, Batch, Channels, NumSlices;
    var grown := Ensure(c, kind, streams, NumSlices(c.max, |all|));
    if i < |streams| {
      assert grown[i] == grown[..|streams|][i];
    }
  }

  /** After any run a stream is ready if and only if its socket is up. */
  lemma {:induction false} ReadyExactly(c: Config, events: seq<Event>, kind: Kind, i: nat)
    requires c.Valid() && i < |Layer(Run(c, INITIAL, events), kind)|
    ensures Layer(Run(c, INITIAL, events), kind)[i].ready <==> IsUp(c, events, kind, i)
  {
    hide Step, Layer;
    if events == [] {
      assert Run(c, INITIAL, events) == INITIAL;
      NoStreams(kind);
    } else {
      var n := |events| - 1;
      var before := events[..n];
      var s := Run(c, INITIAL, before);
      ReadyStep(c, s, events[n], kind, i);
      UpStep(c, events, kind, i);
      if i < |Layer(s, kind)| {
        ReadyExactly(c, before, kind, i);
      } else {
        UpIsThere(c, before, kind, i);
      }
    }
  }

  lemma NoStreams(kind: Kind)
    ensures Layer(INITIAL, kind) == []
  {
  }

  lemma UpStep(c: Config, events: seq<Event>, kind: Kind, i: nat)
    requires c.Valid() && events != []
    ensures var n := |events| - 1;
            IsUp(c, events, kind, i) <==>
              || (events[n] == OnStream(kind, i, Up) && i < |Layer(Run(c, INITIAL, events[..n]), kind)|)
              || (events[n] != OnStream(kind, i, Down) && IsUp(c, events[..n], kind, i))
  {
    hide UpFrom;
    var n := |events| - 1;
    LastUp(c, events, kind, i);
    forall k | 0 <= k < n
      ensures UpFrom(c, events, kind, i, k) <==>
              UpFrom(c, events[..n], kind, i, k) && events[n] != OnStream(kind, i, Down)
    {
      PrefixUp(c, events, kind, i, k);
    }
  }

  lemma LastUp(c: Config, events: seq<Event>, kind: Kind, i: nat)
    requires c.Valid() && events != []
    ensures var n := |events| - 1;
            UpFrom(c, events, kind, i, n)
            <==> events[n] == OnStream(kind, i, Up) && i < |Layer(Run(c, INITIAL, events[..n]), kind)|
  {
    hide Run, Layer;
  }

  lemma PrefixUp(c: Config, events: seq<Event>, kind: Kind, i: nat, k: nat)
    requires c.Valid() && k < |events| - 1
    ensures var n := |events| - 1;
            UpFrom(c, events, kind, i, k)
            <==> UpFrom(c, events[..n], kind, i, k) && events[n] != OnStream(kind, i, Down)
  {
    hide Run, Layer;
    var before := events[..|events| - 1];
    assert events[..k] == before[..k];
    assert forall j :: 0 <= j < |before| ==> before[j] == events[j];
  }

  /** Streams are only ever added, so a stream that does not exist has never been up. */
  lemma {:induction false} UpIsThere(c: Config, events: seq<Event>, kind: Kind, i: nat)
    requires c.Valid()
    ensures IsUp(c, events, kind, i) ==> i < |Layer(Run(c, INITIAL, events), kind)|
  {
    if events == [] {
    } else {
      hide Step, Layer;
      var n := |events| - 1;
      var s := Run(c, INITIAL, events[..n]);
      ReadyStep(c, s, events[n], kind, i);
      UpIsThere(c, events[..n], kind, i);
      UpStep(c, events, kind, i);
    }
  }

  // what is sent

  /**
   A timer of a ready stream sends the first messages of its queue, as many as are allowed; a stream that
   is not ready sends nothing.
   */
  lemma TickSends(c: Config, s: State, kind: Kind, i: nat, allowed: nat)
    requires c.Valid() && i < |Layer(s, kind)|
    ensures var before := Layer(s, kind)[i];
            var t := Step(c, s, OnStream(kind, i, Tick(allowed)));
            && |Layer(t, kind)| == |Layer(s, kind)|
            && var after := Layer(t, kind)[i];
               var sent := if !before.ready then 0 else if allowed < |before.queue| then allowed else |before.queue|;
               && |after.sent| == |before.sent| + sent && after.sent[..|before.sent|] == before.sent
               && after.sent + after.queue == before.sent + before.queue && after.ready == before.ready
  {
  }

  /** Events of streams other than a disconnect of this one. */
  predicate Undisturbed(e: Event, kind: Kind, i: nat) {
    e.OnStream? && e != OnStream(kind, i, Down)
  }

  /** How many messages of a stream the rate limiter allows in a run. */
  function Allowed(events: seq<Event>, kind: Kind, i: nat): nat {
    if events == [] then 0
    else
      var last := events[|events| - 1];
      Allowed(events[..|events| - 1], kind, i)
      + if last.OnStream? && last.kind == kind && last.index == i && last.input.Tick? then last.input.allowed else 0
  }

  lemma UndisturbedStep(c: Config, s: State, e: Event, kind: Kind, i: nat)
    requires c.Valid() && i < |Layer(s, kind)| && Layer(s, kind)[i].ready && Undisturbed(e, kind, i)
    ensures var t := Step(c, s, e);
            && t.all == s.all && |Layer(t, kind)| == |Layer(s, kind)|
            && (e.kind != kind || e.index != i || e.input.Up? ==> Layer(t, kind)[i] == Layer(s, kind)[i])
  {
  }

  lemma {:induction false} QueueShrinks(c: Config, s: State, events: seq<Event>, kind: Kind, i: nat)
    requires c.Valid() && i < |Layer(s, kind)| && Layer(s, kind)[i].ready
    requires forall j :: 0 <= j < |events| ==> Undisturbed(events[j], kind, i)
    ensures var t := Run(c, s, events);
            && t.all == s.all && |Layer(t, kind)| == |Layer(s, kind)|
            && var before, after := Layer(s, kind)[i], Layer(t, kind)[i];
               && after.ready && after.sent + after.queue == before.sent + before.queue
               && |after.queue| ==
                  if Allowed(events, kind, i) < |before.queue| then |before.queue| - Allowed(events, kind, i) else 0
  {
    hide Step, Layer;
    if events == [] {
    } else {
      var n := |events| - 1;
      var e := events[n];
      var t := Run(c, s, events[..n]);
      QueueShrinks(c, s, events[..n], kind, i);
      if e.kind == kind && e.index == i && e.input.Tick? {
        TickSends(c, t, kind, i, e.input.allowed);
        UndisturbedStep(c, t, e, kind, i);
      } else {
        UndisturbedStep(c, t, e, kind, i);
      }
    }
  }

  /** On which channels a stream of each layer subscribes its symbols. */
  lemma ChannelsExactly(c: Config, kind: Kind, channel: Channel)
    ensures channel in Channels(c, kind) <==>
              match channel
              case BookTicker => kind == Primary || kind == Secondary
              case Trade => kind == Primary && c.tradeDetails
              case Depth => (kind == Primary || kind == Secondary) && c.depth
              case AggTrade => kind == Third && !c.tradeDetails
              case MarkPrice => kind == Third
              case MiniTicker => kind == Third
              case Kline => kind == Third && c.timeSeries
  {
    match kind {
      case Primary =>
      case Secondary =>
      case Third =>
    }
  }

  /**
   What is queued is sent.  After any run, let a ready stream stay connected and get timers whose
   allowances add up to its queue, in any interleaving with the events of other streams.  Then its queue
   is empty, and the messages sent on its connection subscribe, on each of its channels, exactly its slice
   and nothing on any other channel.
   */
  lemma QueueIsSent(c: Config, events: seq<Event>, more: seq<Event>, kind: Kind, i: nat, channel: Channel)
    requires c.Valid()
    ensures var s := Run(c, INITIAL, events);
            var t := Run(c, s, more);
            IsUp(c, events, kind, i) && (forall j :: 0 <= j < |more| ==> Undisturbed(more[j], kind, i)) ==>
              && i < |Layer(s, kind)| && i < |Layer(t, kind)|
              && (Allowed(more, kind, i) >= |Layer(s, kind)[i].queue| ==>
                    && Layer(t, kind)[i].queue == []
                    && Subscribed(Layer(t, kind)[i].sent, channel)
                       == if channel in Channels(c, kind) then Slice(t.all, c.max, i, 0) else [])
  {
    hide Run, IsUp, Undisturbed, Allowed, Channels, Slice, Subscribed, Inv, Layer;
    var s := Run(c, INITIAL, events);
    if IsUp(c, events, kind, i) && forall j :: 0 <= j < |more| ==> Undisturbed(more[j], kind, i) {
      UpIsThere(c, events, kind, i);
      ReadyExactly(c, events, kind, i);
      QueueShrinks(c, s, more, kind, i);
      SubscriptionsAreComplete(c, events);
      CoversStream(c, s, kind, i, channel);
      var t := Layer(Run(c, s, more), kind)[i];
      assert t.queue == [] ==> t.sent + t.queue == t.sent;
    }
  }

  lemma CoversStream(c: Config, s: State, kind: Kind, i: nat, channel: Channel)
    requires c.Valid() && Inv(c, s) && i < |Layer(s, kind)| && Layer(s, kind)[i].ready
    ensures Subscribed(Layer(s, kind)[i].sent + Layer(s, kind)[i].queue, channel)
            == if channel in Channels(c, kind) then Slice(s.all, c.max, i, 0) else []
  {
    assert LayerCovers(c, kind, Layer(s, kind), s.all);
    assert Covers(c, kind, Layer(s, kind)[i], Slice(s.all, c.max, i, 0));
    hide Layer, Slice, Subscribed, Channels;
  }

  /**
   How many streams there are.  After any run the first and the third layer, and the second if it is
   enabled, have the least number of streams that can hold all symbols; a disabled second layer has none.
   */
  lemma LayersExactly(c: Config, events: seq<Event>)
    requires c.Valid()
    ensures var s := Run(c, INITIAL, events);
            && |s.primary| == |s.third| && |s.secondary| == (if c.secondary then |s.primary| else 0)
            && |s.all| <= |s.primary| * c.max < |s.all| + c.max
  {
    hide Run, Inv, NumSlices;
    var s := Run(c, INITIAL, events);
    SubscriptionsAreComplete(c, events);
    LayerSizes(c, s);
    LeastSlices(c.max, |s.all|);
  }

  lemma LeastSlices(max: nat, n: nat)
    requires max > 0
    ensures n <= NumSlices(max, n) * max < n + max
  {
    QuotientBounds(n + max - 1, max);
  }

  lemma LayerSizes(c: Config, s: State)
    requires c.Valid() && Inv(c, s)
    ensures |s.primary| == |s.third| == NumSlices(c.max, |s.all|)
    ensures |s.secondary| == if c.secondary then NumSlices(c.max, |s.all|) else 0
  {
    assert LayerCovers(c, Primary, Layer(s, Primary), s.all);
    assert LayerCovers(c, Secondary, Layer(s, Secondary), s.all);
    assert LayerCovers(c, Third, Layer(s, Third), s.all);
    hide Covers, NumSlices;
  }

  // which symbols

  /** The text in lower case: letters of the first alphabet differ by 32, everything else is kept. */
  ghost predicate IsLowerOf(lower: string, s: string) {
    && |lower| == |s|
    && forall k :: 0 <= k < |s| ==>
         lower[k] as int == s[k] as int + if 65 <= s[k] as int <= 90 then 32 else 0
  }

  /** An event names a symbol: the exchange lists it, in any case, and does not discard it, or a client wants it. */
  ghost predicate Names(e: Event, symbol: string) {
    || (e.ExchangeInfo? &&
         exists k :: 0 <= k < |e.items| && !e.items[k].discard && IsLowerOf(symbol, e.items[k].symbol))
    || (e.ClientSubscribe? && symbol in e.symbols)
  }

  lemma LowerCaseExactly(lower: string, s: string)
    ensures lower == LowerCase(s) <==> IsLowerOf(lower, s)
  {
    if IsLowerOf(lower, s) {
      forall k | 0 <= k < |s| ensures lower[k] == LowerCase(s)[k] {
      }
    }
  }

  lemma {:induction false} IncludedExactly(items: seq<Item>, symbol: string)
    ensures symbol in Included(items) <==>
            exists k :: 0 <= k < |items| && !items[k].discard && IsLowerOf(symbol, items[k].symbol)
  {
    if items == [] {
    } else {
      var n := |items| - 1;
      hide LowerCase, IsLowerOf;
      IncludedExactly(items[..n], symbol);
      LowerCaseExactly(symbol, items[n].symbol);
      assert forall k :: 0 <= k < n ==> items[..n][k] == items[k];
      if k :| 0 <= k < |items| && !items[k].discard && IsLowerOf(symbol, items[k].symbol) {
        assert k < n ==> items[..n][k] == items[k];
      }
    }
  }

  lemma LearnExactly(c: Config, s: State, symbols: seq<string>, always: bool)
    requires c.Valid() && Inv(c, s)
    ensures var t := Learn(c, s, symbols, always);
            s.all <= t.all && forall x :: x in t.all <==> x in s.all || x in symbols
  {
    hide UpdateLayer, LayerCovers, Unseen, Distinct;
    var added := Unseen(s.known, symbols);
    UnseenIsFresh(s.known, symbols);
    forall x ensures x in s.all + added <==> x in s.all || x in symbols {
      assert x in s.known + Elements(added) <==> x in s.known + Elements(symbols);
    }
    if added == [] {
      assert s.all + added == s.all;
    }
  }

  lemma StepNames(c: Config, s: State, e: Event, symbol: string)
    requires c.Valid() && Inv(c, s)
    ensures s.all <= Step(c, s, e).all
    ensures symbol in Step(c, s, e).all <==> symbol in s.all || Names(e, symbol)
  {
    match e {
      case ExchangeInfo(items) =>
        LearnExactly(c, s, Included(items), false);
        IncludedExactly(items, symbol);
      case ClientSubscribe(symbols) => LearnExactly(c, s, symbols, true);
      case OnStream(_, _, _) =>
    }
    hide Learn, Inv, IsLowerOf, Included, Deliver;
  }

  /** After any run the symbols are exactly those some event has named, and they keep their places. */
  lemma {:induction false} SymbolsExactly(c: Config, events: seq<Event>, symbol: string)
    requires c.Valid()
    ensures symbol in Run(c, INITIAL, events).all <==> exists k :: 0 <= k < |events| && Names(events[k], symbol)
    ensures events != [] ==> Run(c, INITIAL, events[..|events| - 1]).all <= Run(c, INITIAL, events).all
  {
    hide Step, Names, Inv;
    if events == [] {
    } else {
      var n := |events| - 1;
      SymbolsExactly(c, events[..n], symbol);
      SubscriptionsAreComplete(c, events[..n]);
      StepNames(c, Run(c, INITIAL, events[..n]), events[n], symbol);
      if k :| 0 <= k < |events| && Names(events[k], symbol) {
        assert k < n ==> events[..n][k] == events[k];
      }
      if k :| 0 <= k < n && Names(events[..n][k], symbol) {
        assert events[..n][k] == events[k];
      }
    }
  }
}
