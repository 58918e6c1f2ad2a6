/**
 The objects behind the symbol slices: the shared symbols, the market-data streams, and the controller
 that creates streams and tells them about new symbols.
 */
module SymbolStreams {
  import opened SymbolSlices

  class Symbols {
    var all: seq<string>
    var known: set<string>

    constructor ()
      ensures all == [] && known == {}
    {
      all, known := [], {};
    }

    /** Returns the number of slices and the old number of symbols. */
    method Append(max: nat, symbols: seq<string>) returns (size: nat, startFrom: nat)
      requires max > 0
      modifies `all
      ensures all == old(all) + symbols && size == NumSlices(max, |all|) && startFrom == |old(all)|
    {
      startFrom := |all|;
      all := all + symbols;
      size := NumSlices(max, |all|);
    }

    /** Keeps the symbols that were not seen before, and remembers them. */
    method Emplace(symbols: seq<string>) returns (added: seq<string>)
      modifies `known
      ensures added == Unseen(old(known), symbols)
      ensures known == old(known) + Elements(added)
    {
      added := [];
      for i := 0 to |symbols|
        invariant added == Unseen(old(known), symbols[..i])
        invariant known == old(known) + Elements(added)
      {
        assert symbols[..i + 1][..i] == symbols[..i];
        if symbols[i] !in known {
          known := known + {symbols[i]};
          added := added + [symbols[i]];
        }
      }
      assert symbols[..|symbols|] == symbols;
    }
  }

  class MarketStream {
    const config: Config
    const kind: Kind
    const index: nat
    const symbols: Symbols
    var ready: bool
    var queue: seq<Message>
    ghost var sent: seq<Message>

    ghost function View(): Stream
      reads this
    {
      Stream(ready, queue, sent)
    }

    constructor (config: Config, kind: Kind, index: nat, symbols: Symbols)
      ensures this.config == config && this.kind == kind && this.index == index && this.symbols == symbols
      ensures View() == UNCONNECTED
    {
      this.config, this.kind, this.index, this.symbols := config, kind, index, symbols;
      ready, queue, sent := false, [], [];
    }

    method Push(channel: Channel, symbols: seq<string>)
      modifies `queue
      ensures queue == old(queue) + [Message(channel, symbols)]
    {
      queue := queue + [Message(channel, symbols)];
    }

    method SubscribeSymbols(symbols: seq<string>)
      modifies `queue
      ensures View() == Enqueue(config, kind, old(View()), symbols)
    {
      if symbols == [] {
        return;
      }
      ghost var before := queue;
      BatchOfChannels(config, kind, symbols);
      hide Batch, Channels;
      if kind == Third {
        SubscribeThird(symbols);
      } else {
        Push(BookTicker, symbols);
        if kind == Primary && config.tradeDetails {
          Push(Trade, symbols);
        }
        if config.depth {
          Push(Depth, symbols);
        }
      }
      assert queue == before + Batch(Channels(config, kind), symbols);
    }

    method SubscribeThird(symbols: seq<string>)
      requires kind == Third
      modifies `queue
      ensures queue == old(queue) + Batch(Channels(config, kind), symbols)
    {
      BatchOfChannels(config, kind, symbols);
      hide Batch, Channels;
      if !config.tradeDetails {
        Push(AggTrade, symbols);
      }
      Push(MarkPrice, symbols);
      Push(MiniTicker, symbols);
      if config.timeSeries {
        Push(Kline, symbols);
      }
    }

    method SubscribeSlice(start: nat)
      modifies `queue
      ensures View() == SubscribeFrom(config, kind, old(View()), index, symbols.all, start)
    {
      if ready {
        SubscribeSymbols(Slice(symbols.all, config.max, index, start));
      }
    }

    method OnReady()
      modifies this
      ensures View() == SymbolSlices.OnReady(config, kind, old(View()), index, symbols.all)
    {
      ready, sent := true, [];
      SubscribeSlice(0);
    }

    method OnDisconnected()
      modifies this
      ensures View() == SymbolSlices.OnDisconnected(old(View()))
    {
      ready, queue, sent := false, [], [];
    }

    method OnInput(input: Input)
      modifies this
      ensures View() == Deliver(config, kind, old(View()), index, symbols.all, input)
    {
      match input {
        case Up =>
          if !ready {
            OnReady();
          }
        case Down => OnDisconnected();
        case Tick(allowed) => OnTimer(allowed);
      }
    }

    /** Sends the queue from the front while the rate limiter allows it. */
    method OnTimer(allowed: nat)
      modifies this
      ensures View() == SymbolSlices.OnTimer(old(View()), allowed)
      ensures ready == old(ready) && sent + queue == old(sent + queue)
      ensures |sent| == |old(sent)| + if !ready then 0 else if allowed < |old(queue)| then allowed else |old(queue)|
    {
      if ready {
        var n := 0;
        while n < allowed && queue != []
          invariant n <= allowed && n <= |old(queue)|
          invariant ready && sent == old(sent) + old(queue)[..n] && queue == old(queue)[n..]
          decreases allowed - n
        {
          sent := sent + [queue[0]];
          queue := queue[1..];
          n := n + 1;
        }
      }
    }
  }

  function Single(channel: Channel, symbols: seq<string>, wanted: bool): seq<Message> {
    if wanted then [Message(channel, symbols)] else []
  }

  /** One message per channel. */
  lemma BatchOfChannels(c: Config, kind: Kind, symbols: seq<string>)
    ensures Batch(Channels(c, kind), symbols) ==
            match kind
            case Primary =>
              [Message(BookTicker, symbols)] + Single(Trade, symbols, c.tradeDetails) + Single(Depth, symbols, c.depth)
            case Secondary => [Message(BookTicker, symbols)] + Single(Depth, symbols, c.depth)
            case Third =>
              Single(AggTrade, symbols, !c.tradeDetails) + [Message(MarkPrice, symbols), Message(MiniTicker, symbols)]
              + Single(Kline, symbols, c.timeSeries)
  {
    BatchAt(Channels(c, kind), symbols);
    hide Batch;
  }

  lemma {:induction false} BatchAt(channels: seq<Channel>, symbols: seq<string>)
    ensures |Batch(channels, symbols)| == |channels|
    ensures forall i :: 0 <= i < |channels| ==> Batch(channels, symbols)[i] == Message(channels[i], symbols)
  {
    if channels == [] {
    } else {
      BatchAt(channels[..|channels| - 1], symbols);
    }
  }

  class Controller {
    const config: Config
    const symbols: Symbols
    var primary: seq<MarketStream>
    var secondary: seq<MarketStream>
    var third: seq<MarketStream>
    ghost var state: State

    /** A layer consists of its own streams, in order, and they are in the given states. */
    ghost predicate Matches(kind: Kind, streams: seq<MarketStream>, views: seq<Stream>)
      reads streams
    {
      && |streams| == |views|
      && forall i :: 0 <= i < |streams| ==>
           && streams[i].config == config && streams[i].kind == kind && streams[i].index == i
           && streams[i].symbols == symbols && streams[i].View() == views[i]
    }

    ghost predicate Valid()
      reads this, symbols, primary, secondary, third
    {
      && config.Valid() && Inv(config, state)
      && symbols.all == state.all && symbols.known == state.known
      && Matches(Primary, primary, state.primary)
      && Matches(Secondary, secondary, state.secondary)
      && Matches(Third, third, state.third)
    }

    constructor (config: Config)
      requires config.Valid()
      ensures Valid() && state == INITIAL && this.config == config
    {
      this.config := config;
      symbols := new Symbols();
      primary, secondary, third := [], [], [];
      state := INITIAL;
      new;
      SubscriptionsAreComplete(config, []);
    }

    /** Creates the streams that are missing. */
    method EnsureSlices(kind: Kind, streams: seq<MarketStream>, size: nat, ghost views: seq<Stream>)
      returns (r: seq<MarketStream>)
      requires Matches(kind, streams, views)
      ensures Matches(kind, r, Ensure(config, kind, views, size))
      ensures |streams| <= |r| && r[..|streams|] == streams
      ensures forall i :: |streams| <= i < |r| ==> fresh(r[i])
    {
      r := streams;
      if kind != Secondary || config.secondary {
        while |r| < size
          invariant |streams| <= |r| && r[..|streams|] == streams
          invariant size <= |streams| ==> r == streams
          invariant |streams| < size ==> |r| <= size
          invariant forall i :: |streams| <= i < |r| ==> fresh(r[i])
          invariant Matches(kind, r, views + seq(|r| - |streams|, _ => UNCONNECTED))
          decreases size - |r|
        {
          var stream := new MarketStream(config, kind, |r|, symbols);
          r := r + [stream];
        }
      }
    }

    /** Tells every stream of a layer that there are symbols from position `start` on. */
    method SubscribeLayer(kind: Kind, streams: seq<MarketStream>, start: nat, ghost views: seq<Stream>)
      requires Matches(kind, streams, views)
      modifies set i | 0 <= i < |streams| :: streams[i]
      ensures Matches(kind, streams, SubscribeAll(config, kind, views, symbols.all, start))
    {
      for i := 0 to |streams|
        invariant forall j :: 0 <= j < |streams| ==>
                    && streams[j].config == config && streams[j].kind == kind && streams[j].index == j
                    && streams[j].symbols == symbols
                    && streams[j].View() ==
                       if j < i then SubscribeFrom(config, kind, views[j], j, symbols.all, start) else views[j]
      {
        streams[i].SubscribeSlice(start);
      }
    }

    /** Ensures and subscribes one layer; the other two are left alone, since layers do not share streams. */
    method UpdateStreams(kind: Kind, streams: seq<MarketStream>, size: nat, start: nat, ghost views: seq<Stream>,
                         ghost k2: Kind, ghost s2: seq<MarketStream>, ghost v2: seq<Stream>,
                         ghost k3: Kind, ghost s3: seq<MarketStream>, ghost v3: seq<Stream>)
      returns (r: seq<MarketStream>)
      requires config.Valid() && size == NumSlices(config.max, |symbols.all|) && Matches(kind, streams, views)
      requires k2 != kind && k3 != kind && Matches(k2, s2, v2) && Matches(k3, s3, v3)
      modifies set i | 0 <= i < |streams| :: streams[i]
      ensures Matches(kind, r, UpdateLayer(config, kind, views, symbols.all, start))
      ensures Matches(k2, s2, v2) && Matches(k3, s3, v3)
    {
      hide SubscribeAll, Ensure, NumSlices;
      r := EnsureSlices(kind, streams, size, views);
      SubscribeLayer(kind, r, start, Ensure(config, kind, views, size));
    }

    method OnSymbolsUpdate(added: seq<string>)
      requires config.Valid() && symbols.all == state.all
      requires Matches(Primary, primary, state.primary)
      requires Matches(Secondary, secondary, state.secondary)
      requires Matches(Third, third, state.third)
      modifies this, symbols`all, primary, secondary, third
      ensures state == UpdateSymbols(config, old(state), added) && symbols.all == state.all
      ensures Matches(Primary, primary, state.primary)
      ensures Matches(Secondary, secondary, state.secondary)
      ensures Matches(Third, third, state.third)
    {
      hide UpdateLayer, NumSlices, Matches;
      ghost var s := state;
      state := UpdateSymbols(config, s, added);
      var size, start := symbols.Append(config.max, added);
      primary := UpdateStreams(Primary, primary, size, start, s.primary,
                               Secondary, secondary, s.secondary, Third, third, s.third);
      secondary := UpdateStreams(Secondary, secondary, size, start, s.secondary,
                                 Primary, primary, state.primary, Third, third, s.third);
      third := UpdateStreams(Third, third, size, start, s.third,
                             Primary, primary, state.primary, Secondary, secondary, state.secondary);
    }

    method Learn(names: seq<string>, always: bool)
      requires Valid()
      modifies this, symbols, primary, secondary, third
      ensures Valid() && state == SymbolSlices.Learn(config, old(state), names, always)
    {
      LearnKeepsInv(config, state, names, always);
      hide SymbolSlices.Inv, UpdateSymbols, Unseen;
      var added := symbols.Emplace(names);
      state := state.(known := symbols.known);
      if added != [] || always {
        OnSymbolsUpdate(added);
      }
    }

    /** The exchange info: discarded symbols are skipped, the others are taken in lower case. */
    method OnExchangeInfo(items: seq<Item>)
      requires Valid()
      modifies this, symbols, primary, secondary, third
      ensures Valid() && state == Step(config, old(state), ExchangeInfo(items))
    {
      var names := [];
      for i := 0 to |items|
        invariant names == Included(items[..i])
      {
        assert items[..i + 1][..i] == items[..i];
        if !items[i].discard {
          names := names + [LowerCase(items[i].symbol)];
        }
      }
      assert items[..|items|] == items;
      Learn(names, false);
    }

    method OnClientSubscribe(names: seq<string>)
      requires Valid()
      modifies this, symbols, primary, secondary, third
      ensures Valid() && state == Step(config, old(state), ClientSubscribe(names))
    {
      Learn(names, true);
    }

    method DeliverTo(kind: Kind, streams: seq<MarketStream>, i: nat, input: Input, ghost views: seq<Stream>,
                     ghost k2: Kind, ghost s2: seq<MarketStream>, ghost v2: seq<Stream>,
                     ghost k3: Kind, ghost s3: seq<MarketStream>, ghost v3: seq<Stream>)
      requires i < |streams| && Matches(kind, streams, views)
      requires k2 != kind && k3 != kind && Matches(k2, s2, v2) && Matches(k3, s3, v3)
      modifies streams[i]
      ensures Matches(kind, streams, views[i := Deliver(config, kind, views[i], i, symbols.all, input)])
      ensures Matches(k2, s2, v2) && Matches(k3, s3, v3)
    {
      hide Deliver;
      streams[i].OnInput(input);
    }

    method OnStreamInput(kind: Kind, i: nat, input: Input)
      requires Valid()
      modifies this, primary, secondary, third
      ensures Valid() && state == Step(config, old(state), OnStream(kind, i, input))
    {
      StepKeepsInv(config, state, OnStream(kind, i, input));
      assert |primary| == |state.primary| && |secondary| == |state.secondary| && |third| == |state.third|;
      hide SymbolSlices.Inv, Deliver, Matches;
      ghost var s := state;
      state := Step(config, s, OnStream(kind, i, input));
      if kind == Primary && i < |primary| {
        DeliverTo(kind, primary, i, input, s.primary, Secondary, secondary, s.secondary, Third, third, s.third);
      } else if kind == Secondary && i < |secondary| {
        DeliverTo(kind, secondary, i, input, s.secondary, Primary, primary, s.primary, Third, third, s.third);
      } else if kind == Third && i < |third| {
        DeliverTo(kind, third, i, input, s.third, Primary, primary, s.primary, Secondary, secondary, s.secondary);
      }
    }
  }
}
