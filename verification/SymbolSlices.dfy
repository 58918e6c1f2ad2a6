/**
 Splitting the symbols over market-data streams.  The symbols are cut into slices of at most `max`;
 each of the three stream layers has one stream per slice.  New symbols are subscribed incrementally,
 and a stream that reconnects subscribes its whole slice again.
 */
module SymbolSlices {
  import opened Wrappers

  datatype Kind = Primary | Secondary | Third

  datatype Channel = BookTicker | Trade | Depth | AggTrade | MarkPrice | MiniTicker | Kline

  datatype Config = Config(max: nat, secondary: bool, tradeDetails: bool, depth: bool, timeSeries: bool) {
    ghost predicate Valid() {
      max > 0
    }
  }

  /** The channels a stream subscribes for each of its symbols, in order. */
  function Channels(c: Config, kind: Kind): seq<Channel> {
    match kind
    case Primary => [BookTicker] + (if c.tradeDetails then [Trade] else []) + (if c.depth then [Depth] else [])
    case Secondary => [BookTicker] + (if c.depth then [Depth] else [])
    case Third =>
      (if c.tradeDetails then [] else [AggTrade]) + [MarkPrice, MiniTicker] + (if c.timeSeries then [Kline] else [])
  }

  // the slices

  /** The part of slice i from position `start` on. */
  function Slice(all: seq<string>, max: nat, i: nat, start: nat): seq<string> {
    var lo := if i * max < start then start else i * max;
    var hi := if (i + 1) * max < |all| then (i + 1) * max else |all|;
    if lo < hi then all[lo..hi] else []
  }

  function NumSlices(max: nat, n: nat): nat
    requires max > 0
  {
    (n + max - 1) / max
  }

  lemma SlicesOf(max: nat, n: nat, i: nat)
    requires max > 0
    ensures i < NumSlices(max, n) <==> i * max < n
  {
    var q := NumSlices(max, n);
    QuotientBounds(n + max - 1, max);
    if i < q {
      Multiples(i, q - 1, max);
      assert (q - 1) * max == q * max - max;
    } else {
      Multiples(q, i, max);
    }
  }

  lemma QuotientBounds(n: nat, max: nat)
    requires max > 0
    ensures n / max * max <= n < n / max * max + max
  {
  }

  lemma Multiples(i: nat, j: nat, max: nat)
    requires i <= j
    ensures i * max <= j * max
  {
  }

  /** Appending symbols appends, to every slice, exactly its part of the new ones. */
  lemma SliceGrows(all: seq<string>, more: seq<string>, max: nat, i: nat)
    ensures Slice(all + more, max, i, 0) == Slice(all, max, i, 0) + Slice(all + more, max, i, |all|)
  {
    var lo, hi := i * max, i * max + max;
    assert (i + 1) * max == hi;
    PartGrows(all, more, lo, hi);
  }

  lemma PartGrows(all: seq<string>, more: seq<string>, lo: nat, hi: nat)
    requires lo <= hi
    ensures var from, to := if lo < |all| then |all| else lo, if |all| < hi then hi else |all|;
            Part(all + more, lo, hi) == Part(all, lo, hi) + Part(all + more, from, to)
  {
  }

  function Concat(all: seq<string>, max: nat, n: nat): seq<string> {
    if n == 0 then [] else Concat(all, max, n - 1) + Slice(all, max, n - 1, 0)
  }

  /** The symbols up to a position, and those between two. */
  function Prefix(all: seq<string>, hi: nat): seq<string> {
    if hi < |all| then all[..hi] else all
  }

  function Part(all: seq<string>, lo: nat, hi: nat): seq<string>
    requires lo <= hi
  {
    if lo < |all| then all[lo..if hi < |all| then hi else |all|] else []
  }

  lemma PrefixAndPart(all: seq<string>, lo: nat, hi: nat)
    requires lo <= hi
    ensures Prefix(all, lo) + Part(all, lo, hi) == Prefix(all, hi)
  {
  }

  /** Where slice i begins. */
  function Offset(i: nat, max: nat): nat {
    i * max
  }

  lemma NextOffset(i: nat, max: nat)
    ensures Offset(0, max) == 0 && Offset(i + 1, max) == Offset(i, max) + max
  {
  }

  lemma SliceIsPart(all: seq<string>, max: nat, i: nat)
    ensures Slice(all, max, i, 0) == Part(all, Offset(i, max), Offset(i, max) + max)
  {
    NextOffset(i, max);
  }

  lemma {:induction false} ConcatIsPrefix(all: seq<string>, max: nat, n: nat)
    ensures Concat(all, max, n) == Prefix(all, Offset(n, max))
  {
    hide Offset, Slice;
    if n == 0 {
      NextOffset(0, max);
    } else {
      hide Prefix, Part;
      ConcatIsPrefix(all, max, n - 1);
      SliceIsPart(all, max, n - 1);
      PrefixAndPart(all, Offset(n - 1, max), Offset(n - 1, max) + max);
      NextOffset(n - 1, max);
    }
  }

  /** The slices partition the symbols, in order; none is empty and none exceeds the maximum. */
  lemma SlicesPartition(all: seq<string>, max: nat)
    requires max > 0
    ensures Concat(all, max, NumSlices(max, |all|)) == all
    ensures forall i :: 0 <= i < NumSlices(max, |all|) ==> 0 < |Slice(all, max, i, 0)| <= max
  {
    var n := NumSlices(max, |all|);
    ConcatIsPrefix(all, max, n);
    SlicesOf(max, |all|, n);
    hide Slice, NumSlices;
    forall i | 0 <= i < n {
      SliceSize(all, max, i);
    }
  }

  lemma SliceSize(all: seq<string>, max: nat, i: nat)
    requires max > 0 && i < NumSlices(max, |all|)
    ensures 0 < |Slice(all, max, i, 0)| <= max
  {
    SlicesOf(max, |all|, i);
    assert (i + 1) * max == i * max + max;
  }

  // one stream

  datatype Message = Message(channel: Channel, symbols: seq<string>)

  /** `sent` are the messages sent on the current connection. */
  datatype Stream = Stream(ready: bool, queue: seq<Message>, sent: seq<Message>)

  const UNCONNECTED := Stream(false, [], [])

  function Batch(channels: seq<Channel>, symbols: seq<string>): seq<Message> {
    if channels == [] then []
    else Batch(channels[..|channels| - 1], symbols) + [Message(channels[|channels| - 1], symbols)]
  }

  function Enqueue(c: Config, kind: Kind, s: Stream, symbols: seq<string>): Stream {
    if symbols == [] then s else s.(queue := s.queue + Batch(Channels(c, kind), symbols))
  }

  function SubscribeFrom(c: Config, kind: Kind, s: Stream, i: nat, all: seq<string>, start: nat): Stream {
    if s.ready then Enqueue(c, kind, s, Slice(all, c.max, i, start)) else s
  }

  function OnReady(c: Config, kind: Kind, s: Stream, i: nat, all: seq<string>): Stream {
    SubscribeFrom(c, kind, s.(ready := true, sent := []), i, all, 0)
  }

  function OnDisconnected(s: Stream): Stream {
    Stream(false, [], [])
  }

  /** A timer sends as much of the queue, in order, as the rate limiter allows. */
  function OnTimer(s: Stream, allowed: nat): Stream {
    var n := if !s.ready then 0 else if allowed < |s.queue| then allowed else |s.queue|;
    s.(sent := s.sent + s.queue[..n], queue := s.queue[n..])
  }

  /** The symbols subscribed on a channel by a sequence of messages. */
  function Subscribed(messages: seq<Message>, channel: Channel): seq<string> {
    if messages == [] then []
    else
      var last := messages[|messages| - 1];
      Subscribed(messages[..|messages| - 1], channel) + if last.channel == channel then last.symbols else []
  }

  lemma SubscribedAppend(messages: seq<Message>, m: Message, channel: Channel)
    ensures Subscribed(messages + [m], channel)
         == Subscribed(messages, channel) + if m.channel == channel then m.symbols else []
  {
    assert (messages + [m])[..|messages|] == messages;
  }

  lemma NothingSubscribed(channel: Channel)
    ensures Subscribed([], channel) == []
  {
  }

  lemma {:induction false} SubscribedConcat(m1: seq<Message>, m2: seq<Message>, channel: Channel)
    ensures Subscribed(m1 + m2, channel) == Subscribed(m1, channel) + Subscribed(m2, channel)
  {
    hide Subscribed;
    NothingSubscribed(channel);
    if m2 == [] {
      assert m1 + m2 == m1;
    } else {
      var init, last := m2[..|m2| - 1], m2[|m2| - 1];
      SubscribedConcat(m1, init, channel);
      SubscribedAppend(init, last, channel);
      SubscribedAppend(m1 + init, last, channel);
      LastOfConcat(m1, m2);
    }
  }

  predicate Distinct<T(==)>(s: seq<T>) {
    forall i, j :: 0 <= i < j < |s| ==> s[i] != s[j]
  }

  lemma DistinctInit<T>(s: seq<T>)
    requires s != [] && Distinct(s)
    ensures var init, last := s[..|s| - 1], s[|s| - 1];
            Distinct(init) && last !in init && forall x :: x in s <==> x in init || x == last
  {
    assert s == s[..|s| - 1] + [s[|s| - 1]];
  }

  lemma {:induction false} SubscribedBatch(channels: seq<Channel>, symbols: seq<string>, channel: Channel)
    requires Distinct(channels)
    ensures Subscribed(Batch(channels, symbols), channel) == if channel in channels then symbols else []
  {
    hide Subscribed, Distinct;
    NothingSubscribed(channel);
    if channels == [] {
    } else {
      var n := |channels| - 1;
      DistinctInit(channels);
      SubscribedBatch(channels[..n], symbols, channel);
      SubscribedAppend(Batch(channels[..n], symbols), Message(channels[n], symbols), channel);
    }
  }

  /**
   What a stream has subscribed.  While it is ready, the messages sent on this connection and those
   still queued subscribe, on each of its channels, exactly its slice: every symbol once and in order.
   While it is not ready, nothing is queued.
   */
  ghost predicate Covers(c: Config, kind: Kind, s: Stream, slice: seq<string>) {
    if s.ready then
      forall channel :: Subscribed(s.sent + s.queue, channel) == if channel in Channels(c, kind) then slice else []
    else s.queue == [] && s.sent == []
  }

  lemma ChannelsAreDistinct(c: Config, kind: Kind)
    ensures Distinct(Channels(c, kind))
  {
    match kind {
      case Primary =>
      case Secondary =>
      case Third =>
    }
  }

  lemma BatchExtends(before: seq<Message>, channels: seq<Channel>, slice: seq<string>,
                     more: seq<string>, channel: Channel)
    requires Distinct(channels)
    requires Subscribed(before, channel) == if channel in channels then slice else []
    ensures Subscribed(before + Batch(channels, more), channel) == if channel in channels then slice + more else []
  {
    SubscribedConcat(before, Batch(channels, more), channel);
    SubscribedBatch(channels, more, channel);
    hide Subscribed, Batch, Distinct;
  }

  lemma EnqueueExtends(c: Config, kind: Kind, s: Stream, slice: seq<string>, more: seq<string>)
    requires s.ready && Covers(c, kind, s, slice)
    ensures Covers(c, kind, Enqueue(c, kind, s, more), slice + more)
  {
    hide Channels, Batch, Subscribed, Distinct;
    if more == [] {
      assert slice + more == slice;
    } else {
      var channels := Channels(c, kind);
      ChannelsAreDistinct(c, kind);
      assert s.sent + (s.queue + Batch(channels, more)) == (s.sent + s.queue) + Batch(channels, more);
      forall channel {
        BatchExtends(s.sent + s.queue, channels, slice, more, channel);
      }
    }
  }

  lemma UpdateCovers(c: Config, kind: Kind, s: Stream, i: nat, all: seq<string>, more: seq<string>)
    requires Covers(c, kind, s, Slice(all, c.max, i, 0))
    ensures Covers(c, kind, SubscribeFrom(c, kind, s, i, all + more, |all|), Slice(all + more, c.max, i, 0))
  {
    SliceGrows(all, more, c.max, i);
    if s.ready {
      EnqueueExtends(c, kind, s, Slice(all, c.max, i, 0), Slice(all + more, c.max, i, |all|));
    }
    hide Slice;
  }

  lemma ReadyCovers(c: Config, kind: Kind, s: Stream, i: nat, all: seq<string>)
    requires s.queue == []
    ensures Covers(c, kind, OnReady(c, kind, s, i, all), Slice(all, c.max, i, 0))
  {
    var empty := s.(ready := true, sent := []);
    assert empty.sent + empty.queue == [];
    EnqueueExtends(c, kind, empty, [], Slice(all, c.max, i, 0));
    assert [] + Slice(all, c.max, i, 0) == Slice(all, c.max, i, 0);
  }

  lemma TimerCovers(c: Config, kind: Kind, s: Stream, allowed: nat, slice: seq<string>)
    requires Covers(c, kind, s, slice)
    ensures Covers(c, kind, OnTimer(s, allowed), slice)
  {
    var t := OnTimer(s, allowed);
    assert t.sent + t.queue == s.sent + s.queue;
  }

  // the gateway

  datatype State = State(all: seq<string>, known: set<string>,
    primary: seq<Stream>, secondary: seq<Stream>, third: seq<Stream>)

  const INITIAL := State([], {}, [], [], [])

  function Layer(s: State, kind: Kind): seq<Stream> {
    match kind
    case Primary => s.primary
    case Secondary => s.secondary
    case Third => s.third
  }

  function WithLayer(s: State, kind: Kind, streams: seq<Stream>): State {
    match kind
    case Primary => s.(primary := streams)
    case Secondary => s.(secondary := streams)
    case Third => s.(third := streams)
  }

  predicate Enabled(c: Config, kind: Kind) {
    kind == Secondary ==> c.secondary
  }

  /** One stream for every slice; streams are only ever added. */
  function Ensure(c: Config, kind: Kind, streams: seq<Stream>, size: nat): (r: seq<Stream>)
    ensures |streams| <= |r| && r[..|streams|] == streams
  {
    if Enabled(c, kind) && |streams| < size then streams + seq(size - |streams|, _ => UNCONNECTED) else streams
  }

  function SubscribeAll(c: Config, kind: Kind, streams: seq<Stream>, all: seq<string>, start: nat): (r: seq<Stream>)
    ensures |r| == |streams|
  {
    seq(|streams|, i requires 0 <= i < |streams| => SubscribeFrom(c, kind, streams[i], i, all, start))
  }

  function UpdateLayer(c: Config, kind: Kind, streams: seq<Stream>, all: seq<string>, start: nat): seq<Stream>
    requires c.Valid()
  {
    SubscribeAll(c, kind, Ensure(c, kind, streams, NumSlices(c.max, |all|)), all, start)
  }

  /** New symbols are appended, missing streams created, and every ready stream subscribes what is new in its slice. */
  function UpdateSymbols(c: Config, s: State, symbols: seq<string>): State
    requires c.Valid()
  {
    var all := s.all + symbols;
    s.(all := all,
       primary := UpdateLayer(c, Primary, s.primary, all, |s.all|),
       secondary := UpdateLayer(c, Secondary, s.secondary, all, |s.all|),
       third := UpdateLayer(c, Third, s.third, all, |s.all|))
  }

  /** The symbols not seen before, each once, in order of first appearance. */
  function Unseen(known: set<string>, symbols: seq<string>): seq<string> {
    if symbols == [] then []
    else
      var n := |symbols| - 1;
      var before := Unseen(known, symbols[..n]);
      if symbols[n] in known || symbols[n] in before then before else before + [symbols[n]]
  }

  function Elements(s: seq<string>): set<string> {
    set x | x in s
  }

  function Lower(c: char): char {
    if 'A' <= c <= 'Z' then c - 'A' + 'a' else c
  }

  function LowerCase(s: string): (r: string)
    ensures |r| == |s|
  {
    seq(|s|, i requires 0 <= i < |s| => Lower(s[i]))
  }

  datatype Item = Item(symbol: string, discard: bool)

  /** The symbols of the exchange info that are not discarded, in lower case. */
  function Included(items: seq<Item>): seq<string> {
    if items == [] then []
    else
      var last := items[|items| - 1];
      Included(items[..|items| - 1]) + if last.discard then [] else [LowerCase(last.symbol)]
  }

  function Learn(c: Config, s: State, symbols: seq<string>, always: bool): State
    requires c.Valid()
  {
    var added := Unseen(s.known, symbols);
    var t := s.(known := s.known + Elements(added));
    if added == [] && !always then t else UpdateSymbols(c, t, added)
  }

  /** What happens to a stream; a socket that is already up does not come up again. */
  datatype Input = Up | Down | Tick(allowed: nat)

  function Deliver(c: Config, kind: Kind, s: Stream, i: nat, all: seq<string>, input: Input): Stream {
    match input
    case Up => if s.ready then s else OnReady(c, kind, s, i, all)
    case Down => OnDisconnected(s)
    case Tick(allowed) => OnTimer(s, allowed)
  }

  datatype Event =
    | ExchangeInfo(items: seq<Item>)
    | ClientSubscribe(symbols: seq<string>)
    | OnStream(kind: Kind, index: nat, input: Input)

  function Step(c: Config, s: State, e: Event): State
    requires c.Valid()
  {
    match e
    case ExchangeInfo(items) => Learn(c, s, Included(items), false)
    case ClientSubscribe(symbols) => Learn(c, s, symbols, true)
    case OnStream(kind, i, input) =>
      var streams := Layer(s, kind);
      if i < |streams| then WithLayer(s, kind, streams[i := Deliver(c, kind, streams[i], i, s.all, input)]) else s
  }

  function Run(c: Config, s: State, events: seq<Event>): State
    requires c.Valid()
  {
    if events == [] then s else Step(c, Run(c, s, events[..|events| - 1]), events[|events| - 1])
  }

  // every run

  lemma {:induction false} UnseenIsFresh(known: set<string>, symbols: seq<string>)
    ensures Distinct(Unseen(known, symbols)) && Elements(Unseen(known, symbols)) !! known
    ensures known + Elements(Unseen(known, symbols)) == known + Elements(symbols)
  {
    if symbols == [] {
    } else {
      var init, last := symbols[..|symbols| - 1], symbols[|symbols| - 1];
      UnseenIsFresh(known, init);
      AppendElement(init, last);
      AppendElement(Unseen(known, init), last);
      assert symbols == init + [last];
      hide Elements, Distinct;
    }
  }

  lemma AppendElement(s: seq<string>, x: string)
    ensures Elements(s + [x]) == Elements(s) + {x}
    ensures Distinct(s) && x !in Elements(s) ==> Distinct(s + [x])
  {
  }

  ghost predicate LayerCovers(c: Config, kind: Kind, streams: seq<Stream>, all: seq<string>)
    requires c.Valid()
  {
    && |streams| == (if Enabled(c, kind) then NumSlices(c.max, |all|) else 0)
    && forall i :: 0 <= i < |streams| ==> Covers(c, kind, streams[i], Slice(all, c.max, i, 0))
  }

  ghost predicate Inv(c: Config, s: State)
    requires c.Valid()
  {
    && Distinct(s.all) && s.known == Elements(s.all)
    && forall kind :: LayerCovers(c, kind, Layer(s, kind), s.all)
  }

  lemma NumSlicesGrows(max: nat, n: nat, m: nat)
    requires max > 0 && n <= m
    ensures NumSlices(max, n) <= NumSlices(max, m)
  {
    SlicesOf(max, m, NumSlices(max, m));
    SlicesOf(max, n, NumSlices(max, m));
  }

  lemma UpdateLayerCovers(c: Config, kind: Kind, streams: seq<Stream>, all: seq<string>, more: seq<string>)
    requires c.Valid() && LayerCovers(c, kind, streams, all)
    ensures LayerCovers(c, kind, UpdateLayer(c, kind, streams, all + more, |all|), all + more)
  {
    NumSlicesGrows(c.max, |all|, |all + more|);
    var size := NumSlices(c.max, |all + more|);
    var grown := Ensure(c, kind, streams, size);
    var r := UpdateLayer(c, kind, streams, all + more, |all|);
    forall i | 0 <= i < |grown| ensures Covers(c, kind, r[i], Slice(all + more, c.max, i, 0)) {
      if i < |streams| {
        assert grown[i] == streams[i];
      }
      UpdateCovers(c, kind, grown[i], i, all, more);
    }
  }

  lemma LearnKeepsInv(c: Config, s: State, symbols: seq<string>, always: bool)
    requires c.Valid() && Inv(c, s)
    ensures Inv(c, Learn(c, s, symbols, always))
  {
    var added := Unseen(s.known, symbols);
    UnseenIsFresh(s.known, symbols);
    assert LayerCovers(c, Primary, Layer(s, Primary), s.all);
    assert LayerCovers(c, Secondary, Layer(s, Secondary), s.all);
    assert LayerCovers(c, Third, Layer(s, Third), s.all);
    UpdateLayerCovers(c, Primary, s.primary, s.all, added);
    UpdateLayerCovers(c, Secondary, s.secondary, s.all, added);
    UpdateLayerCovers(c, Third, s.third, s.all, added);
    hide LayerCovers, UpdateLayer, Unseen;
    AppendFresh(s.all, added);
  }

  lemma AppendFresh(all: seq<string>, added: seq<string>)
    requires Distinct(all) && Distinct(added) && Elements(added) !! Elements(all)
    ensures Distinct(all + added) && Elements(all + added) == Elements(all) + Elements(added)
    ensures added == [] ==> Elements(added) == {}
  {
    forall i, j | 0 <= i < j < |all + added| ensures (all + added)[i] != (all + added)[j] {
      if i < |all| <= j {
        assert all[i] in Elements(all) && added[j - |all|] in Elements(added);
      }
    }
  }

  lemma StreamKeepsInv(c: Config, s: State, kind: Kind, i: nat, t: Stream)
    requires c.Valid() && Inv(c, s) && i < |Layer(s, kind)| && Covers(c, kind, t, Slice(s.all, c.max, i, 0))
    ensures Inv(c, WithLayer(s, kind, Layer(s, kind)[i := t]))
  {
    var r := WithLayer(s, kind, Layer(s, kind)[i := t]);
    forall k: Kind ensures LayerCovers(c, k, Layer(r, k), r.all) {
      assert LayerCovers(c, k, Layer(s, k), s.all);
      if k == kind {
        assert Layer(r, k) == Layer(s, k)[i := t];
      } else {
        assert Layer(r, k) == Layer(s, k);
      }
      hide Covers, Slice;
    }
  }

  lemma DeliverCovers(c: Config, kind: Kind, s: Stream, i: nat, all: seq<string>, input: Input)
    requires Covers(c, kind, s, Slice(all, c.max, i, 0))
    ensures Covers(c, kind, Deliver(c, kind, s, i, all, input), Slice(all, c.max, i, 0))
  {
    match input {
      case Up =>
        if !s.ready {
          ReadyCovers(c, kind, s, i, all);
        }
      case Down =>
      case Tick(allowed) => TimerCovers(c, kind, s, allowed, Slice(all, c.max, i, 0));
    }
  }

  lemma StepKeepsInv(c: Config, s: State, e: Event)
    requires c.Valid() && Inv(c, s)
    ensures Inv(c, Step(c, s, e))
  {
    match e {
      case ExchangeInfo(items) => LearnKeepsInv(c, s, Included(items), false);
      case ClientSubscribe(symbols) => LearnKeepsInv(c, s, symbols, true);
      case OnStream(kind, i, input) =>
        var streams := Layer(s, kind);
        assert LayerCovers(c, kind, streams, s.all);
        if i < |streams| {
          DeliverCovers(c, kind, streams[i], i, s.all, input);
          StreamKeepsInv(c, s, kind, i, Deliver(c, kind, streams[i], i, s.all, input));
        }
    }
    hide Inv, Learn, Deliver, Covers;
  }

  /**
   Subscriptions are complete.  After every interleaving of symbol updates, stream creation, connects,
   disconnects and queue timers: the symbols are distinct, every enabled layer has exactly one stream
   per slice, and the messages a ready stream i has sent on its connection or still has queued
   subscribe, on each of its channels, exactly slice i -- each symbol once and in order.
   */
  lemma {:induction false} SubscriptionsAreComplete(c: Config, events: seq<Event>)
    requires c.Valid()
    ensures Inv(c, Run(c, INITIAL, events))
  {
    if events == [] {
    } else {
      var n := |events| - 1;
      SubscriptionsAreComplete(c, events[..n]);
      StepKeepsInv(c, Run(c, INITIAL, events[..n]), events[n]);
    }
  }
}
