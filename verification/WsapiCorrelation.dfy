/**
 Which send a WSAPI reply belongs to.  Every request takes the next value of a 32-bit counter and
 travels as the id of the message; the exchange echoes the id, in any order and at any later time.
 */
module WsapiCorrelation {
  import opened Wrappers
  import opened Base64Url
  import opened WsapiRequest
  import opened WsapiParser

  /** Arithmetic on the 32-bit counter. */
  function Wrap(n: nat): UInt32 {
    n % 0x1_0000_0000
  }

  /** The counter of a stream starts at a value spread by the stream id. */
  function Seed(streamId: nat): nat {
    1_000_000 * streamId
  }

  /** The messages the stream sends: session management, downloads, and the three order actions. */
  datatype Action =
    | SessionLogon
    | UserDataStreamStart
    | UserDataStreamPing
    | AccountBalance
    | AccountStatus
    | AccountPosition
    | OrdersStatus
    | OrderPlace(userId: Byte, orderId: UInt64)
    | OrderModify(userId: Byte, orderId: UInt64, version: UInt32)
    | OrderCancel(userId: Byte, orderId: UInt64, version: UInt32)
  {
    /** Order actions are refused while the stream is not ready. */
    predicate NeedsReady() {
      OrderPlace? || OrderModify? || OrderCancel?
    }
  }

  function RequestFor(action: Action, sequence: UInt32): (r: Request)
    ensures r.sequence == sequence && KnownType(r.kind)
  {
    match action
    case SessionLogon => Request(sequence, SESSION_LOGON, 0, 0, 0, 0)
    case UserDataStreamStart => Request(sequence, USER_DATA_STREAM_START, 0, 0, 0, 0)
    case UserDataStreamPing => Request(sequence, USER_DATA_STREAM_PING, 0, 0, 0, 0)
    case AccountBalance => Request(sequence, ACCOUNT_BALANCE, 0, 0, 0, 0)
    case AccountStatus => Request(sequence, ACCOUNT_STATUS, 0, 0, 0, 0)
    case AccountPosition => Request(sequence, ACCOUNT_POSITION, 0, 0, 0, 0)
    case OrdersStatus => Request(sequence, ORDERS_STATUS, 0, 0, 0, 0)
    case OrderPlace(user, order) => Request(sequence, ORDER_PLACE, user, order, 1, 0)
    case OrderModify(user, order, version) => Request(sequence, ORDER_MODIFY, user, order, version, 0)
    case OrderCancel(user, order, version) => Request(sequence, ORDER_CANCEL, user, order, version, 0)
  }

  /** What the sender of an action expects to be called when its reply arrives. */
  predicate Answers(callback: Callback, action: Action) {
    match action
    case SessionLogon => callback == OnSessionLogon
    case UserDataStreamStart => callback == OnListenKey
    case UserDataStreamPing => callback == OnListenKey
    case AccountBalance => callback == OnAccountBalance
    case AccountStatus => callback == OnAccountStatus
    case AccountPosition => callback == OnAccountPosition
    case OrdersStatus => callback == OnOpenOrders
    case OrderPlace(user, order) =>
      callback.OnOrderPlace? && callback.request.userId == user && callback.request.orderId == order
      && callback.request.version == 1
    case OrderModify(user, order, version) =>
      callback.OnOrderModify? && callback.request.userId == user && callback.request.orderId == order
      && callback.request.version == version
    case OrderCancel(user, order, version) =>
      callback.OnOrderCancel? && callback.request.userId == user && callback.request.orderId == order
      && callback.request.version == version
  }

  // every run

  datatype Sent = Sent(action: Action, request: Request) {
    function Id(): string {
      IdOf(request)
    }
  }

  /** A stream: its readiness, its counter, and the history of what was sent. */
  datatype Stream = Stream(ready: bool, requestId: UInt32, sends: seq<Sent>)

  datatype Event = Ready | Disconnected | Send(action: Action) | Reply(fields: seq<Field>)

  function Init(streamId: nat): Stream {
    Stream(false, Wrap(Seed(streamId)), [])
  }

  predicate Accepts(s: Stream, action: Action) {
    s.ready || !action.NeedsReady()
  }

  function Step(s: Stream, e: Event): Stream {
    match e
    case Ready => s.(ready := true)
    case Disconnected => s.(ready := false)
    case Send(action) =>
      if Accepts(s, action) then
        var id := Wrap(s.requestId + 1);
        s.(requestId := id, sends := s.sends + [Sent(action, RequestFor(action, id))])
      else s
    case Reply(_) => s
  }

  function Run(s: Stream, events: seq<Event>): Stream {
    if events == [] then s else Step(Run(s, events[..|events| - 1]), events[|events| - 1])
  }

  ghost predicate Inv(streamId: nat, s: Stream) {
    && s.requestId == Wrap(Seed(streamId) + |s.sends|)
    && forall i :: 0 <= i < |s.sends| ==>
         s.sends[i].request == RequestFor(s.sends[i].action, Wrap(Seed(streamId) + i + 1))
  }

  lemma StepKeepsInv(streamId: nat, s: Stream, e: Event)
    requires Inv(streamId, s)
    ensures Inv(streamId, Step(s, e))
  {
    NextSequence(Seed(streamId) + |s.sends|);
  }

  lemma NextSequence(n: nat)
    ensures Wrap(Wrap(n) + 1) == Wrap(n + 1)
  {
  }

  lemma {:induction false} RunKeepsInv(streamId: nat, events: seq<Event>)
    ensures Inv(streamId, Run(Init(streamId), events))
  {
    if events == [] {
    } else {
      RunKeepsInv(streamId, events[..|events| - 1]);
      StepKeepsInv(streamId, Run(Init(streamId), events[..|events| - 1]), events[|events| - 1]);
    }
  }

  /**
   The first 2^32 ids of a stream are pairwise distinct, whatever is sent and however often the
   connection is lost in between; and the bound is exact: two sends of the same action that are
   2^32 apart share their id.
   */
  lemma IdsAreDistinct(streamId: nat, events: seq<Event>, i: nat, j: nat)
    requires i < j < |Run(Init(streamId), events).sends|
    ensures var sends := Run(Init(streamId), events).sends;
            && (j - i < 0x1_0000_0000 ==> sends[i].Id() != sends[j].Id())
            && (j - i == 0x1_0000_0000 && sends[i].action == sends[j].action ==> sends[i].Id() == sends[j].Id())
  {
    var s := Run(Init(streamId), events);
    RunKeepsInv(streamId, events);
    RequestsAreDistinct(streamId, s, i, j);
    Injective(s.sends[i].request, s.sends[j].request);
  }

  lemma RequestsAreDistinct(streamId: nat, s: Stream, i: nat, j: nat)
    requires Inv(streamId, s) && i < j < |s.sends|
    ensures j - i < 0x1_0000_0000 ==> s.sends[i].request != s.sends[j].request
    ensures j - i == 0x1_0000_0000 && s.sends[i].action == s.sends[j].action
            ==> s.sends[i].request == s.sends[j].request
  {
    if j - i <= 0x1_0000_0000 {
      SequencesWrap(Seed(streamId) + i + 1, j - i);
    }
  }

  lemma SequencesWrap(n: nat, gap: nat)
    requires 0 < gap <= 0x1_0000_0000
    ensures Wrap(n) == Wrap(n + gap) <==> gap == 0x1_0000_0000
  {
  }

  /** A message echoing the id of a request is handed to the callback of that request, with the request. */
  lemma EchoReachesCallback(r: Request, fields: seq<Field>, allowUnknown: bool)
    requires KnownType(r.kind) && DistinctKeys(fields) && TextOf(fields, KEY_ID) == IdOf(r)
    ensures DispatchOutcome(fields, allowUnknown) == Outcome([CallbackFor(r)], Returned(true))
  {
    RoundTrip(r);
    IdShape(r);
    DispatchMeaning(fields, allowUnknown);
  }

  /** The callback for each of the numbers the exchange is sent as type, and back. */
  lemma EchoByNumber(r: Request, fields: seq<Field>, allowUnknown: bool)
    requires 2 <= r.kind <= 13 && DistinctKeys(fields) && TextOf(fields, "id") == IdOf(r)
    ensures var calls := DispatchOutcome(fields, allowUnknown).calls;
            && (r.kind == 2 <==> calls == [OnSessionLogon])
            && (r.kind == 3 || r.kind == 4 <==> calls == [OnListenKey])
            && (r.kind == 5 <==> calls == [OnAccountBalance])
            && (r.kind == 6 <==> calls == [OnAccountStatus])
            && (r.kind == 7 <==> calls == [OnAccountPosition])
            && (r.kind == 8 <==> calls == [OnOpenOrders])
            && (r.kind == 9 <==> calls == [OnOpenOrdersCancelAll(r)])
            && (r.kind == 10 <==> calls == [OnOrderPlace(r)])
            && (r.kind == 11 <==> calls == [OnOrderCancel(r)])
            && (r.kind == 12 <==> calls == [OnOrderModify(r)])
            && (r.kind == 13 <==> calls == [OnTrades])
  {
    EchoReachesCallback(r, fields, allowUnknown);
    hide DispatchOutcome, TextOf, IdOf, DistinctKeys;
  }

  lemma CallbackAnswers(action: Action, sequence: UInt32)
    ensures Answers(CallbackFor(RequestFor(action, sequence)), action)
  {
  }

  /** An echo of the i-th send fires exactly the callback that send expects. */
  lemma EchoIsAnswered(streamId: nat, s: Stream, fields: seq<Field>, i: nat, allowUnknown: bool)
    requires Inv(streamId, s) && i < |s.sends| && DistinctKeys(fields) && TextOf(fields, KEY_ID) == s.sends[i].Id()
    ensures var out := DispatchOutcome(fields, allowUnknown);
            out.ending == Returned(true) && |out.calls| == 1 && Answers(out.calls[0], s.sends[i].action)
  {
    EchoReachesCallback(s.sends[i].request, fields, allowUnknown);
    CallbackAnswers(s.sends[i].action, s.sends[i].request.sequence);
  }

  /**
   The correlation theorem.  Take any run and any message with distinct keys, in any order and with
   any other content, that echoes the id of the i-th send.  Exactly one callback fires; it is the
   one that send expects and carries the user, order and version of that send.  And if no more than
   2^32 requests were sent, no other send has that id.
   */
  lemma RepliesReachTheirSend(streamId: nat, events: seq<Event>, fields: seq<Field>, i: nat, allowUnknown: bool)
    requires i < |Run(Init(streamId), events).sends|
    requires DistinctKeys(fields) && TextOf(fields, KEY_ID) == Run(Init(streamId), events).sends[i].Id()
    ensures var sends, out := Run(Init(streamId), events).sends, DispatchOutcome(fields, allowUnknown);
            && out.ending == Returned(true)
            && |out.calls| == 1 && Answers(out.calls[0], sends[i].action)
            && (|sends| <= 0x1_0000_0000 ==> forall j :: 0 <= j < |sends| && sends[j].Id() == sends[i].Id() ==> j == i)
  {
    var sends := Run(Init(streamId), events).sends;
    RunKeepsInv(streamId, events);
    EchoIsAnswered(streamId, Run(Init(streamId), events), fields, i, allowUnknown);
    forall j | 0 <= j < |sends| && j != i && |sends| <= 0x1_0000_0000 ensures sends[j].Id() != sends[i].Id() {
      IdsAreDistinct(streamId, events, if i < j then i else j, if i < j then j else i);
    }
  }

  /** The number under which the exchange knows the type of an action. */
  function TypeNumber(action: Action): nat {
    match action
    case SessionLogon => 2
    case UserDataStreamStart => 3
    case UserDataStreamPing => 4
    case AccountBalance => 5
    case AccountStatus => 6
    case AccountPosition => 7
    case OrdersStatus => 8
    case OrderPlace(_, _) => 10
    case OrderModify(_, _, _) => 12
    case OrderCancel(_, _, _) => 11
  }

  /**
   What every send of every run has recorded: its type, the counter -- a million for each stream id, plus
   the number of the send, in 32 bits -- and, for order actions only, the user, the order and its version.
   A new order has version 1.
   */
  lemma SentRecords(streamId: nat, events: seq<Event>, i: nat)
    requires i < |Run(Init(streamId), events).sends|
    ensures var sent := Run(Init(streamId), events).sends[i];
            && sent.request.kind == TypeNumber(sent.action)
            && sent.request.sequence == (1_000_000 * streamId + i + 1) % 0x1_0000_0000
            && sent.request.orderId2 == 0
            && match sent.action
               case OrderPlace(user, order) =>
                 sent.request.userId == user && sent.request.orderId == order && sent.request.version == 1
               case OrderModify(user, order, version) =>
                 sent.request.userId == user && sent.request.orderId == order && sent.request.version == version
               case OrderCancel(user, order, version) =>
                 sent.request.userId == user && sent.request.orderId == order && sent.request.version == version
               case _ => sent.request.userId == 0 && sent.request.orderId == 0 && sent.request.version == 0
  {
    RunKeepsInv(streamId, events);
    hide Run, Init;
  }

  // what is sent and what is refused

  /** The stream has become ready and has not been disconnected since. */
  ghost predicate Connected(events: seq<Event>) {
    exists k :: 0 <= k < |events| && events[k].Ready? && forall j :: k < j < |events| ==> !events[j].Disconnected?
  }

  lemma ConnectedStep(events: seq<Event>)
    requires events != []
    ensures var e := events[|events| - 1];
            Connected(events) <==> e.Ready? || (Connected(events[..|events| - 1]) && !e.Disconnected?)
  {
    var n := |events| - 1;
    var before := events[..n];
    assert forall j :: 0 <= j < n ==> before[j] == events[j];
    if k :| 0 <= k < n && before[k].Ready? && forall j :: k < j < n ==> !before[j].Disconnected? {
      assert events[k].Ready?;
    }
    if k :| 0 <= k < |events| && events[k].Ready? && forall j :: k < j < |events| ==> !events[j].Disconnected? {
      assert k < n ==> before[k].Ready?;
    }
  }

  lemma {:induction false} ReadyIsConnected(streamId: nat, events: seq<Event>)
    ensures Run(Init(streamId), events).ready <==> Connected(events)
  {
    if events == [] {
    } else {
      ReadyIsConnected(streamId, events[..|events| - 1]);
      ConnectedStep(events);
      hide Connected;
    }
  }

  /**
   What a send does, after any run.  An order to place, modify or cancel is sent if and only if the
   stream has become ready and has not been disconnected since; anything else is always sent.  What is
   sent takes the next value of the counter; a refused action leaves counter and history alone.
   */
  lemma SendsExactly(streamId: nat, events: seq<Event>, action: Action)
    ensures var before := Run(Init(streamId), events);
            var after := Run(Init(streamId), events + [Send(action)]);
            if (action.OrderPlace? || action.OrderModify? || action.OrderCancel?) && !Connected(events) then
              after == before
            else
              && |after.sends| == |before.sends| + 1 && after.sends[..|before.sends|] == before.sends
              && after.sends[|before.sends|].action == action
              && after.sends[|before.sends|].request.sequence == after.requestId
              && after.requestId == (before.requestId + 1) % 0x1_0000_0000
              && after.ready == before.ready
  {
    ReadyIsConnected(streamId, events);
    assert (events + [Send(action)])[..|events|] == events;
    hide Connected;
  }

  // the stream object

  class WebSocket {
    const streamId: nat
    var ready: bool
    var requestId: UInt32
    ghost var sends: seq<Sent>

    ghost function View(): Stream
      reads this
    {
      Stream(ready, requestId, sends)
    }

    ghost predicate Valid()
      reads this
    {
      Inv(streamId, View())
    }

    constructor (streamId: nat)
      ensures this.streamId == streamId
      ensures View() == Init(streamId) && Valid()
    {
      this.streamId := streamId;
      ready := false;
      requestId := Wrap(Seed(streamId));
      sends := [];
    }

    method OnReady()
      requires Valid()
      modifies this
      ensures View() == Step(old(View()), Ready) && Valid()
    {
      ready := true;
    }

    method OnDisconnected()
      requires Valid()
      modifies this
      ensures View() == Step(old(View()), Disconnected) && Valid()
    {
      ready := false;
    }

    /** Sends a message and returns its id; an order action is refused, without using up an id, while not ready. */
    method SendMessage(action: Action) returns (r: Result<string>)
      requires Valid()
      modifies this
      ensures View() == Step(old(View()), Send(action)) && Valid()
      ensures r == if old(Accepts(View(), action)) then Success(sends[|sends| - 1].Id()) else Failure(NotReady)
      ensures r == Failure(NotReady)
              <==> !old(ready) && (action.OrderPlace? || action.OrderModify? || action.OrderCancel?)
      ensures r.Failure? ==> View() == old(View())
    {
      hide IdOf, Layout, Base64Url.Encode, RequestFor, Seed;
      if action.NeedsReady() && !ready {
        return Failure(NotReady);
      }
      ghost var before := View();
      requestId := Wrap(requestId + 1);
      var request := RequestFor(action, requestId);
      var id := WsapiRequest.Encode(request);
      sends := sends + [Sent(action, request)];
      StepKeepsInv(streamId, before, Send(action));
      hide Inv;
      r := Success(id);
    }

    /** A message is handed to the parser; an echo of a send fires the callback that send expects. */
    method OnText(fields: seq<Field>, allowUnknown: bool) returns (calls: seq<Callback>, ending: Ending)
      requires Valid()
      ensures Outcome(calls, ending) == DispatchOutcome(fields, allowUnknown)
      ensures DistinctKeys(fields) ==>
                forall i :: 0 <= i < |sends| && sends[i].Id() == TextOf(fields, KEY_ID) ==>
                  ending == Returned(true) && |calls| == 1 && Answers(calls[0], sends[i].action)
    {
      hide DispatchOutcome, DistinctKeys, TextOf, IdOf, Answers, Inv;
      calls, ending := WsapiParser.Dispatch(fields, allowUnknown);
      if DistinctKeys(fields) {
        forall i | 0 <= i < |sends| && sends[i].Id() == TextOf(fields, KEY_ID)
          ensures ending == Returned(true) && |calls| == 1 && Answers(calls[0], sends[i].action)
        {
          EchoIsAnswered(streamId, View(), fields, i, allowUnknown);
        }
      }
    }
  }
}
