/**
 The start-up download of an account and the chase of its stale orders.  The user stream (drop-copy)
 walks through the phases of the download and asks; the order-entry stream sends the requests and
 receives the replies.  They share latches, one per topic, and the set of stale orders.
 */
module Download {
  import opened Wrappers

  /** The phases, in the order of the enumeration. */
  datatype Phase = Undefined | GetBalances | GetPositions | GetOpenOrders | GetStaleOrders | GetTrades | Done
  {
    function Index(): (i: nat)
      ensures i <= 6
    {
      match this
      case Undefined => 0
      case GetBalances => 1
      case GetPositions => 2
      case GetOpenOrders => 3
      case GetStaleOrders => 4
      case GetTrades => 5
      case Done => 6
    }

    predicate Waiting() {
      !Undefined? && !Done?
    }
  }

  datatype Topic = Balances | Positions | OpenOrders | StaleOrders | Trades

  function TopicOf(p: Phase): Topic
    requires p.Waiting()
  {
    match p
    case GetBalances => Balances
    case GetPositions => Positions
    case GetOpenOrders => OpenOrders
    case GetStaleOrders => StaleOrders
    case GetTrades => Trades
  }

  function NextPhase(p: Phase): (q: Phase)
    requires p.Waiting()
    ensures q.Index() == p.Index() + 1
  {
    match p
    case GetBalances => GetPositions
    case GetPositions => GetOpenOrders
    case GetOpenOrders => GetStaleOrders
    case GetStaleOrders => GetTrades
    case GetTrades => Done
  }

  datatype Status = Disconnected | Downloading | Ready

  datatype Key = Key(userId: nat, orderId: nat)

  /** How far back trades are downloaded, and for how many symbols. */
  datatype Config = Config(lookback: nat, symbols: nat) {
    predicate WantsTrades() {
      lookback != 0 && symbols != 0
    }
  }

  /** The history of a connection: phases entered, answers committed. */
  datatype Note = Entered(phase: Phase) | Answered(topic: Topic)

  /**
   What the two streams share.  `pending` and `answered` are the latches: asked for but not yet sent,
   and responded to.  `waiting` is the set of stale orders not yet queried.  The rest is history:
   the requests and order queries in flight, and what became of every stale order discovered.
   */
  datatype Shared = Shared(
    pending: set<Topic>,
    answered: set<Topic>,
    waiting: set<Key>,
    outstanding: multiset<Topic>,
    inFlight: multiset<Key>,
    discovered: multiset<Key>,
    queried: multiset<Key>,     // answered by the exchange
    notFound: multiset<Key>,
    chased: bool,               // this connection had to wait for stale orders
    trail: seq<Note>)

  datatype DropCopy = DropCopy(phase: Phase, status: Status, shared: Shared)

  datatype OrderEntry = OrderEntry(counter: nat, underflow: bool, shared: Shared)

  datatype State = State(drop: DropCopy, counter: nat, underflow: bool)

  // the latches

  function Request(s: Shared, t: Topic): Shared {
    s.(pending := s.pending + {t}, answered := s.answered - {t})
  }

  function Commit(s: Shared, t: Topic): Shared {
    s.(answered := s.answered + {t}, trail := s.trail + [Answered(t)])
  }

  // the user stream

  /** The callback of a phase: 1 means that it has asked and waits, 0 that it has nothing to wait for. */
  function Callback(c: Config, d: DropCopy, p: Phase): (r: (DropCopy, nat))
    ensures r.1 <= 1
  {
    match p
    case Undefined => (d, 0)
    case GetStaleOrders =>
      if d.shared.waiting == {} then (d.(shared := d.shared.(chased := false)), 0)
      else (d.(status := Downloading, shared := Request(d.shared, StaleOrders).(chased := true)), 1)
    case GetTrades =>
      if c.WantsTrades() then (d.(status := Downloading, shared := Request(d.shared, Trades)), 1) else (d, 0)
    case Done => (d.(status := Ready), 0)
    case _ => (d.(status := Downloading, shared := Request(d.shared, TopicOf(p))), 1)
  }

  function Mark(d: DropCopy, p: Phase): DropCopy {
    d.(phase := p, shared := d.shared.(trail := d.shared.trail + [Entered(p)]))
  }

  /** Entering a phase; one that does not wait is left at once for the next. */
  function Enter(c: Config, d: DropCopy, p: Phase): DropCopy
    decreases 6 - p.Index()
  {
    var (e, wait) := Callback(c, Mark(d, p), p);
    if wait == 1 || !p.Waiting() then e else Enter(c, e, NextPhase(p))
  }

  lemma Unfold(c: Config, d: DropCopy, p: Phase)
    ensures var (e, wait) := Callback(c, Mark(d, p), p);
            Enter(c, d, p) == if wait == 1 || !p.Waiting() then e else Enter(c, e, NextPhase(p))
  {
  }

  function Begin(c: Config, d: DropCopy): DropCopy {
    Enter(c, d.(shared := d.shared.(trail := [])), GetBalances)
  }

  function Disconnect(d: DropCopy): DropCopy {
    d.(phase := Undefined, status := Disconnected, shared := d.shared.(trail := []))
  }

  /** Stale orders reported by the order management are added to the set, if they are not there yet. */
  function Discover(s: Shared, stale: set<Key>): Shared {
    s.(waiting := s.waiting + stale, discovered := s.discovered + multiset(stale - s.waiting))
  }

  /** On every timer the current phase is left once its topic has been answered. */
  function CheckQueue(c: Config, d: DropCopy, stale: set<Key>): DropCopy {
    if !d.phase.Waiting() || TopicOf(d.phase) !in d.shared.answered then d
    else if d.phase == GetOpenOrders then Enter(c, d.(shared := Discover(d.shared, stale)), GetStaleOrders)
    else Enter(c, d, NextPhase(d.phase))
  }

  function RefreshBalance(d: DropCopy, due: bool): DropCopy {
    if due then d.(shared := Request(d.shared, Balances)) else d
  }

  function CheckStaleOrders(d: DropCopy, due: bool, stale: set<Key>): DropCopy {
    if !due then d
    else
      var shared := Discover(d.shared, stale);
      d.(shared := if stale <= d.shared.waiting then shared else Request(shared, StaleOrders))
  }

  function DropCopyTimer(c: Config, d: DropCopy, stale: set<Key>, balanceDue: bool, staleDue: bool): DropCopy {
    var d := CheckQueue(c, d, stale);
    if d.status == Ready then CheckStaleOrders(RefreshBalance(d, balanceDue), staleDue, stale) else d
  }

  // the order-entry stream

  /** `granted` is what the rate limiter lets through. */
  predicate Sends(s: Shared, granted: set<Topic>, t: Topic) {
    t in s.pending && t in granted
  }

  function Send(s: Shared, granted: set<Topic>, t: Topic, copies: nat): Shared {
    if Sends(s, granted, t) then
      s.(pending := s.pending - {t}, outstanding := s.outstanding[t := s.outstanding[t] + copies])
    else s
  }

  /** Querying the waiting orders; `known` are those the order management finds. */
  function Chase(o: OrderEntry, granted: set<Topic>, known: set<Key>): OrderEntry {
    if Sends(o.shared, granted, StaleOrders) then
      var found, lost := o.shared.waiting * known, o.shared.waiting - known;
      o.(counter := o.counter + |found|,
         shared := o.shared.(
           pending := o.shared.pending - {StaleOrders}, waiting := {},
           inFlight := o.shared.inFlight + multiset(found), notFound := o.shared.notFound + multiset(lost)))
    else o
  }

  function OrderEntryTimer(c: Config, o: OrderEntry, granted: set<Topic>, known: set<Key>): OrderEntry {
    var o := o.(shared := Send(o.shared, granted, Balances, 1));
    var o := o.(shared := Send(o.shared, granted, Positions, 1));
    var o := o.(shared := Send(o.shared, granted, OpenOrders, 1));
    var o := Chase(o, granted, known);
    o.(shared := Send(o.shared, granted, Trades, c.symbols))
  }

  /** A reply to a request, successful or not. */
  function Reply(s: Shared, t: Topic): Shared {
    if t in s.outstanding then Commit(s.(outstanding := s.outstanding - multiset{t}), t) else s
  }

  /** A reply to an order query; the last one in flight commits the whole batch. */
  function OrderReply(o: OrderEntry, key: Key): OrderEntry {
    if key !in o.shared.inFlight then o
    else
      var shared := o.shared.(inFlight := o.shared.inFlight - multiset{key},
                              queried := o.shared.queried + multiset{key});
      var counter := if o.counter > 0 then o.counter - 1 else 0;
      OrderEntry(counter, o.underflow || o.counter == 0, if counter == 0 then Commit(shared, StaleOrders) else shared)
  }

  /** How many requests a topic takes. */
  function Copies(c: Config, t: Topic): nat {
    if t == Trades then c.symbols else 1
  }

  lemma SendsRemove(s: Shared, granted: set<Topic>, t: Topic, copies: nat, o: OrderEntry, known: set<Key>)
    ensures Send(s, granted, t, copies).pending == s.pending - granted * {t}
    ensures Chase(o, granted, known).shared.pending == o.shared.pending - granted * {StaleOrders}
  {
  }

  lemma AllTopics(p: set<Topic>, g: set<Topic>)
    ensures p - g * {Balances} - g * {Positions} - g * {OpenOrders} - g * {StaleOrders} - g * {Trades} == p - g
  {
    var rest := p - g * {Balances} - g * {Positions} - g * {OpenOrders} - g * {StaleOrders} - g * {Trades};
    forall t: Topic ensures t in rest <==> t in p - g {
      match t {
        case Balances =>
        case Positions =>
        case OpenOrders =>
        case StaleOrders =>
        case Trades =>
      }
    }
  }

  /** A timer sends exactly what was pending and is granted. */
  lemma TimerSendsGranted(c: Config, o: OrderEntry, granted: set<Topic>, known: set<Key>)
    ensures OrderEntryTimer(c, o, granted, known).shared.pending == o.shared.pending - granted
  {
    var s1 := Send(o.shared, granted, Balances, 1);
    var s2 := Send(s1, granted, Positions, 1);
    var s3 := Send(s2, granted, OpenOrders, 1);
    var o4 := Chase(o.(shared := s3), granted, known);
    SendsRemove(o.shared, granted, Balances, 1, o.(shared := s3), known);
    SendsRemove(s1, granted, Positions, 1, o, known);
    SendsRemove(s2, granted, OpenOrders, 1, o, known);
    SendsRemove(o4.shared, granted, Trades, c.symbols, o, known);
    AllTopics(o.shared.pending, granted);
    hide Send, Chase;
  }

  lemma SendEffect(s: Shared, granted: set<Topic>, t: Topic, copies: nat)
    ensures var r := Send(s, granted, t, copies);
            && r.answered == s.answered && r.trail == s.trail && r.chased == s.chased
            && r.waiting == s.waiting && r.inFlight == s.inFlight
            && r.outstanding[t] == s.outstanding[t] + (if Sends(s, granted, t) then copies else 0)
            && forall u :: u != t ==>
                 r.outstanding[u] == s.outstanding[u] && Sends(r, granted, u) == Sends(s, granted, u)
  {
  }

  lemma ChaseEffect(o: OrderEntry, granted: set<Topic>, known: set<Key>)
    ensures var s, r := o.shared, Chase(o, granted, known).shared;
            && r.answered == s.answered && r.trail == s.trail && r.chased == s.chased && r.outstanding == s.outstanding
            && r.waiting == (if Sends(s, granted, StaleOrders) then {} else s.waiting)
            && r.inFlight == s.inFlight
                             + (if Sends(s, granted, StaleOrders) then multiset(s.waiting * known) else multiset{})
            && forall u :: u != StaleOrders ==> Sends(r, granted, u) == Sends(s, granted, u)
  {
  }

  /** Each request is sent once (trades: once per symbol), and the waiting stale orders as one batch. */
  lemma TimerSends(c: Config, o: OrderEntry, granted: set<Topic>, known: set<Key>)
    ensures var s, r := o.shared, OrderEntryTimer(c, o, granted, known).shared;
            && r.pending == s.pending - granted
            && r.answered == s.answered && r.trail == s.trail && r.chased == s.chased
            && r.waiting == (if Sends(s, granted, StaleOrders) then {} else s.waiting)
            && r.inFlight == s.inFlight
                             + (if Sends(s, granted, StaleOrders) then multiset(s.waiting * known) else multiset{})
            && r.outstanding[StaleOrders] == s.outstanding[StaleOrders]
            && forall t :: t != StaleOrders ==>
                 r.outstanding[t] == s.outstanding[t] + if Sends(s, granted, t) then Copies(c, t) else 0
  {
    TimerSendsGranted(c, o, granted, known);
    hide Send, Chase, Sends;
    var s1 := Send(o.shared, granted, Balances, 1);
    var s2 := Send(s1, granted, Positions, 1);
    var s3 := Send(s2, granted, OpenOrders, 1);
    var o4 := Chase(o.(shared := s3), granted, known);
    SendEffect(o.shared, granted, Balances, 1);
    SendEffect(s1, granted, Positions, 1);
    SendEffect(s2, granted, OpenOrders, 1);
    ChaseEffect(o.(shared := s3), granted, known);
    SendEffect(o4.shared, granted, Trades, c.symbols);
  }

  // runs

  datatype Event =
    | SocketReady
    | SocketDisconnected
    | OnDropCopyTimer(stale: set<Key>, balanceDue: bool, staleDue: bool)
    | OnOrderEntryTimer(granted: set<Topic>, known: set<Key>)
    | OnReply(topic: Topic)
    | OnOrderReply(key: Key)

  function Entry(s: State): OrderEntry {
    OrderEntry(s.counter, s.underflow, s.drop.shared)
  }

  function WithEntry(s: State, o: OrderEntry): State {
    State(s.drop.(shared := o.shared), o.counter, o.underflow)
  }

  function Step(c: Config, s: State, e: Event): State {
    match e
    case SocketReady => s.(drop := Begin(c, s.drop))
    case SocketDisconnected => s.(drop := Disconnect(s.drop))
    case OnDropCopyTimer(stale, balanceDue, staleDue) =>
      s.(drop := DropCopyTimer(c, s.drop, stale, balanceDue, staleDue))
    case OnOrderEntryTimer(granted, known) => WithEntry(s, OrderEntryTimer(c, Entry(s), granted, known))
    case OnReply(topic) => s.(drop := s.drop.(shared := Reply(s.drop.shared, topic)))
    case OnOrderReply(key) => WithEntry(s, OrderReply(Entry(s), key))
  }

  function Run(c: Config, s: State, events: seq<Event>): State {
    if events == [] then s else Step(c, Run(c, s, events[..|events| - 1]), events[|events| - 1])
  }

  lemma RunOfOne(c: Config, s: State, e: Event)
    ensures Run(c, s, [e]) == Step(c, s, e)
  {
    assert [e][..0] == [] && Run(c, s, []) == s;
  }

  lemma RunNothing(c: Config, s: State)
    ensures Run(c, s, []) == s
  {
  }

  lemma RunAppend(c: Config, s: State, events: seq<Event>, e: Event)
    ensures Run(c, s, events + [e]) == Step(c, Run(c, s, events), e)
  {
    hide Step;
    assert (events + [e])[..|events|] == events;
  }

  lemma {:induction false} RunConcat(c: Config, s: State, a: seq<Event>, b: seq<Event>)
    ensures Run(c, s, a + b) == Run(c, Run(c, s, a), b)
  {
    hide Run, Step;
    if b == [] {
      assert a + b == a;
      RunNothing(c, Run(c, s, a));
    } else {
      var init, last := b[..|b| - 1], b[|b| - 1];
      RunConcat(c, s, a, init);
      RunAppend(c, s, init, last);
      RunAppend(c, s, a + init, last);
      RunAppend(c, Run(c, s, a), init, last);
      LastOfConcat(a, b);
    }
  }

  const NOTHING := Shared({}, {}, {}, multiset{}, multiset{}, multiset{}, multiset{}, multiset{}, false, [])

  const INITIAL := State(DropCopy(Undefined, Disconnected, NOTHING), 0, false)
}
