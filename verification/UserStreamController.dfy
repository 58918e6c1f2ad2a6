/**
 The objects behind the life of the user streams: the controller owns one order-entry stream and at
 most one user stream per account, and every method is one step of the protocol.
 */
module UserStreamController {
  import opened Wrappers
  import opened ListenKey
  import opened UserStream

  class DropCopyStream {
    const streamId: nat
    const account: string
    const listenKey: string
    ghost const serial: nat
    var stop: bool
    ghost var gone: bool

    ghost function View(): DropCopy
      reads this
    {
      DropCopy(serial, listenKey, stop, gone)
    }

    constructor (streamId: nat, ghost serial: nat, account: string, listenKey: string)
      requires streamId == StreamId(serial)
      ensures View() == DropCopy(serial, listenKey, false, false)
      ensures this.streamId == streamId && this.account == account
    {
      this.streamId, this.serial, this.account, this.listenKey := streamId, serial, account, listenKey;
      stop, gone := false, false;
    }

    method OnListenKeyExpired()
      modifies this
      ensures View() == old(View()).(stop := true)
    {
      stop := true;
    }

    /** Tells whether the stream must be removed. */
    method OnDisconnected() returns (remove: bool)
      modifies this
      ensures remove == stop
      ensures View() == if old(stop) then old(View()).(gone := true) else old(View())
    {
      if stop {
        gone := true;
      }
      remove := stop;
    }

    /** A timer may make the connection retry, so a stream that is gone must not get one. */
    method OnTimer()
      requires !gone
    {
    }
  }

  class Controller {
    const config: Config
    const orderEntry: map<string, OrderEntry>
    var dropCopy: map<string, DropCopyStream?>
    var zombies: set<string>
    var streamId: nat
    ghost var serial: nat
    ghost var births: map<string, nat>
    ghost var deaths: map<string, nat>
    ghost var clock: nat

    ghost const entries: set<OrderEntry>
    ghost var streams: set<DropCopyStream>

    /** The maps refer to owned objects, each filed under its own account. */
    ghost predicate OwnsEntries() {
      forall a :: a in orderEntry ==>
        orderEntry[a] in entries && orderEntry[a].config == config && orderEntry[a].account == a
    }

    ghost predicate OwnsStreams()
      reads `dropCopy, `streams
    {
      forall a :: a in dropCopy && dropCopy[a] != null ==> dropCopy[a] in streams && dropCopy[a].account == a
    }

    ghost function Sessions(): map<string, Session>
      requires OwnsEntries()
      reads entries
    {
      map a | a in orderEntry :: orderEntry[a].View()
    }

    ghost function Streams(): map<string, Option<DropCopy>>
      requires OwnsStreams()
      reads `dropCopy, `streams, streams
    {
      map a | a in dropCopy :: if dropCopy[a] == null then None else Some(dropCopy[a].View())
    }

    ghost predicate Owns()
      reads this
    {
      OwnsEntries() && OwnsStreams() && streamId == StreamId(serial)
    }

    ghost function View(): State
      requires Owns()
      reads this, entries, streams
    {
      State(Sessions(), Streams(), zombies, serial, births, deaths, clock, false, false)
    }

    ghost method SetClock(now: Time)
      requires Owns()
      modifies `clock
      ensures Owns() && View() == old(View()).(clock := now)
    {
      clock := now;
      SameObjects();
    }

    /** The objects are as before, so what the maps mean is as before. */
    twostate lemma SameObjects()
      requires old(Owns()) && dropCopy == old(dropCopy) && streams == old(streams)
      requires unchanged(entries) && unchanged(streams)
      ensures OwnsEntries() && OwnsStreams()
      ensures Sessions() == old(Sessions()) && Streams() == old(Streams())
    {
    }

    ghost predicate Valid()
      reads this, entries, streams
    {
      Owns() && UserStream.Inv(orderEntry.Keys, View())
    }

    constructor (config: Config, orderEntry: map<string, OrderEntry>, serial: nat)
      requires forall a :: a in orderEntry ==>
                 orderEntry[a].config == config && orderEntry[a].account == a && orderEntry[a].View() == INITIAL
      ensures this.config == config && this.orderEntry == orderEntry
      ensures Valid() && View() == Init(orderEntry.Keys, serial)
    {
      this.config, this.orderEntry := config, orderEntry;
      dropCopy := map a | a in orderEntry :: null;
      zombies := {};
      streamId := StreamId(serial);
      this.serial, clock := serial, 0;
      births := map a | a in orderEntry :: 0;
      deaths := map a | a in orderEntry :: 0;
      entries := orderEntry.Values;
      streams := {};
      new;
      FirstView();
      hide OwnsEntries, OwnsStreams, Sessions, Streams, UserStream.Inv, Init;
      InitIsSafe(config, orderEntry.Keys, serial);
    }

    lemma FirstView()
      requires forall a :: a in orderEntry ==>
                 && orderEntry[a] in entries && orderEntry[a].config == config && orderEntry[a].account == a
                 && orderEntry[a].View() == INITIAL
      requires dropCopy.Keys == orderEntry.Keys && forall a :: a in dropCopy ==> dropCopy[a] == null
      ensures OwnsEntries() && OwnsStreams()
      ensures Sessions() == map a | a in orderEntry.Keys :: INITIAL
      ensures Streams() == map a | a in orderEntry.Keys :: None
    {
    }

    /** `++stream_id_` is the id of the new stream, wrapping at 16 bits. */
    method NewDropCopy(account: string, listenKey: string)
      requires Owns() && account in dropCopy
      modifies `streamId, `serial, `dropCopy, `streams
      ensures Owns() && fresh(streams - old(streams))
      ensures serial == old(serial) + 1
      ensures Streams() == old(Streams())[account := Some(DropCopy(serial, listenKey, false, false))]
    {
      streamId := (streamId + 1) % 0x1_0000;
      serial := serial + 1;
      var stream := new DropCopyStream(streamId, serial, account, listenKey);
      streams := streams + {stream};
      dropCopy := dropCopy[account := stream];
    }

    ghost method CountCreation(account: string)
      requires Owns() && account in births
      modifies `births
      ensures Owns() && Sessions() == old(Sessions()) && Streams() == old(Streams())
      ensures births == old(births)[account := old(births)[account] + 1]
    {
      births := births[account := births[account] + 1];
      SameObjects();
    }

    lemma SlotOf(account: string)
      requires OwnsStreams() && account in dropCopy
      ensures account in Streams()
      ensures Streams()[account] == if dropCopy[account] == null then None else Some(dropCopy[account].View())
    {
    }

    /** A listen key was published. */
    method CreateDropCopy(account: string, listenKey: string)
      requires Owns() && account in dropCopy && account in births
      modifies this
      ensures Owns() && View() == Create(old(View()), account, listenKey)
      ensures fresh(streams - old(streams))
    {
      SlotOf(account);
      hide OwnsEntries, OwnsStreams, Sessions, Streams;
      if dropCopy[account] == null {
        NewDropCopy(account, listenKey);
        CountCreation(account);
      }
    }

    method ResetSlot(account: string)
      requires Owns() && account in dropCopy
      modifies `dropCopy
      ensures Owns() && Streams() == old(Streams())[account := None] && Sessions() == old(Sessions())
    {
      dropCopy := dropCopy[account := null];
    }

    method ForceRefresh(account: string, now: Time)
      requires Owns() && account in orderEntry
      modifies entries
      ensures Sessions() == old(Sessions())[account := Force(old(Sessions())[account], now)]
      ensures Streams() == old(Streams())
    {
      orderEntry[account].ForceListenKeyRefresh(now);
    }

    ghost method CountRemoval(account: string)
      requires Owns() && account in deaths
      modifies `deaths
      ensures Owns() && Sessions() == old(Sessions()) && Streams() == old(Streams())
      ensures deaths == old(deaths)[account := old(deaths)[account] + 1]
    {
      deaths := deaths[account := deaths[account] + 1];
      SameObjects();
    }

    /** Removes one stream; both lookups of the source succeed. */
    method RemoveDropCopy(account: string, now: Time)
      requires Owns() && account in dropCopy && account in orderEntry && account in deaths
      modifies `dropCopy, `deaths, entries
      ensures Owns() && View() == RemoveOne(old(View()), account, now)
    {
      assert account in Streams() && account in Sessions();
      hide Force, OwnsEntries, OwnsStreams, Sessions, Streams;
      ResetSlot(account);
      ForceRefresh(account, now);
      CountRemoval(account);
    }

    method RemoveNext(account: string, now: Time, ghost before: State, ghost done: set<string>)
      requires Owns() && View() == Remove(before, done, now) && account !in done
      requires account in before.sessions && account in before.dropCopy && account in before.deaths
      modifies `dropCopy, `deaths, entries
      ensures Owns() && View() == Remove(before, done + {account}, now)
    {
      RemoveOneMore(before, done, account, now);
      assert account in View().sessions && account in View().dropCopy && account in View().deaths;
      hide Remove, RemoveOne;
      RemoveDropCopy(account, now);
    }

    /** Removes the zombies, in any order, and forces an early refresh of their listen keys. */
    method RemoveZombies(now: Time)
      requires Owns() && zombies <= dropCopy.Keys && zombies <= orderEntry.Keys && zombies <= deaths.Keys
      modifies `dropCopy, `deaths, entries
      ensures Owns() && View() == Remove(old(View()), zombies, now)
    {
      ghost var before, done := View(), {};
      var todo := zombies;
      RemoveNone(before, now);
      assert zombies <= before.sessions.Keys && zombies <= before.dropCopy.Keys && zombies <= before.deaths.Keys;
      hide Remove, RemoveOne, View;
      while todo != {}
        invariant todo + done == zombies && todo !! done && Owns()
        invariant View() == Remove(before, done, now)
        decreases |todo|
      {
        var account :| account in todo;
        RemoveNext(account, now, before, done);
        MoveOne(todo, done, account);
        todo := todo - {account};
        done := done + {account};
      }
      assert done == zombies;
    }

    method RefreshOrderEntry(account: string, now: Time)
      requires Owns() && account in orderEntry
      modifies entries
      ensures Sessions() == old(Sessions())[account := Ping(config, old(Sessions())[account], now)]
    {
      var _ := orderEntry[account].RefreshListenKey(now);
    }

    method RefreshNext(account: string, now: Time, ghost before: State, ghost done: set<string>)
      requires Owns() && View() == Refresh(config, before, done, now) && account !in done && account in before.sessions
      modifies entries
      ensures View() == Refresh(config, before, done + {account}, now)
    {
      RefreshOneMore(config, before, done, account, now);
      assert account in View().sessions;
      RefreshOrderEntry(account, now);
    }

    /** Passes the timer on; `refreshed` are the accounts whose connection is up. */
    method DispatchTimers(now: Time, refreshed: set<string>)
      requires Owns() && refreshed <= orderEntry.Keys
      requires NoneGone(Streams())
      modifies entries
      ensures View() == Refresh(config, old(View()), refreshed, now)
    {
      ghost var before, done := View(), {};
      RefreshNone(config, before, now);
      assert refreshed <= before.sessions.Keys;
      hide Refresh, View;
      var todo := refreshed;
      while todo != {}
        invariant todo + done == refreshed && todo !! done
        invariant View() == Refresh(config, before, done, now)
        decreases |todo|
      {
        var account :| account in todo;
        RefreshNext(account, now, before, done);
        MoveOne(todo, done, account);
        todo := todo - {account};
        done := done + {account};
      }
      assert done == refreshed;
      TimeDropCopies();
    }

    /** Every user stream gets the timer; none of them is gone. */
    method TimeDropCopies()
      requires Owns() && NoneGone(Streams())
    {
      var todo := dropCopy.Keys;
      while todo != {}
        invariant todo <= dropCopy.Keys
        decreases |todo|
      {
        var account :| account in todo;
        todo := todo - {account};
        if dropCopy[account] != null {
          assert Streams()[account] == Some(dropCopy[account].View());
          dropCopy[account].OnTimer();
        }
      }
    }

    // the events

    method OnTimer(now: Time, refreshed: set<string>)
      requires Valid() && refreshed <= orderEntry.Keys
      modifies this, entries
      ensures Valid() && View() == UserStream.Step(config, old(View()), Occurs(now, UserStream.OnTimer(refreshed)))
      ensures streams == old(streams)
    {
      ghost var before := View();
      TimerStep(config, orderEntry.Keys, before, now, refreshed);
      UserStream.StepKeepsInv(config, orderEntry.Keys, before, Occurs(now, UserStream.OnTimer(refreshed)));
      assert zombies <= dropCopy.Keys && zombies <= orderEntry.Keys;
      hide UserStream.Inv, UserStream.Step, Remove, Refresh;
      RemoveZombies(now);
      label Removed:
      zombies := {};
      SameObjects@Removed();
      DispatchTimers(now, refreshed);
      label Dispatched:
      clock := now;
      SameObjects@Dispatched();
    }

    /** Passes an event on to an order-entry stream, which may publish a listen key. */
    static method Deliver(entry: OrderEntry, now: Time, input: Input) returns (published: Option<string>)
      requires External(input)
      modifies entry
      ensures entry.View() == ListenKey.Step(entry.config, old(entry.View()), ListenKey.At(now, input))
      ensures published ==
              if input.KeyReply? then Published(entry.config, old(entry.View()), input.ok, input.key) else None
    {
      published := None;
      match input {
        case SocketReady => entry.OnSocketReady(now);
        case LogonReply(ok) => entry.OnLogon(now, ok);
        case KeyReply(ok, key) => published := entry.OnListenKey(now, ok, key);
        case Disconnected => entry.OnDisconnected(now);
      }
    }

    method OrderEntryEvent(account: string, now: Time, input: Input) returns (published: Option<string>)
      requires Owns() && account in orderEntry && External(input)
      modifies entries
      ensures Owns() && streams == old(streams)
      ensures account in old(View()).sessions
      ensures var s := old(View());
              && View() == s.(sessions := s.sessions[account :=
                                          ListenKey.Step(config, s.sessions[account], ListenKey.At(now, input))])
              && published ==
                 if input.KeyReply? then Published(config, s.sessions[account], input.ok, input.key) else None
    {
      hide ListenKey.Step, Published;
      published := Deliver(orderEntry[account], now, input);
      assert Sessions() == old(Sessions())[account := orderEntry[account].View()];
    }

    method OnListenKeyUpdate(account: string, published: Option<string>)
      requires Owns() && account in View().dropCopy && account in View().births
      modifies this
      ensures Owns() && fresh(streams - old(streams))
      ensures View() == if published.Some? then Create(old(View()), account, published.value) else old(View())
    {
      if published.Some? {
        CreateDropCopy(account, published.value);
      }
    }

    method UpdateSession(account: string, now: Time, input: Input)
      requires Owns() && External(input) && account in orderEntry
      requires account in View().dropCopy && account in View().births && account in View().sessions
      modifies this, entries
      ensures Owns() && View() == SessionStep(config, old(View()), now, account, input)
      ensures fresh(streams - old(streams))
    {
      hide ListenKey.Step, Create, Published, View, Owns, External, SessionStep;
      ghost var before := View();
      var published := OrderEntryEvent(account, now, input);
      ghost var between := View();
      OnListenKeyUpdate(account, published);
      SessionStepParts(config, before, now, account, input, between, View());
    }

    method OnSession(account: string, now: Time, input: Input)
      requires Valid() && account in orderEntry && External(input)
      modifies this, entries
      ensures Valid()
              && View() == UserStream.Step(config, old(View()), Occurs(now, UserStream.OnSession(account, input)))
      ensures fresh(streams - old(streams))
    {
      hide UserStream.Inv, UserStream.Step, UserStream.SessionStep, View, Owns, External;
      Domains(orderEntry.Keys, View());
      SessionEvent(config, orderEntry.Keys, View(), now, account, input);
      SetClock(now);
      UpdateSession(account, now, input);
    }

    /** The user stream is told that its listen key has expired. */
    method ExpireStream(account: string)
      requires Owns() && account in dropCopy
      modifies streams
      ensures Owns() && View() == Expire(old(View()), account)
    {
      if dropCopy[account] != null {
        dropCopy[account].OnListenKeyExpired();
        assert Streams() == old(Streams())[account := Some(old(Streams())[account].value.(stop := true))];
      }
    }

    method OnKeyExpired(account: string, now: Time)
      requires Valid() && account in dropCopy
      modifies `clock, streams
      ensures Valid() && View() == UserStream.Step(config, old(View()), Occurs(now, UserStream.OnKeyExpired(account)))
    {
      hide UserStream.Inv, UserStream.Step, Expire, View, Owns;
      ghost var before, event := View(), Occurs(now, UserStream.OnKeyExpired(account));
      UserStream.StepKeepsInv(config, orderEntry.Keys, before, event);
      StreamSteps(config, before, now, account);
      SetClock(now);
      ExpireStream(account);
    }

    method LoseConnection(account: string) returns (remove: bool)
      requires Owns() && account in dropCopy && dropCopy[account] != null
      modifies streams
      ensures Owns() && account in old(Streams()) && old(Streams())[account].Some?
      ensures remove == old(Streams())[account].value.stop
      ensures Streams() ==
              if remove then old(Streams())[account := Some(old(Streams())[account].value.(gone := true))]
              else old(Streams())
    {
      remove := dropCopy[account].OnDisconnected();
    }

    /** The user stream has lost its connection; a stopped one asks to be removed. */
    method DisconnectStream(account: string)
      requires Owns() && account in dropCopy
      modifies `zombies, streams
      ensures Owns() && View() == Disconnect(old(View()), account)
    {
      SlotOf(account);
      if dropCopy[account] != null {
        var remove := LoseConnection(account);
        hide OwnsEntries, OwnsStreams, Sessions, Streams;
        if remove {
          label Gone:
          zombies := zombies + {account};
          SameObjects@Gone();
        }
      }
    }

    method OnDisconnected(account: string, now: Time)
      requires Valid() && account in dropCopy
      modifies `clock, `zombies, streams
      ensures Valid() && View() == UserStream.Step(config, old(View()), Occurs(now, UserStream.OnDisconnected(account)))
    {
      hide UserStream.Inv, UserStream.Step, Disconnect, View, Owns;
      ghost var before, event := View(), Occurs(now, UserStream.OnDisconnected(account));
      UserStream.StepKeepsInv(config, orderEntry.Keys, before, event);
      StreamSteps(config, before, now, account);
      SetClock(now);
      DisconnectStream(account);
    }
  }
}
