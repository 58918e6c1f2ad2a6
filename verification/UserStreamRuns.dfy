/** Runs of the controller with one account, in which its user stream is removed and comes back or does not. */
module UserStreamRuns {
  import opened Wrappers
  import ListenKey
  import opened UserStream

  lemma RunAppend(c: ListenKey.Config, s: State, events: seq<Event>, e: Event)
    ensures Run(c, s, events + [e]) == Step(c, Run(c, s, events), e)
  {
    assert (events + [e])[..|events|] == events;
  }

  lemma {:induction false} RunJoin(c: ListenKey.Config, s: State, a: seq<Event>, b: seq<Event>)
    ensures Run(c, s, a + b) == Run(c, Run(c, s, a), b)
  {
    hide Step;
    if b == [] {
      assert a + b == a;
    } else {
      hide Run;
      var init, last := b[..|b| - 1], b[|b| - 1];
      RunJoin(c, s, a, init);
      RunAppend(c, s, a + init, last);
      RunAppend(c, Run(c, s, a), init, last);
      LastOfConcat(a, b);
    }
  }

  /** What makes a user stream a zombie: key expiry and a disconnect. */
  lemma ExpiryZombies(c: ListenKey.Config, accounts: set<string>, s: State, a: string, e1: Event, e2: Event)
    requires Inv(accounts, s) && a in accounts && s.dropCopy[a].Some?
    requires e1.change == OnKeyExpired(a) && e2.change == OnDisconnected(a)
    ensures var s1 := Step(c, s, e1);
            Inv(accounts, s1) && Inv(accounts, Step(c, s1, e2)) && a in Step(c, s1, e2).zombies
  {
    var s1 := Step(c, s, e1);
    StreamSteps(c, s, e1.now, a);
    StreamSteps(c, s1, e2.now, a);
    assert s1.dropCopy[a].Some? && s1.dropCopy[a].value.stop;
    hide Step, Inv;
    StepKeepsInv(c, accounts, s, e1);
    StepKeepsInv(c, accounts, s1, e2);
  }

  /** The next timer removes it. */
  lemma ExpiryRemoves(c: ListenKey.Config, accounts: set<string>, s: State, a: string, e1: Event, e2: Event, e3: Event)
    requires Inv(accounts, s) && a in accounts && s.dropCopy[a].Some?
    requires e1.change == OnKeyExpired(a) && e2.change == OnDisconnected(a) && e3.change.OnTimer?
    ensures var t := Step(c, Step(c, Step(c, s, e1), e2), e3);
            Inv(accounts, t) && t.dropCopy[a].None?
  {
    hide Step, Inv;
    ExpiryZombies(c, accounts, s, a, e1, e2);
    Removed(c, accounts, Step(c, Step(c, s, e1), e2), e3.now, e3.change.refreshed, a);
  }

  // two runs over REST: the stream is removed, and then a new key arrives

  function RepliedAt(now: ListenKey.Time, key: string): Event {
    Occurs(now, OnSession("a", ListenKey.KeyReply(true, key)))
  }

  function Replied(key: string): Event {
    RepliedAt(1, key)
  }

  /** A stream is created with the first key, its key expires, it disconnects and is removed. */
  function Removal(key: string): seq<Event> {
    [Replied(key), Occurs(1, OnKeyExpired("a")), Occurs(1, OnDisconnected("a")), Occurs(1, OnTimer({}))]
  }

  lemma RunOfFour(c: ListenKey.Config, s: State, e1: Event, e2: Event, e3: Event, e4: Event)
    ensures Run(c, s, [e1, e2, e3, e4]) == Step(c, Step(c, Step(c, Step(c, s, e1), e2), e3), e4)
  {
    hide Step;
    assert Run(c, s, []) == s;
    assert [e1] == [] + [e1] && [e1, e2] == [e1] + [e2] && [e1, e2, e3] == [e1, e2] + [e3];
    assert [e1, e2, e3, e4] == [e1, e2, e3] + [e4];
    RunAppend(c, s, [], e1);
    RunAppend(c, s, [e1], e2);
    RunAppend(c, s, [e1, e2], e3);
    RunAppend(c, s, [e1, e2, e3], e4);
  }

  lemma AfterRemoval(c: ListenKey.Config, key: string)
    requires c.mode.Classic? && key != ""
    ensures var s := Run(c, Init({"a"}, 0), Removal(key));
            && Inv({"a"}, s) && s.dropCopy["a"].None? && s.births["a"] == 1 && s.sessions["a"].listenKey == key
  {
    var s0 := Init({"a"}, 0);
    var s1 := Step(c, s0, Removal(key)[0]);
    RunOfFour(c, s0, Removal(key)[0], Removal(key)[1], Removal(key)[2], Removal(key)[3]);
    Safety(c, {"a"}, 0, []);
    StepKeepsInv(c, {"a"}, s0, Removal(key)[0]);
    ClassicStep(c, {"a"}, s0, Removal(key)[0], "a");
    assert s0.births["a"] == 0;
    ClassicStreamsAreBounded(c, {"a"}, 0, Removal(key), "a");
    LastOfRemoval(key);
    ThreeBirthless(c, {"a"}, s1, "a", Removal(key)[1], Removal(key)[2], Removal(key)[3]);
    ExpiryRemoves(c, {"a"}, s1, "a", Removal(key)[1], Removal(key)[2], Removal(key)[3]);
    hide Step, Run, Inv;
  }

  lemma LastOfRemoval(key: string)
    ensures LastReply(Removal(key), "a") == Some(key)
  {
    var r := Removal(key);
    assert r[..4] == r && r[..3][..2] == r[..2] && r[..2][..1] == r[..1] && r[..1][0] == Replied(key);
    assert LastReply(r[..1], "a") == Some(key);
    assert LastReply(r[..2], "a") == LastReply(r[..1], "a");
    assert LastReply(r[..3], "a") == LastReply(r[..2], "a");
  }

  lemma ThreeBirthless(c: ListenKey.Config, accounts: set<string>, s: State, a: string, e1: Event, e2: Event, e3: Event)
    requires c.mode.Classic? && Inv(accounts, s) && a in accounts
    requires !IsKeyReply(e1, a) && !IsKeyReply(e2, a) && !IsKeyReply(e3, a)
    ensures var t := Step(c, Step(c, Step(c, s, e1), e2), e3);
            a in t.births && t.births[a] == s.births[a]
  {
    hide Step;
    var s1 := Step(c, s, e1);
    var s2 := Step(c, s1, e2);
    StepKeepsInv(c, accounts, s, e1);
    StepKeepsInv(c, accounts, s1, e2);
    ClassicStep(c, accounts, s, e1, a);
    ClassicStep(c, accounts, s1, e2, a);
    ClassicStep(c, accounts, s2, e3, a);
  }

  /** A different key after the removal creates nothing; the same key after an empty one brings a second stream. */
  lemma TwoRestRuns(c: ListenKey.Config)
    requires c.mode.Classic?
    ensures var lost := Run(c, Init({"a"}, 0), Removal("k1") + [Replied("k2")]);
            "a" in lost.dropCopy && lost.dropCopy["a"].None? && "a" in lost.births && lost.births["a"] == 1
    ensures var back := Run(c, Init({"a"}, 0), Removal("k1") + [Replied("")] + [Replied("k2")]);
            "a" in back.dropCopy && back.dropCopy["a"].Some? && "a" in back.births && back.births["a"] == 2
  {
    hide Step, Run;
    var s := Run(c, Init({"a"}, 0), Removal("k1"));
    AfterRemoval(c, "k1");
    ClassicStep(c, {"a"}, s, Replied("k2"), "a");
    RunAppend(c, Init({"a"}, 0), Removal("k1"), Replied("k2"));
    var t := Step(c, s, Replied(""));
    StepKeepsInv(c, {"a"}, s, Replied(""));
    KeyIsStored(c, {"a"}, s, Replied(""), "a");
    ClassicStep(c, {"a"}, s, Replied(""), "a");
    RunAppend(c, Init({"a"}, 0), Removal("k1"), Replied(""));
    ClassicStep(c, {"a"}, t, Replied("k2"), "a");
    RunAppend(c, Init({"a"}, 0), Removal("k1") + [Replied("")], Replied("k2"));
  }

  // a run over the WebSocket API: the stream is removed, a ping is forced, and its reply brings the stream back

  /** Over the WebSocket API every status-200 reply brings a stream, if there is none. */
  lemma WsapiStep(c: ListenKey.Config, accounts: set<string>, s: State, e: Event, a: string)
    requires c.mode.Wsapi? && Inv(accounts, s) && a in accounts
    ensures var t := Step(c, s, e);
            && a in t.births && a in t.dropCopy
            && t.births[a] == s.births[a] + (if IsKeyReply(e, a) && s.dropCopy[a].None? then 1 else 0)
            && (s.dropCopy[a].None? ==>
                  t.dropCopy[a] ==
                  if IsKeyReply(e, a) then Some(DropCopy(t.serial, e.change.input.key, false, false)) else None)
  {
    Domains(accounts, s);
    hide Inv;
    match e.change {
      case OnTimer(refreshed) => hide SessionStep;
      case OnSession(account, input) => hide Reap, DispatchTimer;
      case OnKeyExpired(account) => hide SessionStep, Reap, DispatchTimer;
      case OnDisconnected(account) => hide SessionStep, Reap, DispatchTimer;
      case OnOtherStream => hide SessionStep, Reap, DispatchTimer;
    }
  }

  /** What one event of the account's order-entry stream does. */
  lemma InputStep(c: ListenKey.Config, s: State, now: ListenKey.Time, input: ListenKey.Input)
    requires c.mode.Wsapi? && Inv({"a"}, s) && External(input)
    ensures var e := Occurs(now, OnSession("a", input));
            var t := Step(c, s, e);
            && Inv({"a"}, t) && t.sessions["a"] == ListenKey.Step(c, s.sessions["a"], ListenKey.At(now, input))
            && t.births["a"] == s.births["a"] + (if IsKeyReply(e, "a") && s.dropCopy["a"].None? then 1 else 0)
            && (s.dropCopy["a"].None? ==>
                  t.dropCopy["a"] ==
                  if IsKeyReply(e, "a") then Some(DropCopy(t.serial, e.change.input.key, false, false)) else None)
  {
    var e := Occurs(now, OnSession("a", input));
    StepKeepsInv(c, {"a"}, s, e);
    SessionSteps(c, s, e, "a");
    WsapiStep(c, {"a"}, s, e, "a");
    hide Step, ListenKey.Step, Inv;
  }

  lemma RunOfThree(c: ListenKey.Config, s: State, e1: Event, e2: Event, e3: Event)
    ensures Run(c, s, [e1] + [e2] + [e3]) == Step(c, Step(c, Step(c, s, e1), e2), e3)
  {
    hide Step;
    assert Run(c, s, []) == s && [] + [e1] == [e1];
    RunAppend(c, s, [], e1);
    RunAppend(c, s, [e1], e2);
    RunAppend(c, s, [e1] + [e2], e3);
  }

  /** The stream connects, logs on, and receives a key. */
  function Start(key: string): seq<Event> {
    [Occurs(1, OnSession("a", ListenKey.SocketReady))] + [Occurs(1, OnSession("a", ListenKey.LogonReply(true)))]
    + [Replied(key)]
  }

  lemma AfterStart(c: ListenKey.Config, key: string)
    requires c.mode.Wsapi?
    ensures var s := Run(c, Init({"a"}, 0), Start(key));
            && Inv({"a"}, s) && s.births["a"] == 1 && s.dropCopy["a"].Some?
            && s.sessions["a"] == ListenKey.Session(ListenKey.Ready, key, 1 + c.period, [])
  {
    var s0 := Init({"a"}, 0);
    InitIsSafe(c, {"a"}, 0);
    assert s0.births["a"] == 0 && s0.dropCopy["a"].None? && s0.sessions["a"] == ListenKey.INITIAL;
    hide Init, Inv, Run, Step;
    var s1 := Step(c, s0, Occurs(1, OnSession("a", ListenKey.SocketReady)));
    InputStep(c, s0, 1, ListenKey.SocketReady);
    var s2 := Step(c, s1, Occurs(1, OnSession("a", ListenKey.LogonReply(true))));
    InputStep(c, s1, 1, ListenKey.LogonReply(true));
    InputStep(c, s2, 1, ListenKey.KeyReply(true, key));
    RunOfThree(c, s0, Start(key)[0], Start(key)[1], Start(key)[2]);
  }

  /** Its key expires, it disconnects, and it is removed. */
  const EXPIRY: seq<Event> :=
    [Occurs(1, OnKeyExpired("a"))] + [Occurs(1, OnDisconnected("a"))] + [Occurs(1, OnTimer({}))]

  lemma AfterExpiry(c: ListenKey.Config, s: State)
    requires c.mode.Wsapi? && Inv({"a"}, s) && s.dropCopy["a"].Some?
    ensures var t := Run(c, s, EXPIRY);
            && Inv({"a"}, t) && t.births["a"] == s.births["a"] && t.dropCopy["a"].None? && "a" !in t.zombies
            && t.sessions["a"] == s.sessions["a"].(deadline := 1 + ListenKey.REFRESH_DELAY)
  {
    var e1, e2, e3 := Occurs(1, OnKeyExpired("a")), Occurs(1, OnDisconnected("a")), Occurs(1, OnTimer({}));
    var s1 := Step(c, s, e1);
    var s2 := Step(c, s1, e2);
    ExpiryZombies(c, {"a"}, s, "a", e1, e2);
    hide Inv, Run, Step;
    WsapiStep(c, {"a"}, s, e1, "a");
    WsapiStep(c, {"a"}, s1, e2, "a");
    WsapiStep(c, {"a"}, s2, e3, "a");
    SessionSteps(c, s, e1, "a");
    SessionSteps(c, s1, e2, "a");
    StepKeepsInv(c, {"a"}, s2, e3);
    ReapingArmsTheRefresh(c, {"a"}, s2, 1, {}, "a");
    RunOfThree(c, s, e1, e2, e3);
  }

  /** Ten seconds after the removal the stream gets a timer. */
  const REFRESHED: Event := Occurs(1 + ListenKey.REFRESH_DELAY, OnTimer({"a"}))

  lemma AfterRefresh(c: ListenKey.Config, s: State)
    requires c.mode.Wsapi? && Inv({"a"}, s) && s.dropCopy["a"].None? && "a" !in s.zombies
    requires ListenKey.PingDue(c, s.sessions["a"], REFRESHED.now)
    ensures var t := Step(c, s, REFRESHED);
            && Inv({"a"}, t) && t.births["a"] == s.births["a"] && t.dropCopy["a"].None?
            && t.sessions["a"].pings == s.sessions["a"].pings + [REFRESHED.now]
  {
    StepKeepsInv(c, {"a"}, s, REFRESHED);
    WsapiStep(c, {"a"}, s, REFRESHED, "a");
    SessionSteps(c, s, REFRESHED, "a");
    hide Inv, Step;
  }

  /**
   A user stream that comes back: its removal forces a ping ten seconds later, and the reply to that ping
   brings a second stream, with the key of the reply.
   */
  lemma WsapiComeback(c: ListenKey.Config, key: string, next: string)
    requires c.mode.Wsapi? && key != ""
    ensures var removed := Run(c, Init({"a"}, 0), Start(key) + EXPIRY);
            "a" in removed.dropCopy && removed.dropCopy["a"].None?
    ensures var back := Run(c, Init({"a"}, 0), Start(key) + EXPIRY + [REFRESHED] + [RepliedAt(REFRESHED.now, next)]);
            && "a" in back.dropCopy && back.dropCopy["a"] == Some(DropCopy(back.serial, next, false, false))
            && "a" in back.births && back.births["a"] == 2
            && "a" in back.sessions && back.sessions["a"].pings == [REFRESHED.now]
  {
    hide Inv, Run, Step, Start;
    var s0 := Init({"a"}, 0);
    var reply := RepliedAt(REFRESHED.now, next);
    var started := Run(c, s0, Start(key));
    AfterStart(c, key);
    var removed := Run(c, s0, Start(key) + EXPIRY);
    RunJoin(c, s0, Start(key), EXPIRY);
    AfterExpiry(c, started);
    Domains({"a"}, removed);
    RunAppend(c, s0, Start(key) + EXPIRY, REFRESHED);
    AfterRefresh(c, removed);
    RunAppend(c, s0, Start(key) + EXPIRY + [REFRESHED], reply);
    InputStep(c, Step(c, removed, REFRESHED), REFRESHED.now, ListenKey.KeyReply(true, next));
    Domains({"a"}, Step(c, Step(c, removed, REFRESHED), reply));
  }
}
