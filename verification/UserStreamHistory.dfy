/**
 What the events of a run say about its user streams: which streams are stopped, which accounts are
 zombies, and when a stream is removed.
 */
module UserStreamHistory {
  import opened Wrappers
  import ListenKey
  import opened UserStream

  type Config = ListenKey.Config

  /** The number of the stream of an account, if it has one. */
  function Present(s: State, a: string): Option<nat> {
    if a in s.dropCopy && s.dropCopy[a].Some? then Some(s.dropCopy[a].value.serial) else None
  }

  /** The stream of an account after the first events of a run from the start. */
  function PresentAt(c: Config, accounts: set<string>, serial: nat, events: seq<Event>, a: string): Option<nat> {
    Present(Run(c, Init(accounts, serial), events), a)
  }

  /** What one event does to the stream of one account. */
  lemma SlotStep(c: Config, accounts: set<string>, s: State, e: Event, a: string)
    requires Inv(accounts, s) && a in accounts
    ensures var t := Step(c, s, e);
            && a in t.dropCopy
            && (a in t.zombies <==>
                  && !e.change.OnTimer?
                  && (a in s.zombies ||
                      (e.change == OnDisconnected(a) && s.dropCopy[a].Some? && s.dropCopy[a].value.stop)))
            && (s.dropCopy[a].Some? ==>
                  if e.change.OnTimer? && a in s.zombies then t.dropCopy[a].None?
                  else
                    && t.dropCopy[a].Some? && t.dropCopy[a].value.serial == s.dropCopy[a].value.serial
                    && t.dropCopy[a].value.stop == (s.dropCopy[a].value.stop || e.change == OnKeyExpired(a)))
            && (s.dropCopy[a].None? && t.dropCopy[a].Some? ==>
                  t.dropCopy[a].value.serial > s.serial && !t.dropCopy[a].value.stop)
  {
    assert Sound(s, a);
    hide Inv;
    match e.change {
      case OnTimer(refreshed) => hide SessionStep;
      case OnSession(account, input) => hide Reap, DispatchTimer;
      case OnKeyExpired(account) => hide SessionStep, Reap, DispatchTimer;
      case OnDisconnected(account) => hide SessionStep, Reap, DispatchTimer;
      case OnOtherStream => hide SessionStep, Reap, DispatchTimer;
    }
  }

  // what the lookups of the controller find

  /**
   In every reachable state every account has its entries, so that none of the lookups of the controller
   fails, and a stream is gone exactly if its account is a zombie.
   */
  lemma LookupsSucceed(c: Config, accounts: set<string>, serial: nat, events: seq<Event>, a: string)
    requires a in accounts
    ensures var s := Run(c, Init(accounts, serial), events);
            && s.zombies <= accounts && a in s.sessions && a in s.dropCopy && a in s.births && a in s.deaths
            && (s.dropCopy[a].Some? ==> (s.dropCopy[a].value.gone <==> a in s.zombies))
  {
    Safety(c, accounts, serial, events);
    hide Run;
    assert Sound(Run(c, Init(accounts, serial), events), a);
  }

  /** A timer of the controller is passed on to no stream that is gone: the streams that are left are not. */
  lemma NoTimerForTheGone(c: Config, accounts: set<string>, s: State, now: ListenKey.Time, refreshed: set<string>,
                          a: string)
    requires Inv(accounts, s) && a in accounts
    ensures var t := Step(c, s, Occurs(now, OnTimer(refreshed)));
            a in t.dropCopy && t.zombies == {} && (t.dropCopy[a].Some? ==> !t.dropCopy[a].value.gone)
  {
    StepKeepsInv(c, accounts, s, Occurs(now, OnTimer(refreshed)));
    var t := Step(c, s, Occurs(now, OnTimer(refreshed)));
    assert t.zombies == {};
    assert Sound(t, a);
  }

  /** Pings are sent at timers of the controller, and only for the accounts it refreshes. */
  lemma PingsAtTimersOnly(c: Config, accounts: set<string>, s: State, e: Event, a: string)
    requires Inv(accounts, s) && a in accounts
    requires !(e.change.OnTimer? && a in e.change.refreshed)
    ensures a in s.sessions && a in Step(c, s, e).sessions
    ensures Step(c, s, e).sessions[a].pings == s.sessions[a].pings
  {
    Domains(accounts, s);
    hide Inv;
    SessionSteps(c, s, e, a);
    hide Step;
  }

  /** A stream created elsewhere takes a number, and changes nothing else. */
  lemma OtherStreamTakesANumber(c: Config, s: State, now: ListenKey.Time)
    ensures Step(c, s, Occurs(now, OnOtherStream)) == s.(serial := s.serial + 1, clock := now)
  {
  }

  // stopped streams and zombies

  /** The key of stream x of the account expired during the run. */
  ghost predicate ExpiredBy(c: Config, accounts: set<string>, serial: nat, events: seq<Event>, a: string, x: nat) {
    exists i :: 0 <= i < |events| && ExpiredAt(c, accounts, serial, events, a, x, i)
  }

  ghost predicate ExpiredAt(c: Config, accounts: set<string>, serial: nat, events: seq<Event>, a: string, x: nat,
                            i: nat)
    requires i < |events|
  {
    events[i].change == OnKeyExpired(a) && PresentAt(c, accounts, serial, events[..i], a) == Some(x)
  }

  /** Event j disconnects stream x of the account, whose key had expired, and the controller has had no timer since. */
  ghost predicate LostAt(c: Config, accounts: set<string>, serial: nat, events: seq<Event>, a: string, x: nat, j: nat)
    requires j < |events|
  {
    && events[j].change == OnDisconnected(a) && ExpiredBy(c, accounts, serial, events[..j], a, x)
    && forall k :: j < k < |events| ==> !events[k].change.OnTimer?
  }

  /** A disconnect after key expiry, with no timer since. */
  ghost predicate Lost(c: Config, accounts: set<string>, serial: nat, events: seq<Event>, a: string, x: nat) {
    exists j :: 0 <= j < |events| && LostAt(c, accounts, serial, events, a, x, j)
  }

  lemma ExpiredStep(c: Config, accounts: set<string>, serial: nat, events: seq<Event>, a: string, x: nat)
    requires events != []
    ensures var before, e := events[..|events| - 1], events[|events| - 1];
            ExpiredBy(c, accounts, serial, events, a, x) <==>
              || ExpiredBy(c, accounts, serial, before, a, x)
              || (e.change == OnKeyExpired(a) && PresentAt(c, accounts, serial, before, a) == Some(x))
  {
    hide PresentAt;
    var n := |events| - 1;
    var before := events[..n];
    forall i | 0 <= i < n
      ensures ExpiredAt(c, accounts, serial, events, a, x, i) <==> ExpiredAt(c, accounts, serial, before, a, x, i)
    {
      assert before[..i] == events[..i];
    }
    assert ExpiredAt(c, accounts, serial, events, a, x, n)
      <==> events[n].change == OnKeyExpired(a) && PresentAt(c, accounts, serial, before, a) == Some(x);
    hide ExpiredAt;
  }

  lemma LostStep(c: Config, accounts: set<string>, serial: nat, events: seq<Event>, a: string, x: nat)
    requires events != []
    ensures var before, e := events[..|events| - 1], events[|events| - 1];
            Lost(c, accounts, serial, events, a, x) <==>
              || (e.change == OnDisconnected(a) && ExpiredBy(c, accounts, serial, before, a, x))
              || (!e.change.OnTimer? && Lost(c, accounts, serial, before, a, x))
  {
    hide ExpiredBy;
    var n := |events| - 1;
    var before := events[..n];
    assert LostAt(c, accounts, serial, events, a, x, n)
      <==> events[n].change == OnDisconnected(a) && ExpiredBy(c, accounts, serial, before, a, x);
    forall j | 0 <= j < n
      ensures LostAt(c, accounts, serial, events, a, x, j)
         <==> LostAt(c, accounts, serial, before, a, x, j) && !events[n].change.OnTimer?
    {
      assert before[..j] == events[..j];
      assert forall k :: 0 <= k < n ==> before[k] == events[k];
    }
    hide LostAt;
  }

  /** Numbers are given out in ascending order, so a stream that is still to come has not expired. */
  lemma NotYetExpired(c: Config, accounts: set<string>, serial: nat, events: seq<Event>, a: string, x: nat)
    requires x > Run(c, Init(accounts, serial), events).serial
    ensures !ExpiredBy(c, accounts, serial, events, a, x)
  {
    forall i | 0 <= i < |events| ensures !ExpiredAt(c, accounts, serial, events, a, x, i) {
      PresentIsOld(c, accounts, serial, events, a, i);
    }
    hide ExpiredAt;
  }

  lemma PresentIsOld(c: Config, accounts: set<string>, serial: nat, events: seq<Event>, a: string, i: nat)
    requires i <= |events|
    ensures PresentAt(c, accounts, serial, events[..i], a).Some? ==>
              PresentAt(c, accounts, serial, events[..i], a).value <= Run(c, Init(accounts, serial), events).serial
  {
    Safety(c, accounts, serial, events[..i]);
    SerialsGrow(c, Init(accounts, serial), events, i);
    Domains(accounts, Run(c, Init(accounts, serial), events[..i]));
    hide Run, Inv;
  }

  lemma NotYetLost(c: Config, accounts: set<string>, serial: nat, events: seq<Event>, a: string, x: nat)
    requires x > Run(c, Init(accounts, serial), events).serial
    ensures !Lost(c, accounts, serial, events, a, x)
  {
    forall j | 0 <= j < |events| ensures !LostAt(c, accounts, serial, events, a, x, j) {
      SerialsGrow(c, Init(accounts, serial), events, j);
      NotYetExpired(c, accounts, serial, events[..j], a, x);
    }
    hide LostAt;
  }

  /** A stream is stopped if and only if its key has expired. */
  lemma {:induction false} StoppedExactly(c: Config, accounts: set<string>, serial: nat, events: seq<Event>, a: string)
    requires a in accounts
    ensures var s := Run(c, Init(accounts, serial), events);
            && a in s.dropCopy && Inv(accounts, s)
            && (s.dropCopy[a].Some? ==>
                  (s.dropCopy[a].value.stop <==> ExpiredBy(c, accounts, serial, events, a, s.dropCopy[a].value.serial)))
  {
    hide Step, Inv, ExpiredBy;
    Safety(c, accounts, serial, events);
    if events == [] {
      NothingAtFirst(accounts, serial, a);
    } else {
      var n := |events| - 1;
      var s, t := Run(c, Init(accounts, serial), events[..n]), Run(c, Init(accounts, serial), events);
      StoppedExactly(c, accounts, serial, events[..n], a);
      SlotStep(c, accounts, s, events[n], a);
      if t.dropCopy[a].Some? {
        var x := t.dropCopy[a].value.serial;
        ExpiredStep(c, accounts, serial, events, a, x);
        if s.dropCopy[a].None? {
          NotYetExpired(c, accounts, serial, events[..n], a, x);
        }
      }
    }
  }

  lemma NothingAtFirst(accounts: set<string>, serial: nat, a: string)
    requires a in accounts
    ensures a in Init(accounts, serial).dropCopy && Init(accounts, serial).dropCopy[a].None?
    ensures a !in Init(accounts, serial).zombies
  {
  }

  /**
   Which accounts are zombies.  After any run it is those whose present stream has seen its key expire and
   has been disconnected later, with no timer of the controller since.
   */
  lemma {:induction false} ZombiesExactly(c: Config, accounts: set<string>, serial: nat, events: seq<Event>, a: string)
    requires a in accounts
    ensures var s := Run(c, Init(accounts, serial), events);
            && a in s.dropCopy
            && (a in s.zombies <==>
                  s.dropCopy[a].Some? && Lost(c, accounts, serial, events, a, s.dropCopy[a].value.serial))
  {
    hide Step, Inv, ExpiredBy, Lost;
    StoppedExactly(c, accounts, serial, events, a);
    if events == [] {
      NothingAtFirst(accounts, serial, a);
    } else {
      var n := |events| - 1;
      var s, t := Run(c, Init(accounts, serial), events[..n]), Run(c, Init(accounts, serial), events);
      StoppedExactly(c, accounts, serial, events[..n], a);
      ZombiesExactly(c, accounts, serial, events[..n], a);
      SlotStep(c, accounts, s, events[n], a);
      if t.dropCopy[a].Some? {
        var x := t.dropCopy[a].value.serial;
        LostStep(c, accounts, serial, events, a, x);
        if s.dropCopy[a].None? {
          NotYetExpired(c, accounts, serial, events[..n], a, x);
          NotYetLost(c, accounts, serial, events[..n], a, x);
        }
      }
    }
  }

  /** Some timer from event n on found stream x disconnected after key expiry. */
  ghost predicate RemovedSince(c: Config, accounts: set<string>, serial: nat, events: seq<Event>, a: string, x: nat,
                               n: nat)
  {
    exists k :: n <= k < |events| && events[k].change.OnTimer? && Lost(c, accounts, serial, events[..k], a, x)
  }

  lemma RemovedStep(c: Config, accounts: set<string>, serial: nat, events: seq<Event>, a: string, x: nat, n: nat)
    requires n < |events|
    ensures var before, e := events[..|events| - 1], events[|events| - 1];
            RemovedSince(c, accounts, serial, events, a, x, n) <==>
              || RemovedSince(c, accounts, serial, before, a, x, n)
              || (e.change.OnTimer? && Lost(c, accounts, serial, before, a, x))
  {
    hide Lost;
    var m := |events| - 1;
    var before := events[..m];
    assert forall k :: 0 <= k < m ==> before[k] == events[k] && before[..k] == events[..k];
    if k :| n <= k < |events| && events[k].change.OnTimer? && Lost(c, accounts, serial, events[..k], a, x) {
      assert k < m ==> before[k] == events[k] && before[..k] == events[..k];
    }
    if k :| n <= k < m && before[k].change.OnTimer? && Lost(c, accounts, serial, before[..k], a, x) {
      assert before[k] == events[k] && before[..k] == events[..k];
    }
  }

  /**
   When a stream is removed.  A stream that is there after n events is there at the end of the run, unless
   some timer in between found that its key had expired and that it had been disconnected later.
   */
  lemma {:induction false} StaysUnlessLost(c: Config, accounts: set<string>, serial: nat, events: seq<Event>, a: string,
                                           n: nat, x: nat)
    requires a in accounts && n <= |events| && PresentAt(c, accounts, serial, events[..n], a) == Some(x)
    ensures PresentAt(c, accounts, serial, events, a) == Some(x)
            <==> !RemovedSince(c, accounts, serial, events, a, x, n)
  {
    hide Step, Inv, Lost;
    if n == |events| {
      assert events[..n] == events;
    } else {
      var m := |events| - 1;
      var s := Run(c, Init(accounts, serial), events[..m]);
      assert events[..m][..n] == events[..n];
      StaysUnlessLost(c, accounts, serial, events[..m], a, n, x);
      RemovedStep(c, accounts, serial, events, a, x, n);
      hide RemovedSince;
      StoppedExactly(c, accounts, serial, events[..m], a);
      ZombiesExactly(c, accounts, serial, events[..m], a);
      SlotStep(c, accounts, s, events[m], a);
      PresentIsOld(c, accounts, serial, events[..m], a, n);
    }
  }

  /** A stream whose key never expires is never removed, whatever else happens. */
  lemma StaysWithoutExpiry(c: Config, accounts: set<string>, serial: nat, events: seq<Event>, a: string, n: nat, x: nat)
    requires a in accounts && n <= |events| && PresentAt(c, accounts, serial, events[..n], a) == Some(x)
    requires forall i :: 0 <= i < |events| ==> events[i].change != OnKeyExpired(a)
    ensures PresentAt(c, accounts, serial, events, a) == Some(x)
  {
    hide PresentAt;
    StaysUnlessLost(c, accounts, serial, events, a, n, x);
    forall k | n <= k < |events| ensures !Lost(c, accounts, serial, events[..k], a, x) {
    }
  }
}
