/**
 Choosing the callback for a market-data message: two passes over the keys of the JSON object, the
 second of which knows the request id found in the first, and a recursive call for wrapped messages.
 An object is modelled as its fields in the order of the text; unknown keys are ignored, as in a
 release build.
 */
module MarketStreamParser {
  import Wrappers

  datatype EventKind =
    | NoEvent              // an empty event type
    | UnknownEvent
    | Trade
    | AggTrade
    | MiniTicker
    | BookTicker
    | DepthUpdate
    | MarkPriceUpdate
    | Kline
    | AssetIndexUpdate
    | ForceOrder
    | ListenKeyExpired
    | UserStreamEvent      // any of the events of a user stream, which must not arrive here

  datatype Field =
    | Id(id: int)
    | Error
    | Result
    | Data(payload: Message)
    | EventType(kind: EventKind)
    | Other(key: string)   // stream, update id, and unknown keys
    | Undefined            // a key that reads as undefined

  datatype Message = Message(fields: seq<Field>)

  /** The handler of an event decodes the message the event type was found in. */
  datatype Callback = OnError(id: int) | OnResult(id: int) | OnEvent(kind: EventKind, content: multiset<Field>)

  datatype Ending = Returned(result: bool) | Fatal

  datatype Outcome = Outcome(calls: seq<Callback>, ending: Ending)

  /** After a field the scan goes on, with the request id known so far, or stops. */
  datatype Next = Go(id: int) | Stop(outcome: Outcome)

  function OnEventType(kind: EventKind, content: multiset<Field>, allowUnknown: bool): Outcome
    requires !kind.NoEvent?
  {
    match kind
    case UnknownEvent => Outcome([], if allowUnknown then Returned(false) else Fatal)
    case UserStreamEvent => Outcome([], Fatal)
    case ListenKeyExpired => Outcome([], Returned(true))
    case _ => Outcome([OnEvent(kind, content)], Returned(true))
  }

  /** A wrapped message decides the calls, but not the result. */
  function Wrap(inner: Outcome): Outcome {
    inner.(ending := if inner.ending.Fatal? then Fatal else Returned(true))
  }

  /**
   The effect of one field.  `passes` is the number of passes over the keys of an object; the parser
   makes two, at every level of nesting.
   */
  function Visit(passes: nat, f: Field, id: int, content: multiset<Field>, allowUnknown: bool): Next
    decreases f
  {
    match f
    case Id(n) => Go(n)
    case Error => if id >= 0 then Stop(Outcome([OnError(id)], Returned(true))) else Go(id)
    case Result => if id >= 0 then Stop(Outcome([OnResult(id)], Returned(true))) else Go(id)
    case Data(payload) => Stop(Wrap(DispatchIn(passes, payload, allowUnknown)))
    case EventType(kind) => if kind.NoEvent? then Go(id) else Stop(OnEventType(kind, content, allowUnknown))
    case Other(_) => Go(id)
    case Undefined => Stop(Outcome([], Fatal))
  }

  function Scan(passes: nat, fields: seq<Field>, id: int, content: multiset<Field>, allowUnknown: bool): Next
    decreases fields, 0
  {
    if fields == [] then Go(id)
    else
      match Visit(passes, fields[0], id, content, allowUnknown)
      case Go(next) => Scan(passes, fields[1..], next, content, allowUnknown)
      case Stop(outcome) => Stop(outcome)
  }

  /** The last `n` of the passes over one object; when none of them decides, the process ends. */
  function Passes(passes: nat, n: nat, id: int, fields: seq<Field>, allowUnknown: bool): Outcome
    decreases fields, n + 1
  {
    if n == 0 then Outcome([], Fatal)
    else
      match Scan(passes, fields, id, multiset(fields), allowUnknown)
      case Go(next) => Passes(passes, n - 1, next, fields, allowUnknown)
      case Stop(outcome) => outcome
  }

  /** The recursion on wrapped messages ends because a payload is a proper part of its message. */
  function DispatchIn(passes: nat, m: Message, allowUnknown: bool): Outcome
    decreases m
  {
    Passes(passes, passes, -1, m.fields, allowUnknown)
  }

  function DispatchOutcome(m: Message, allowUnknown: bool): Outcome {
    DispatchIn(2, m, allowUnknown)
  }

  /** The parser: `calls` lists the handler invocations in order. */
  method Dispatch(m: Message, allowUnknown: bool) returns (calls: seq<Callback>, ending: Ending)
    ensures Outcome(calls, ending) == DispatchOutcome(m, allowUnknown)
    decreases m
  {
    var id, fields := -1, m.fields;
    for i := 0 to 2
      invariant DispatchOutcome(m, allowUnknown) == Passes(2, 2 - i, id, fields, allowUnknown)
    {
      ghost var known := id;
      for k := 0 to |fields|
        invariant Scan(2, fields, known, multiset(fields), allowUnknown)
               == Scan(2, fields[k..], id, multiset(fields), allowUnknown)
      {
        assert fields[k..][0] == fields[k] && fields[k..][1..] == fields[k + 1..];
        match fields[k] {
          case Id(n) => id := n;
          case Error =>
            if id >= 0 {
              return [OnError(id)], Returned(true);
            }
          case Result =>
            if id >= 0 {
              return [OnResult(id)], Returned(true);
            }
          case Data(payload) =>
            calls, ending := Dispatch(payload, allowUnknown);
            if ending.Returned? {
              ending := Returned(true);
            }
            return;
          case EventType(kind) =>
            match kind {
              case NoEvent =>
              case UnknownEvent => return [], if allowUnknown then Returned(false) else Fatal;
              case UserStreamEvent => return [], Fatal;
              case ListenKeyExpired => return [], Returned(true);
              case _ => return [OnEvent(kind, multiset(fields))], Returned(true);
            }
          case Other(_) =>
          case Undefined => return [], Fatal;
        }
      }
    }
    return [], Fatal;
  }

  // any number of passes

  /** The id after a scan that does not stop. */
  function LastId(fields: seq<Field>, id: int): int {
    if fields == [] then id else LastId(fields[1..], if fields[0].Id? then fields[0].id else id)
  }

  lemma {:induction false} ScanGoesTo(passes: nat, fields: seq<Field>, id: int,
                                      content: multiset<Field>, allowUnknown: bool)
    ensures var scan := Scan(passes, fields, id, content, allowUnknown); scan.Go? ==> scan.id == LastId(fields, id)
  {
    if fields == [] {
    } else if Visit(passes, fields[0], id, content, allowUnknown).Go? {
      ScanGoesTo(passes, fields[1..], Visit(passes, fields[0], id, content, allowUnknown).id, content, allowUnknown);
    }
  }

  lemma {:induction false} LastIdIsStable(fields: seq<Field>, id: int, other: int)
    ensures LastId(fields, LastId(fields, id)) == LastId(fields, id)
    ensures LastId(fields, other) == other || LastId(fields, other) == LastId(fields, id)
  {
    if fields == [] {
    } else {
      var f := fields[0];
      LastIdIsStable(fields[1..], if f.Id? then f.id else id, if f.Id? then f.id else other);
      LastIdIsStable(fields[1..], if f.Id? then f.id else id, if f.Id? then f.id else LastId(fields, id));
    }
  }

  /** A pass that starts with the final id ends with it, so further passes change nothing. */
  lemma {:induction false} StablePasses(passes: nat, n: nat, id: int, fields: seq<Field>, allowUnknown: bool)
    requires n >= 1 && LastId(fields, id) == id
    ensures Passes(passes, n, id, fields, allowUnknown) == Passes(passes, 1, id, fields, allowUnknown)
  {
    ScanGoesTo(passes, fields, id, multiset(fields), allowUnknown);
    if n == 1 {
    } else {
      StablePasses(passes, n - 1, id, fields, allowUnknown);
    }
  }

  /** Two passes are enough: any larger number, at every level of nesting, gives the same outcome. */
  lemma {:induction false} TwoPassesSuffice(passes: nat, m: Message, allowUnknown: bool)
    requires passes >= 2
    ensures DispatchIn(passes, m, allowUnknown) == DispatchOutcome(m, allowUnknown)
    decreases m
  {
    hide Scan, Visit, LastId;
    SamePasses(passes, passes, -1, m.fields, allowUnknown);
    FirstPass(passes, m.fields, allowUnknown);
    FirstPass(2, m.fields, allowUnknown);
  }

  /** From the second pass on nothing changes. */
  lemma FirstPass(n: nat, fields: seq<Field>, allowUnknown: bool)
    requires n >= 2
    ensures var scan := Scan(2, fields, -1, multiset(fields), allowUnknown);
            Passes(2, n, -1, fields, allowUnknown) ==
            if scan.Stop? then scan.outcome else Passes(2, 1, LastId(fields, -1), fields, allowUnknown)
  {
    ScanGoesTo(2, fields, -1, multiset(fields), allowUnknown);
    LastIdIsStable(fields, -1, -1);
    StablePasses(2, n - 1, LastId(fields, -1), fields, allowUnknown);
  }

  lemma {:induction false} SamePasses(passes: nat, n: nat, id: int, fields: seq<Field>, allowUnknown: bool)
    requires passes >= 2
    ensures Passes(passes, n, id, fields, allowUnknown) == Passes(2, n, id, fields, allowUnknown)
    decreases fields, n + 1
  {
    if n == 0 {
    } else {
      SameScan(passes, fields, id, multiset(fields), allowUnknown);
      var scan := Scan(2, fields, id, multiset(fields), allowUnknown);
      if scan.Go? {
        SamePasses(passes, n - 1, scan.id, fields, allowUnknown);
      }
    }
  }

  lemma {:induction false} SameScan(passes: nat, fields: seq<Field>, id: int,
                                    content: multiset<Field>, allowUnknown: bool)
    requires passes >= 2
    ensures Scan(passes, fields, id, content, allowUnknown) == Scan(2, fields, id, content, allowUnknown)
    decreases fields, 0
  {
    if fields == [] {
    } else {
      SameVisit(passes, fields[0], id, content, allowUnknown);
      var next := Visit(2, fields[0], id, content, allowUnknown);
      if next.Go? {
        SameScan(passes, fields[1..], next.id, content, allowUnknown);
      }
    }
  }

  lemma {:induction false} SameVisit(passes: nat, f: Field, id: int, content: multiset<Field>, allowUnknown: bool)
    requires passes >= 2
    ensures Visit(passes, f, id, content, allowUnknown) == Visit(2, f, id, content, allowUnknown)
    decreases f
  {
    if f.Data? {
      TwoPassesSuffice(passes, f.payload, allowUnknown);
    }
  }

  // the order of the keys

  predicate SameKey(f: Field, g: Field) {
    || (f.Id? && g.Id?) || (f.Error? && g.Error?) || (f.Result? && g.Result?) || (f.Data? && g.Data?)
    || (f.EventType? && g.EventType?) || (f.Other? && g.Other? && f.key == g.key) || (f.Undefined? && g.Undefined?)
  }

  predicate DistinctFields(fields: seq<Field>) {
    forall i, j :: 0 <= i < j < |fields| ==> !SameKey(fields[i], fields[j])
  }

  /** A field decides if the parser stops at it once the request id is known. */
  predicate Decides(f: Field, id: int) {
    f.Data? || f.Undefined? || (f.EventType? && !f.kind.NoEvent?) || ((f.Error? || f.Result?) && id >= 0)
  }

  function Verdict(f: Field, id: int, content: multiset<Field>, allowUnknown: bool): Outcome
    requires Decides(f, id)
  {
    Visit(2, f, id, content, allowUnknown).outcome
  }

  /** All ids among the fields are `id`, so a scan knows either no id or this one. */
  ghost predicate Knows(fields: seq<Field>, id: int) {
    forall f :: f in fields && f.Id? ==> f.id == id
  }

  lemma {:induction false} ScanStopsAtDecider(fields: seq<Field>, known: int, id: int,
                                              content: multiset<Field>, allowUnknown: bool)
    requires Knows(fields, id) && (known == -1 || known == id)
    ensures var next := Scan(2, fields, known, content, allowUnknown);
            && (next.Stop? ==>
                  exists f :: f in fields && Decides(f, id) && Verdict(f, id, content, allowUnknown) == next.outcome)
            && (next.Go? && known == id ==> forall f :: f in fields ==> !Decides(f, id))
            && (next.Go? ==> next.id == known || next.id == id)
            && (next.Go? && (exists f :: f in fields && f.Id?) ==> next.id == id)
  {
    if fields == [] {
    } else {
      var f, rest := fields[0], fields[1..];
      assert fields == [f] + rest;
      match Visit(2, f, known, content, allowUnknown) {
        case Stop(_) => assert f in fields && Decides(f, id);
        case Go(next) =>
          ScanStopsAtDecider(rest, next, id, content, allowUnknown);
          var scan := Scan(2, rest, next, content, allowUnknown);
          if scan.Stop? {
            var g :| g in rest && Decides(g, id) && Verdict(g, id, content, allowUnknown) == scan.outcome;
            assert g in fields;
          }
      }
    }
  }

  /** The request id of a message, or -1. */
  ghost function IdOf(fields: seq<Field>): int {
    LastId(fields, -1)
  }

  lemma {:induction false} IdIsKnown(fields: seq<Field>, start: int)
    requires DistinctFields(fields)
    ensures Knows(fields, LastId(fields, start))
    ensures (forall f :: f in fields ==> !f.Id?) ==> LastId(fields, start) == start
  {
    if fields == [] {
    } else {
      IdIsKnown(fields[1..], if fields[0].Id? then fields[0].id else start);
      assert fields == [fields[0]] + fields[1..];
      if fields[0].Id? {
        forall f | f in fields[1..] ensures !f.Id? {
          var k :| 0 <= k < |fields[1..]| && fields[1..][k] == f;
          assert !SameKey(fields[0], fields[k + 1]);
        }
      }
    }
  }

  /** The outcome is the verdict of one of the deciding fields, and a fatal end if there is none. */
  lemma OutcomeIsAVerdict(m: Message, allowUnknown: bool)
    requires DistinctFields(m.fields)
    ensures var id, content := IdOf(m.fields), multiset(m.fields);
            if exists f :: f in m.fields && Decides(f, id) then
              exists f ::
                && f in m.fields && Decides(f, id)
                && DispatchOutcome(m, allowUnknown) == Verdict(f, id, content, allowUnknown)
            else DispatchOutcome(m, allowUnknown) == Outcome([], Fatal)
  {
    var id, content := IdOf(m.fields), multiset(m.fields);
    IdIsKnown(m.fields, -1);
    ScanStopsAtDecider(m.fields, -1, id, content, allowUnknown);
    ScanStopsAtDecider(m.fields, id, id, content, allowUnknown);
    ScanGoesTo(2, m.fields, -1, content, allowUnknown);
    TwoPasses(m.fields, allowUnknown);
    hide Passes, Scan, LastId, Decides;
  }

  /** The two passes, written out. */
  lemma TwoPasses(fields: seq<Field>, allowUnknown: bool)
    ensures var s1 := Scan(2, fields, -1, multiset(fields), allowUnknown);
            DispatchOutcome(Message(fields), allowUnknown) ==
            if s1.Stop? then s1.outcome
            else
              var s2 := Scan(2, fields, s1.id, multiset(fields), allowUnknown);
              if s2.Stop? then s2.outcome else Outcome([], Fatal)
  {
    var s1 := Scan(2, fields, -1, multiset(fields), allowUnknown);
    if s1.Go? {
      var s2 := Scan(2, fields, s1.id, multiset(fields), allowUnknown);
      if s2.Go? {
        assert Passes(2, 0, s2.id, fields, allowUnknown) == Outcome([], Fatal);
      }
      assert Passes(2, 1, s1.id, fields, allowUnknown) == if s2.Stop? then s2.outcome else Outcome([], Fatal);
    }
    assert DispatchOutcome(Message(fields), allowUnknown) == Passes(2, 2, -1, fields, allowUnknown);
  }

  // what a message means

  /** The object has a request id, which is not negative. */
  ghost predicate HasId(fields: seq<Field>, n: int) {
    n >= 0 && Id(n) in fields
  }

  /** A field that says something: an error or a result of a request, a wrapped message, an event, a broken key. */
  ghost predicate Says(fields: seq<Field>, f: Field) {
    && f in fields
    && (|| ((f.Error? || f.Result?) && exists n :: HasId(fields, n))
        || f.Data? || (f.EventType? && f.kind != NoEvent) || f.Undefined?)
  }

  lemma SaysIsDecides(fields: seq<Field>, f: Field)
    requires DistinctFields(fields) && f in fields
    ensures Says(fields, f) <==> Decides(f, IdOf(fields))
    ensures forall n :: HasId(fields, n) ==> n == IdOf(fields)
  {
    IdIsKnown(fields, -1);
    hide DistinctFields, IdOf;
    if forall g :: g in fields ==> !g.Id? {
    } else {
      var g :| g in fields && g.Id?;
      assert g == Id(IdOf(fields));
      assert IdOf(fields) >= 0 ==> HasId(fields, IdOf(fields));
    }
  }

  /**
   What a message means, wherever its keys stand.  For distinct keys, if one field alone says something:
   an error or a result is handed over with the request id; an event with the object it was found in --
   except that events that are unknown or belong to a user stream end the process or are refused, and an
   expired key is ignored; a wrapped message makes the calls it makes on its own and is never refused; and
   a broken key, or an object that says nothing, ends the process.
   */
  lemma MessageMeaning(m: Message, f: Field, allowUnknown: bool)
    requires DistinctFields(m.fields) && Says(m.fields, f) && forall g :: Says(m.fields, g) ==> g == f
    ensures var out := DispatchOutcome(m, allowUnknown);
            && (f.Error? ==> exists n :: HasId(m.fields, n) && out == Outcome([OnError(n)], Returned(true)))
            && (f.Result? ==> exists n :: HasId(m.fields, n) && out == Outcome([OnResult(n)], Returned(true)))
            && (f == EventType(UnknownEvent) ==> out == Outcome([], if allowUnknown then Returned(false) else Fatal))
            && (f == EventType(UserStreamEvent) ==> out == Outcome([], Fatal))
            && (f == EventType(ListenKeyExpired) ==> out == Outcome([], Returned(true)))
            && (f.EventType? && f.kind !in {UnknownEvent, UserStreamEvent, ListenKeyExpired} ==>
                  out == Outcome([OnEvent(f.kind, multiset(m.fields))], Returned(true)))
            && (f.Data? ==>
                  var inner := DispatchOutcome(f.payload, allowUnknown);
                  out.calls == inner.calls && out.ending == if inner.ending == Fatal then Fatal else Returned(true))
            && (f.Undefined? ==> out == Outcome([], Fatal))
  {
    var id, content := IdOf(m.fields), multiset(m.fields);
    SaysIsDecides(m.fields, f);
    OutcomeIsAVerdict(m, allowUnknown);
    var g :| g in m.fields && Decides(g, id)
           && DispatchOutcome(m, allowUnknown) == Verdict(g, id, content, allowUnknown);
    SaysIsDecides(m.fields, g);
    if f.Error? || f.Result? {
      var n :| HasId(m.fields, n);
    }
    hide DispatchOutcome, IdOf, DistinctFields;
    WrappedVerdict(f, id, content, allowUnknown);
  }

  lemma WrappedVerdict(f: Field, id: int, content: multiset<Field>, allowUnknown: bool)
    ensures f.Data? ==> Verdict(f, id, content, allowUnknown) == Wrap(DispatchOutcome(f.payload, allowUnknown))
  {
  }

  /** A message that says nothing ends the process. */
  lemma NothingSaid(m: Message, allowUnknown: bool)
    requires DistinctFields(m.fields) && forall f :: !Says(m.fields, f)
    ensures DispatchOutcome(m, allowUnknown) == Outcome([], Fatal)
  {
    forall f | f in m.fields ensures !Decides(f, IdOf(m.fields)) {
      SaysIsDecides(m.fields, f);
      assert !Says(m.fields, f);
    }
    hide DispatchOutcome, IdOf, DistinctFields, Decides, Says;
    OutcomeIsAVerdict(m, allowUnknown);
  }

  // rearranging an object

  function ToFront(fields: seq<Field>, k: nat): seq<Field>
    requires k < |fields|
  {
    [fields[k]] + fields[..k] + fields[k + 1..]
  }

  lemma KeysDiffer(fields: seq<Field>, i: nat, j: nat)
    requires DistinctFields(fields) && i < |fields| && j < |fields| && i != j
    ensures !SameKey(fields[i], fields[j])
  {
    assert !SameKey(fields[if i < j then i else j], fields[if i < j then j else i]);
  }

  /** Where a field stood before the k-th one was moved to the front. */
  function Before(k: nat, i: nat): nat {
    if i == 0 then k else if i <= k then i - 1 else i
  }

  lemma ToFrontDistinct(fields: seq<Field>, k: nat)
    requires k < |fields| && DistinctFields(fields)
    ensures DistinctFields(ToFront(fields, k))
  {
    var r := ToFront(fields, k);
    assert forall i :: 0 <= i < |r| ==> r[i] == fields[Before(k, i)];
    forall i, j | 0 <= i < j < |r| ensures !SameKey(r[i], r[j]) {
      hide ToFront, DistinctFields, SameKey;
      KeysDiffer(fields, Before(k, i), Before(k, j));
    }
  }

  lemma MovedIsSame<T>(a: seq<T>, x: T, b: seq<T>)
    ensures multiset([x] + a + b) == multiset(a + [x] + b)
  {
  }

  lemma ToFrontKeeps(fields: seq<Field>, k: nat)
    requires k < |fields| && DistinctFields(fields)
    ensures var r := ToFront(fields, k);
            && multiset(r) == multiset(fields) && DistinctFields(r) && (forall g :: g in r <==> g in fields)
            && |r| == |fields| && r[0] == fields[k] && (k > 0 ==> r[1] == fields[0])
  {
    ToFrontDistinct(fields, k);
    hide DistinctFields;
    assert fields == fields[..k] + [fields[k]] + fields[k + 1..];
    MovedIsSame(fields[..k], fields[k], fields[k + 1..]);
    Wrappers.SameMultisetSameElements(ToFront(fields, k), fields);
  }

  /** Any deciding field can be made to decide, by moving it and the id to the front. */
  lemma CanDecide(m: Message, f: Field, allowUnknown: bool) returns (other: Message)
    requires DistinctFields(m.fields) && f in m.fields && Decides(f, IdOf(m.fields))
    ensures multiset(other.fields) == multiset(m.fields) && DistinctFields(other.fields)
    ensures DispatchOutcome(other, allowUnknown) == Verdict(f, IdOf(m.fields), multiset(m.fields), allowUnknown)
  {
    hide Visit, Scan, Passes, LastId, DispatchOutcome, ToFront, DistinctFields;
    var id := IdOf(m.fields);
    var k :| 0 <= k < |m.fields| && m.fields[k] == f;
    ToFrontKeeps(m.fields, k);
    var fields := ToFront(m.fields, k);
    IdIsKnown(m.fields, -1);
    if n :| 0 <= n < |fields| && fields[n].Id? {
      assert n > 0;
      ToFrontKeeps(fields, n);
      assert fields[n] in m.fields;
      FrontDecides(ToFront(fields, n), id, f, allowUnknown);
      other := Message(ToFront(fields, n));
    } else {
      forall g | g in m.fields ensures !g.Id? {
        assert g in fields;
      }
      FirstDecides(fields, f, allowUnknown);
      other := Message(fields);
    }
  }

  lemma FrontDecides(fields: seq<Field>, id: int, f: Field, allowUnknown: bool)
    requires |fields| >= 2 && fields[0] == Id(id) && fields[1] == f && Decides(f, id)
    ensures DispatchOutcome(Message(fields), allowUnknown) == Verdict(f, id, multiset(fields), allowUnknown)
  {
    var content := multiset(fields);
    assert fields[1..][0] == f;
    assert Visit(2, f, id, content, allowUnknown).Stop?;
    assert Scan(2, fields[1..], id, content, allowUnknown) == Visit(2, f, id, content, allowUnknown);
    assert Scan(2, fields, -1, content, allowUnknown) == Visit(2, f, id, content, allowUnknown);
    TwoPasses(fields, allowUnknown);
  }

  lemma FirstDecides(fields: seq<Field>, f: Field, allowUnknown: bool)
    requires fields != [] && fields[0] == f && Decides(f, -1)
    ensures DispatchOutcome(Message(fields), allowUnknown) == Verdict(f, -1, multiset(fields), allowUnknown)
  {
    assert Visit(2, f, -1, multiset(fields), allowUnknown).Stop?;
    TwoPasses(fields, allowUnknown);
  }

  /**
   When the order of the keys is irrelevant.  For an object with distinct keys every rearrangement
   has the same outcome if and only if all deciding fields have the same verdict -- so always when
   there is exactly one deciding field: an error or result beside a non-negative id, a wrapped
   message, or an event type.
   */
  lemma OrderIndependence(m: Message, allowUnknown: bool)
    requires DistinctFields(m.fields)
    ensures var id, content := IdOf(m.fields), multiset(m.fields);
            (forall f, g :: f in m.fields && g in m.fields && Decides(f, id) && Decides(g, id) ==>
               Verdict(f, id, content, allowUnknown) == Verdict(g, id, content, allowUnknown))
            <==> forall other: Message :: multiset(other.fields) == content && DistinctFields(other.fields) ==>
                   DispatchOutcome(other, allowUnknown) == DispatchOutcome(m, allowUnknown)
  {
    var id, content := IdOf(m.fields), multiset(m.fields);
    if forall f, g :: f in m.fields && g in m.fields && Decides(f, id) && Decides(g, id) ==>
         Verdict(f, id, content, allowUnknown) == Verdict(g, id, content, allowUnknown) {
      forall other: Message | multiset(other.fields) == content && DistinctFields(other.fields)
        ensures DispatchOutcome(other, allowUnknown) == DispatchOutcome(m, allowUnknown)
      {
        SameMembers(m.fields, other.fields);
        OutcomeIsAVerdict(m, allowUnknown);
        OutcomeIsAVerdict(other, allowUnknown);
      }
    } else {
      var f, g :| f in m.fields && g in m.fields && Decides(f, id) && Decides(g, id)
                  && Verdict(f, id, content, allowUnknown) != Verdict(g, id, content, allowUnknown);
      var first := CanDecide(m, f, allowUnknown);
      var second := CanDecide(m, g, allowUnknown);
    }
  }

  lemma SameMembers(a: seq<Field>, b: seq<Field>)
    requires multiset(a) == multiset(b) && DistinctFields(a) && DistinctFields(b)
    ensures forall f :: f in a <==> f in b
    ensures IdOf(a) == IdOf(b)
  {
    Wrappers.SameMultisetSameElements(a, b);
    IdIsKnown(a, -1);
    IdIsKnown(b, -1);
    if f :| f in a && f.Id? {
      assert f.id == IdOf(a) && f in b;
    }
  }
}
