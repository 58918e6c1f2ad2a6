/**
 Choosing the callback for a WSAPI reply: one scan over the keys of the JSON object, with a
 `result` and an `error` flag, stopping as soon as the helper returns true.  A field carries the
 text its value reads as, and a null value reads as the empty text.
 */
module WsapiParser {
  import opened Wrappers
  import opened Base64Url
  import opened WsapiRequest

  const KEY_ID := "id"
  const KEY_ERROR := "error"

  datatype Field = Field(key: string, text: string)

  datatype Callback =
    | OnError
    | OnSessionLogon
    | OnListenKey
    | OnAccountBalance
    | OnAccountStatus
    | OnAccountPosition
    | OnOpenOrders
    | OnTrades
    | OnOpenOrdersCancelAll(request: Request)
    | OnOrderPlace(request: Request)
    | OnOrderModify(request: Request)
    | OnOrderCancel(request: Request)

  /** How a dispatch ends: it returns a flag, terminates the process, or throws out of the scan. */
  datatype Ending = Returned(result: bool) | Fatal | Thrown(error: Error)

  datatype Outcome = Outcome(calls: seq<Callback>, ending: Ending)

  predicate KnownType(kind: Byte) {
    SESSION_LOGON <= kind <= MY_TRADES
  }

  /** The callback each known type is handed to. */
  function CallbackFor(r: Request): Callback
    requires KnownType(r.kind)
  {
    if r.kind == SESSION_LOGON then OnSessionLogon
    else if r.kind == USER_DATA_STREAM_START || r.kind == USER_DATA_STREAM_PING then OnListenKey
    else if r.kind == ACCOUNT_BALANCE then OnAccountBalance
    else if r.kind == ACCOUNT_STATUS then OnAccountStatus
    else if r.kind == ACCOUNT_POSITION then OnAccountPosition
    else if r.kind == ORDERS_STATUS then OnOpenOrders
    else if r.kind == MY_TRADES then OnTrades
    else if r.kind == OPEN_ORDERS_CANCEL_ALL then OnOpenOrdersCancelAll(r)
    else if r.kind == ORDER_PLACE then OnOrderPlace(r)
    else if r.kind == ORDER_MODIFY then OnOrderModify(r)
    else OnOrderCancel(r)
  }

  // the scan

  /** The captured flags, the callbacks so far, and whether and how the scan has stopped. */
  datatype Scan = Scan(calls: seq<Callback>, result: bool, error: bool, stopped: bool, broken: Option<Ending>)

  const START := Scan([], false, false, false, None)

  function Visit(s: Scan, field: Field): Scan {
    if field.key == KEY_ERROR then s.(error := true, stopped := s.result)
    else if field.key == KEY_ID && field.text != "" then VisitId(s, Parse(field.text))
    else s.(stopped := s.result)
  }

  function VisitId(s: Scan, id: Result<Request>): Scan {
    match id
    case Failure(e) => s.(stopped := true, broken := Some(Thrown(e)))
    case Success(r) =>
      if r.kind == UNDEFINED_INTERNAL then s.(stopped := true, broken := Some(Fatal))
      else if r.kind == UNKNOWN_INTERNAL then s.(stopped := true)
      else if KnownType(r.kind) then
        s.(calls := s.calls + [CallbackFor(r)], result := true, stopped := r.kind != USER_DATA_STREAM_PING)
      else s.(stopped := s.result)
  }

  function ScanFields(s: Scan, fields: seq<Field>): Scan
    decreases |fields|
  {
    if fields == [] || s.stopped then s else ScanFields(Visit(s, fields[0]), fields[1..])
  }

  function Finish(s: Scan, allowUnknown: bool): Outcome {
    if s.broken.Some? then Outcome(s.calls, s.broken.value)
    else if !s.result && s.error then Outcome(s.calls + [OnError], Returned(true))
    else if s.result || allowUnknown then Outcome(s.calls, Returned(s.result))
    else Outcome(s.calls, Fatal)
  }

  function DispatchOutcome(fields: seq<Field>, allowUnknown: bool): Outcome {
    Finish(ScanFields(START, fields), allowUnknown)
  }

  /** The parser: `calls` lists the handler invocations in order. */
  method Dispatch(fields: seq<Field>, allowUnknown: bool) returns (calls: seq<Callback>, ending: Ending)
    ensures Outcome(calls, ending) == DispatchOutcome(fields, allowUnknown)
  {
    calls := [];
    var result, error := false, false;
    var i := 0;
    while i < |fields|
      invariant 0 <= i <= |fields|
      invariant ScanFields(START, fields) == ScanFields(Scan(calls, result, error, false, None), fields[i..])
    {
      var stop := false;
      ghost var before := Scan(calls, result, error, false, None);
      if fields[i].key == KEY_ERROR {
        error := true;
        stop := result;
      } else if fields[i].key == KEY_ID && fields[i].text != "" {
        var decoded := WsapiRequest.Decode(fields[i].text);
        if decoded.Failure? {
          return calls, Thrown(decoded.error);
        }
        var request := decoded.value;
        if request.kind == UNDEFINED_INTERNAL {
          return calls, Fatal;
        } else if request.kind == UNKNOWN_INTERNAL {
          stop := true;
        } else if KnownType(request.kind) {
          calls := calls + [CallbackFor(request)];
          result := true;
          stop := request.kind != USER_DATA_STREAM_PING;
        } else {
          stop := result;
        }
      } else {
        stop := result;
      }
      assert Visit(before, fields[i]) == Scan(calls, result, error, stop, None);
      assert fields[i..][1..] == fields[i + 1..];
      i := i + 1;
      if stop {
        break;
      }
    }
    if !result && error {
      calls := calls + [OnError];
      result := true;
    }
    if result || allowUnknown {
      return calls, Returned(result);
    }
    return calls, Fatal;
  }

  // what the scan means for objects with distinct keys

  predicate DistinctKeys(fields: seq<Field>) {
    forall i, j :: 0 <= i < j < |fields| ==> fields[i].key != fields[j].key
  }

  /** Where a key stands, or the number of fields when it is missing. */
  function Find(fields: seq<Field>, key: string): (i: nat)
    ensures i <= |fields|
    ensures i < |fields| ==> fields[i].key == key
    ensures forall j :: 0 <= j < i ==> fields[j].key != key
  {
    if fields == [] then 0 else if fields[0].key == key then 0 else 1 + Find(fields[1..], key)
  }

  predicate Has(fields: seq<Field>, key: string) {
    Find(fields, key) < |fields|
  }

  /** The text of a key, empty when the key is missing. */
  function TextOf(fields: seq<Field>, key: string): string {
    if Has(fields, key) then fields[Find(fields, key)].text else ""
  }

  /** What a message without a usable id means. */
  function General(hasError: bool, allowUnknown: bool): Outcome {
    if hasError then Outcome([OnError], Returned(true))
    else if allowUnknown then Outcome([], Returned(false))
    else Outcome([], Fatal)
  }

  /** The meaning of a message, from the id text and the presence of an "error" key alone. */
  function Meaning(id: string, hasError: bool, allowUnknown: bool): Outcome {
    if id == "" then General(hasError, allowUnknown) else MeaningOfId(Parse(id), hasError, allowUnknown)
  }

  function MeaningOfId(id: Result<Request>, hasError: bool, allowUnknown: bool): Outcome {
    match id
    case Failure(e) => Outcome([], Thrown(e))
    case Success(r) =>
      if r.kind == UNDEFINED_INTERNAL then Outcome([], Fatal)
      else if KnownType(r.kind) then Outcome([CallbackFor(r)], Returned(true))
      else General(hasError, allowUnknown)
  }

  /** The one case where the position of the keys decides: an id of the reserved type "unknown" stops the scan. */
  predicate IdOfUnknownType(id: string) {
    id != "" && Parse(id).Success? && Parse(id).value.kind == UNKNOWN_INTERNAL
  }

  /** Before the id is reached, the scan only collects the error flag. */
  lemma {:induction false} ScanPrefix(s: Scan, fields: seq<Field>, n: nat)
    requires n <= |fields| && !s.result && !s.stopped
    requires forall j :: 0 <= j < n ==> fields[j].key != KEY_ID
    ensures ScanFields(s, fields)
            == ScanFields(s.(error := s.error || exists j :: 0 <= j < n && fields[j].key == KEY_ERROR), fields[n..])
    decreases n
  {
    if n == 0 {
      assert fields[0..] == fields;
    } else {
      var next := Visit(s, fields[0]);
      ScanPrefix(next, fields[1..], n - 1);
      assert fields[1..][n - 1..] == fields[n..];
      assert next.error == (s.error || fields[0].key == KEY_ERROR);
      assert forall j :: 0 <= j < n - 1 ==> fields[1..][j] == fields[j + 1];
      if j :| 0 <= j < n && fields[j].key == KEY_ERROR {
        assert j == 0 || fields[1..][j - 1].key == KEY_ERROR;
      }
    }
  }

  /** After a ping reply the scan stops at the next key without calling anything else. */
  lemma ScanAfterPing(s: Scan, fields: seq<Field>)
    requires s.result && !s.stopped && s.broken.None?
    requires forall j :: 0 <= j < |fields| ==> fields[j].key != KEY_ID
    ensures var t := ScanFields(s, fields); t.calls == s.calls && t.result && t.broken.None?
  {
    if fields != [] {
      assert ScanFields(Visit(s, fields[0]), fields[1..]) == Visit(s, fields[0]);
    }
  }

  /** Once an id without a callback has been passed, the rest only collects the error flag too. */
  lemma ScanNoId(s: Scan, fields: seq<Field>)
    requires !s.result && !s.stopped && s.broken.None?
    requires forall j :: 0 <= j < |fields| ==> fields[j].key != KEY_ID
    ensures ScanFields(s, fields) == s.(error := s.error || Has(fields, KEY_ERROR))
  {
    ScanPrefix(s, fields, |fields|);
    var i := Find(fields, KEY_ERROR);
  }

  /**
   For every object with distinct keys the outcome depends on the id and on whether there is an
   "error" key, never on where the keys stand -- unless the id has the reserved type "unknown".
   */
  lemma DispatchMeaning(fields: seq<Field>, allowUnknown: bool)
    requires DistinctKeys(fields)
    requires !IdOfUnknownType(TextOf(fields, KEY_ID)) || !Has(fields, KEY_ERROR)
    ensures DispatchOutcome(fields, allowUnknown)
            == Meaning(TextOf(fields, KEY_ID), Has(fields, KEY_ERROR), allowUnknown)
  {
    var n := Find(fields, KEY_ID);
    if n == |fields| {
      ScanNoId(START, fields);
    } else {
      ScanPrefix(START, fields, n);
      ErrorAround(fields, n);
      var rest := fields[n + 1..];
      assert fields[n..][1..] == rest && forall j :: 0 <= j < |rest| ==> rest[j] == fields[n + 1 + j];
      FromTheId(ScanAtId(fields, n), fields[n..], allowUnknown);
    }
  }

  /** The outcome when the scan starts at the id, having collected the error flag so far. */
  lemma FromTheId(s: Scan, fields: seq<Field>, allowUnknown: bool)
    requires s == START.(error := s.error) && fields != [] && fields[0].key == KEY_ID
    requires forall j :: 0 <= j < |fields[1..]| ==> fields[1..][j].key != KEY_ID
    requires IdOfUnknownType(fields[0].text) ==> !s.error && !Has(fields[1..], KEY_ERROR)
    ensures Finish(ScanFields(s, fields), allowUnknown)
            == Meaning(fields[0].text, s.error || Has(fields[1..], KEY_ERROR), allowUnknown)
  {
    assert ScanFields(s, fields) == ScanFields(Visit(s, fields[0]), fields[1..]);
    if fields[0].text == "" {
      ScanNoId(s, fields[1..]);
    } else {
      AfterTheId(s, Parse(fields[0].text), fields[1..], allowUnknown);
    }
  }

  lemma AfterTheId(s: Scan, id: Result<Request>, rest: seq<Field>, allowUnknown: bool)
    requires s == START.(error := s.error)
    requires forall j :: 0 <= j < |rest| ==> rest[j].key != KEY_ID
    requires id.Success? && id.value.kind == UNKNOWN_INTERNAL ==> !s.error && !Has(rest, KEY_ERROR)
    ensures Finish(ScanFields(VisitId(s, id), rest), allowUnknown)
            == MeaningOfId(id, s.error || Has(rest, KEY_ERROR), allowUnknown)
  {
    hide ScanFields, VisitId, Finish, CallbackFor, Has;
    match id {
      case Failure(e) => AfterFailure(s, e, rest, allowUnknown);
      case Success(r) =>
        if KnownType(r.kind) {
          AfterKnown(s, r, rest, allowUnknown);
        } else {
          AfterOther(s, r, rest, allowUnknown);
        }
    }
  }

  /** An id that does not decode. */
  lemma AfterFailure(s: Scan, e: Error, rest: seq<Field>, allowUnknown: bool)
    requires s == START.(error := s.error)
    ensures Finish(ScanFields(VisitId(s, Failure(e)), rest), allowUnknown) == Outcome([], Thrown(e))
  {
    assert VisitId(s, Failure(e)).stopped;
  }

  /** An id of a known type makes its call, and nothing after it makes another. */
  lemma AfterKnown(s: Scan, r: Request, rest: seq<Field>, allowUnknown: bool)
    requires s == START.(error := s.error) && KnownType(r.kind)
    requires forall j :: 0 <= j < |rest| ==> rest[j].key != KEY_ID
    ensures Finish(ScanFields(VisitId(s, Success(r)), rest), allowUnknown) == Outcome([CallbackFor(r)], Returned(true))
  {
    var next := VisitId(s, Success(r));
    assert next.calls == [CallbackFor(r)] && next.result && next.broken.None?;
    hide VisitId, CallbackFor;
    if next.stopped {
      assert ScanFields(next, rest) == next;
    } else {
      ScanAfterPing(next, rest);
    }
  }

  /** Any other id makes no call of its own. */
  lemma AfterOther(s: Scan, r: Request, rest: seq<Field>, allowUnknown: bool)
    requires s == START.(error := s.error) && !KnownType(r.kind)
    requires forall j :: 0 <= j < |rest| ==> rest[j].key != KEY_ID
    requires r.kind == UNKNOWN_INTERNAL ==> !s.error && !Has(rest, KEY_ERROR)
    ensures Finish(ScanFields(VisitId(s, Success(r)), rest), allowUnknown)
            == if r.kind == UNDEFINED_INTERNAL then Outcome([], Fatal)
               else General(s.error || Has(rest, KEY_ERROR), allowUnknown)
  {
    var next := VisitId(s, Success(r));
    assert next.calls == [] && !next.result;
    if next.stopped {
      assert ScanFields(next, rest) == next;
    } else {
      assert next == s;
      hide VisitId;
      ScanNoId(next, rest);
    }
  }

  /**
   The first id of a known type decides, whatever follows it -- a second id included -- except after a ping
   reply, which lets the scan go on.
   */
  lemma FirstIdDecides(fields: seq<Field>, r: Request, allowUnknown: bool)
    requires Find(fields, KEY_ID) < |fields| && TextOf(fields, KEY_ID) == IdOf(r)
    requires KnownType(r.kind) && r.kind != USER_DATA_STREAM_PING
    ensures DispatchOutcome(fields, allowUnknown) == Outcome([CallbackFor(r)], Returned(true))
  {
    hide IdOf, Parse, CallbackFor, ScanFields, Finish;
    RoundTrip(r);
    IdShape(r);
    var n := Find(fields, KEY_ID);
    ScanPrefix(START, fields, n);
    assert fields[n..][0] == fields[n];
    StopsAtKnown(ScanAtId(fields, n), fields[n..], r, allowUnknown);
  }

  lemma StopsAtKnown(s: Scan, fields: seq<Field>, r: Request, allowUnknown: bool)
    requires s == START.(error := s.error) && KnownType(r.kind) && r.kind != USER_DATA_STREAM_PING
    requires fields != [] && fields[0].key == KEY_ID && fields[0].text != "" && Parse(fields[0].text) == Success(r)
    ensures Finish(ScanFields(s, fields), allowUnknown) == Outcome([CallbackFor(r)], Returned(true))
  {
    hide Parse, CallbackFor;
    var next := VisitId(s, Success(r));
    assert Visit(s, fields[0]) == next;
    assert next.stopped && ScanFields(next, fields[1..]) == next;
  }

  /** The flags when the scan reaches the id. */
  ghost function ScanAtId(fields: seq<Field>, n: nat): Scan
    requires n <= |fields|
  {
    START.(error := exists j :: 0 <= j < n && fields[j].key == KEY_ERROR)
  }

  lemma ErrorAround(fields: seq<Field>, n: nat)
    requires n < |fields| && fields[n].key == KEY_ID
    ensures Has(fields, KEY_ERROR) <==> ScanAtId(fields, n).error || Has(fields[n + 1..], KEY_ERROR)
  {
    var i, rest := Find(fields, KEY_ERROR), fields[n + 1..];
    assert forall j :: 0 <= j < |rest| ==> rest[j] == fields[n + 1 + j];
    if n < i < |fields| {
      assert rest[i - n - 1].key == KEY_ERROR;
    }
  }

  /** With the reserved type the general-error callback fires exactly when "error" stands before "id". */
  lemma UnknownTypeIsPositional(fields: seq<Field>, allowUnknown: bool)
    requires DistinctKeys(fields) && IdOfUnknownType(TextOf(fields, KEY_ID))
    ensures DispatchOutcome(fields, allowUnknown)
            == General(Find(fields, KEY_ERROR) < Find(fields, KEY_ID), allowUnknown)
  {
    hide ScanFields, Parse;
    var n := Find(fields, KEY_ID);
    ScanPrefix(START, fields, n);
    FromUnknownId(ScanAtId(fields, n), fields[n..], allowUnknown);
    if ScanAtId(fields, n).error {
      var j :| 0 <= j < n && fields[j].key == KEY_ERROR;
    }
  }

  lemma FromUnknownId(s: Scan, fields: seq<Field>, allowUnknown: bool)
    requires s == START.(error := s.error) && fields != [] && fields[0].key == KEY_ID && IdOfUnknownType(fields[0].text)
    ensures Finish(ScanFields(s, fields), allowUnknown) == General(s.error, allowUnknown)
  {
    hide Parse;
    assert Visit(s, fields[0]).stopped;
  }

  /** Replies never cross over: two known types share a callback only if both concern the listen key. */
  lemma CallbacksAreTypeSpecific(r: Request, q: Request)
    requires KnownType(r.kind) && KnownType(q.kind)
    ensures CallbackFor(r) == CallbackFor(q) ==>
              || r.kind == q.kind
              || {r.kind, q.kind} == {USER_DATA_STREAM_START, USER_DATA_STREAM_PING}
    ensures CallbackFor(r) != OnError
  {
  }

  /** Rearranging an object. */
  predicate SameFields(a: seq<Field>, b: seq<Field>) {
    multiset(a) == multiset(b)
  }

  lemma SameLookup(a: seq<Field>, b: seq<Field>, key: string)
    requires DistinctKeys(a) && DistinctKeys(b) && SameFields(a, b)
    ensures Has(a, key) == Has(b, key) && TextOf(a, key) == TextOf(b, key)
  {
    SameMultisetSameElements(a, b);
    if Has(a, key) {
      assert a[Find(a, key)] in b;
    }
    if Has(b, key) {
      assert b[Find(b, key)] in a;
    }
  }

  /**
   Key order is irrelevant exactly outside that case: every rearrangement of the object gives the
   same outcome, if and only if the id is not of the reserved type or there is no "error" key.
   */
  lemma OrderIndependence(fields: seq<Field>, allowUnknown: bool)
    requires DistinctKeys(fields)
    ensures (!IdOfUnknownType(TextOf(fields, KEY_ID)) || !Has(fields, KEY_ERROR))
            <==> forall other | DistinctKeys(other) && SameFields(fields, other) ::
                   DispatchOutcome(other, allowUnknown) == DispatchOutcome(fields, allowUnknown)
  {
    var id := TextOf(fields, KEY_ID);
    if !IdOfUnknownType(id) || !Has(fields, KEY_ERROR) {
      forall other | DistinctKeys(other) && SameFields(fields, other)
        ensures DispatchOutcome(other, allowUnknown) == DispatchOutcome(fields, allowUnknown)
      {
        SameLookup(fields, other, KEY_ID);
        SameLookup(fields, other, KEY_ERROR);
        DispatchMeaning(fields, allowUnknown);
        DispatchMeaning(other, allowUnknown);
      }
    } else {
      var i, e := Find(fields, KEY_ID), Find(fields, KEY_ERROR);
      var other := fields[i := fields[e]][e := fields[i]];
      SwapKeepsFields(fields, i, e);
      UnknownTypeIsPositional(fields, allowUnknown);
      SameLookup(fields, other, KEY_ID);
      UnknownTypeIsPositional(other, allowUnknown);
      assert other[i].key == KEY_ERROR && other[e].key == KEY_ID;
    }
  }

  lemma SwapKeepsFields(fields: seq<Field>, i: nat, j: nat)
    requires DistinctKeys(fields) && i < |fields| && j < |fields|
    ensures var other := fields[i := fields[j]][j := fields[i]];
            DistinctKeys(other) && SameFields(fields, other)
  {
    SwapKeepsKeys(fields, i, j);
    SwapKeepsElements(fields, i, j);
  }

  lemma SwapKeepsKeys(fields: seq<Field>, i: nat, j: nat)
    requires DistinctKeys(fields) && i < |fields| && j < |fields|
    ensures DistinctKeys(fields[i := fields[j]][j := fields[i]])
  {
  }

  lemma SwapKeepsElements<T>(s: seq<T>, i: nat, j: nat)
    requires i < |s| && j < |s|
    ensures multiset(s[i := s[j]][j := s[i]]) == multiset(s)
  {
    var once := s[i := s[j]];
    assert multiset(once) == multiset(s) - multiset{s[i]} + multiset{s[j]};
    assert multiset(once[j := s[i]]) == multiset(once) - multiset{once[j]} + multiset{s[i]};
  }

  /** It does happen: an id of the reserved type and an "error" key, in either order. */
  lemma ReservedTypeHappens(allowUnknown: bool) returns (before: seq<Field>, after: seq<Field>)
    ensures DistinctKeys(before) && SameFields(before, after)
    ensures DispatchOutcome(before, allowUnknown) == General(true, allowUnknown)
    ensures DispatchOutcome(after, allowUnknown) == General(false, allowUnknown)
    ensures General(true, allowUnknown) != General(false, allowUnknown)
  {
    hide IdOf, Parse, DispatchOutcome;
    var r := Request(0, UNKNOWN_INTERNAL, 0, 0, 0, 0);
    RoundTrip(r);
    IdShape(r);
    var id, error := Field(KEY_ID, IdOf(r)), Field(KEY_ERROR, "");
    before, after := [error, id], [id, error];
    assert |KEY_ID| == 2 && |KEY_ERROR| == 5;
    assert Find(before, KEY_ERROR) == 0 && Find(before, KEY_ID) == 1;
    assert Find(after, KEY_ID) == 0 && Find(after, KEY_ERROR) == 1;
    UnknownTypeIsPositional(before, allowUnknown);
    UnknownTypeIsPositional(after, allowUnknown);
    assert multiset(before) == multiset{id, error};
  }
}
