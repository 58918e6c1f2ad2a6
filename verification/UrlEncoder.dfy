/**
 The URL-encoded bodies of order requests: place, modify (in the full form of fapi and the partial
 form of dapi) and cancel.  Quantities and prices are exact whole numbers of the smallest increment.
 */
module UrlEncoder {
  import opened Wrappers
  import DecimalText
  import opened ExternalOrderId

  datatype Pair = Pair(key: string, value: string)

  // print and parse

  function Assign(p: Pair): string {
    p.key + "=" + p.value
  }

  /** Every pair is followed by an ampersand. */
  function Terminated(pairs: seq<Pair>): string {
    if pairs == [] then "" else Terminated(pairs[..|pairs| - 1]) + Assign(pairs[|pairs| - 1]) + "&"
  }

  /** A body: the pairs with ampersands in between. */
  function Body(pairs: seq<Pair>): string
    requires pairs != []
  {
    Terminated(pairs[..|pairs| - 1]) + Assign(pairs[|pairs| - 1])
  }

  function Segments(text: string): seq<string>
    decreases |text|
  {
    var i := Find(text, '&');
    if i == |text| then [text] else [text[..i]] + Segments(text[i + 1..])
  }

  function ParsePair(segment: string): Pair {
    var i := Find(segment, '=');
    if i == |segment| then Pair(segment, "") else Pair(segment[..i], segment[i + 1..])
  }

  function ParsePairs(segments: seq<string>): seq<Pair> {
    seq(|segments|, i requires 0 <= i < |segments| => ParsePair(segments[i]))
  }

  /** Reading a body: split on ampersands, then at the first equals sign. */
  function Parse(text: string): seq<Pair> {
    ParsePairs(Segments(text))
  }

  /** A key must contain neither separator, a value no ampersand: what follows the first equals sign is the value. */
  predicate Clean(key: string) {
    '&' !in key && '=' !in key
  }

  predicate Plain(value: string) {
    '&' !in value
  }

  predicate CleanKeys(pairs: seq<Pair>) {
    forall p :: p in pairs ==> Clean(p.key)
  }

  predicate PlainValues(pairs: seq<Pair>) {
    forall p :: p in pairs ==> Plain(p.value)
  }

  lemma ParseAssign(p: Pair)
    requires Clean(p.key)
    ensures ParsePair(Assign(p)) == p
  {
    FindIn(p.key, '=', p.value);
    assert Assign(p) == p.key + ['='] + p.value;
    assert Assign(p)[..|p.key|] == p.key && Assign(p)[|p.key| + 1..] == p.value;
  }

  lemma SegmentsOfFirst(first: string, rest: string)
    requires '&' !in first
    ensures Segments(first) == [first]
    ensures Segments(first + "&" + rest) == [first] + Segments(rest)
  {
    var all := first + "&" + rest;
    FindIn(first, '&', rest);
    assert all == first + ['&'] + rest;
    assert all[..|first|] == first && all[|first| + 1..] == rest;
    assert Find(first, '&') == |first|;
  }

  /** The last segment is what follows the last ampersand. */
  lemma {:induction false} SegmentsOfLast(text: string, last: string)
    requires '&' !in last
    ensures Segments(text + "&" + last) == Segments(text) + [last]
    decreases |text|
  {
    hide Segments;
    var i := Find(text, '&');
    if i == |text| {
      SegmentsOfFirst(text, last);
      SegmentsOfFirst(last, "");
    } else {
      var first, rest := text[..i], text[i + 1..];
      assert text == first + "&" + rest;
      assert text + "&" + last == first + "&" + (rest + "&" + last);
      SegmentsOfFirst(first, rest);
      SegmentsOfFirst(first, rest + "&" + last);
      SegmentsOfLast(rest, last);
    }
  }

  lemma {:induction false} SegmentsOfBody(pairs: seq<Pair>)
    requires pairs != [] && CleanKeys(pairs) && PlainValues(pairs)
    ensures Segments(Body(pairs)) == seq(|pairs|, i requires 0 <= i < |pairs| => Assign(pairs[i]))
  {
    var n := |pairs| - 1;
    var before, last := pairs[..n], pairs[n];
    assert last in pairs && '&' !in Assign(last);
    if n == 0 {
      assert Body(pairs) == Assign(last);
      assert Find(Assign(last), '&') == |Assign(last)|;
    } else {
      SegmentsOfBody(before);
      assert Terminated(before) == Body(before) + "&";
      assert Body(pairs) == Body(before) + "&" + Assign(last);
      SegmentsOfLast(Body(before), Assign(last));
    }
  }

  /** The number of ampersands in a text. */
  function Ampersands(s: string): nat {
    if s == "" then 0 else Ampersands(s[..|s| - 1]) + if s[|s| - 1] == '&' then 1 else 0
  }

  lemma {:induction false} AmpersandsConcat(a: string, b: string)
    ensures Ampersands(a + b) == Ampersands(a) + Ampersands(b)
  {
    if b == "" {
      assert a + b == a;
    } else {
      var n := |b| - 1;
      AmpersandsConcat(a, b[..n]);
      assert (a + b)[..|a + b| - 1] == a + b[..n];
    }
  }

  lemma {:induction false} NoAmpersands(s: string)
    ensures Ampersands(s) == 0 <==> Plain(s)
  {
    if s == "" {
    } else {
      NoAmpersands(s[..|s| - 1]);
      assert s == s[..|s| - 1] + [s[|s| - 1]];
    }
  }

  lemma {:induction false} SegmentsAreSeparated(text: string)
    ensures |Segments(text)| == 1 + Ampersands(text)
    decreases |text|
  {
    hide Segments, Ampersands;
    var i := Find(text, '&');
    var first := text[..i];
    NoAmpersands(first);
    if i == |text| {
      assert first == text;
      SegmentsOfFirst(first, "");
    } else {
      var rest := text[i + 1..];
      assert text == first + "&" + rest;
      SegmentsOfFirst(first, rest);
      SegmentsAreSeparated(rest);
      AmpersandsConcat(first + "&", rest);
      AmpersandsConcat(first, "&");
      OneAmpersand();
    }
  }

  lemma OneAmpersand()
    ensures Ampersands("&") == 1
  {
    assert "&"[..0] == "";
  }

  lemma AssignHasAmpersands(p: Pair)
    requires Clean(p.key)
    ensures Ampersands(Assign(p)) == Ampersands(p.value)
  {
    AmpersandsConcat(p.key + "=", p.value);
    NoAmpersands(p.key + "=");
  }

  lemma {:induction false} TerminatedHasAmpersands(pairs: seq<Pair>)
    requires CleanKeys(pairs)
    ensures Ampersands(Terminated(pairs)) >= |pairs|
    ensures Ampersands(Terminated(pairs)) == |pairs| <==> PlainValues(pairs)
  {
    hide Ampersands, Assign;
    if pairs == [] {
      NoAmpersands("");
    } else {
      var n := |pairs| - 1;
      var before, last := pairs[..n], pairs[n];
      TerminatedHasAmpersands(before);
      AssignHasAmpersands(last);
      AmpersandsConcat(Terminated(before) + Assign(last), "&");
      AmpersandsConcat(Terminated(before), Assign(last));
      NoAmpersands(last.value);
      OneAmpersand();
      assert pairs == before + [last];
    }
  }

  lemma SegmentsOfAnyBody(pairs: seq<Pair>)
    requires pairs != [] && CleanKeys(pairs)
    ensures |Segments(Body(pairs))| == |pairs| <==> PlainValues(pairs)
  {
    hide Segments, Ampersands, Assign;
    var text := Body(pairs);
    TerminatedHasAmpersands(pairs);
    SegmentsAreSeparated(text);
    AmpersandsConcat(text, "&");
    assert Terminated(pairs) == text + "&";
    OneAmpersand();
  }

  /** Reading a printed body gives back the pairs, in order, if and only if no value contains an ampersand. */
  lemma ParseBody(pairs: seq<Pair>)
    requires pairs != [] && CleanKeys(pairs)
    ensures Parse(Body(pairs)) == pairs <==> PlainValues(pairs)
    ensures PlainValues(pairs) ==> forall s :: s in Segments(Body(pairs)) ==> s != ""
  {
    SegmentsOfAnyBody(pairs);
    if PlainValues(pairs) {
      SegmentsOfBody(pairs);
      forall i | 0 <= i < |pairs| ensures ParsePair(Assign(pairs[i])) == pairs[i] {
        assert pairs[i] in pairs;
        ParseAssign(pairs[i]);
      }
    }
  }

  predicate DistinctPairs(pairs: seq<Pair>) {
    forall i, j :: 0 <= i < j < |pairs| ==> pairs[i].key != pairs[j].key
  }

  function Get(pairs: seq<Pair>, key: string): Option<string> {
    if pairs == [] then None else if pairs[0].key == key then Some(pairs[0].value) else Get(pairs[1..], key)
  }

  lemma {:induction false} GetIt(pairs: seq<Pair>, i: nat)
    requires i < |pairs| && DistinctPairs(pairs)
    ensures Get(pairs, pairs[i].key) == Some(pairs[i].value)
  {
    if i == 0 {
    } else {
      assert pairs[0].key != pairs[i].key;
      GetIt(pairs[1..], i - 1);
    }
  }

  lemma {:induction false} GetNone(pairs: seq<Pair>, key: string)
    requires forall p :: p in pairs ==> p.key != key
    ensures Get(pairs, key) == None
  {
    if pairs == [] {
    } else {
      GetNone(pairs[1..], key);
    }
  }

  // the keys, in the order in which bodies list them

  datatype Key =
    | Symbol | OrderId | OrigClientOrderId | Side | Type | Quantity | ReduceOnly | TimeInForce | Price | StopPrice
    | SelfTradePreventionMode | NewClientOrderId | RecvWindow
  {
    function Rank(): nat {
      match this
      case Symbol => 0
      case OrderId => 1
      case OrigClientOrderId => 2
      case Side => 3
      case Type => 4
      case Quantity => 5
      case ReduceOnly => 6
      case TimeInForce => 7
      case Price => 8
      case StopPrice => 9
      case SelfTradePreventionMode => 10
      case NewClientOrderId => 11
      case RecvWindow => 12
    }

    function Text(): string {
      match this
      case Symbol => "symbol"
      case OrderId => "orderId"
      case OrigClientOrderId => "origClientOrderId"
      case Side => "side"
      case Type => "type"
      case Quantity => "quantity"
      case ReduceOnly => "reduceOnly"
      case TimeInForce => "timeInForce"
      case Price => "price"
      case StopPrice => "stopPrice"
      case SelfTradePreventionMode => "selfTradePreventionMode"
      case NewClientOrderId => "newClientOrderId"
      case RecvWindow => "recvWindow"
    }
  }

  /** Length and third letter tell all keys apart. */
  function Shape(k: Key): (nat, char) {
    match k
    case Symbol => (6, 'm')
    case OrderId => (7, 'd')
    case OrigClientOrderId => (17, 'i')
    case Side => (4, 'd')
    case Type => (4, 'p')
    case Quantity => (8, 'a')
    case ReduceOnly => (10, 'd')
    case TimeInForce => (11, 'm')
    case Price => (5, 'i')
    case StopPrice => (9, 'o')
    case SelfTradePreventionMode => (23, 'l')
    case NewClientOrderId => (16, 'w')
    case RecvWindow => (10, 'c')
  }

  lemma TextShape(k: Key)
    ensures |k.Text()| > 2 && (|k.Text()|, k.Text()[2]) == Shape(k)
  {
  }

  lemma KeysAreClean(k: Key)
    ensures Clean(k.Text())
  {
    match k {
      case SelfTradePreventionMode => LongestKeyIsClean();
      case OrigClientOrderId => assert Clean("origClientOrderId");
      case NewClientOrderId => assert Clean("newClientOrderId");
      case _ => OtherKeysAreClean(k);
    }
  }

  lemma LongestKeyIsClean()
    ensures Clean("selfTradePreventionMode")
  {
  }

  /** The other keys are shorter than 12 letters. */
  lemma OtherKeysAreClean(k: Key)
    requires k !in {SelfTradePreventionMode, OrigClientOrderId, NewClientOrderId}
    ensures Clean(k.Text())
  {
  }

  lemma TextsDiffer(k: Key, l: Key)
    ensures Clean(k.Text())
    ensures k.Text() == l.Text() ==> k == l
  {
    TextShape(k);
    TextShape(l);
    KeysAreClean(k);
    hide Key.Text, Clean;
    assert Shape(k) == Shape(l) ==> k == l;
  }

  datatype Field = Field(key: Key, value: string)

  function Pairs(fields: seq<Field>): (r: seq<Pair>)
    ensures |r| == |fields|
  {
    seq(|fields|, i requires 0 <= i < |fields| => Pair(fields[i].key.Text(), fields[i].value))
  }

  /** The keys appear in order, with ranks from lo to below hi. */
  ghost predicate Ordered(fields: seq<Field>, lo: nat, hi: nat) {
    && (forall i :: 0 <= i < |fields| ==> lo <= fields[i].key.Rank() < hi)
    && (forall i, j :: 0 <= i < j < |fields| ==> fields[i].key.Rank() < fields[j].key.Rank())
  }

  lemma OrderedConcat(a: seq<Field>, b: seq<Field>, lo: nat, mid: nat, hi: nat)
    requires Ordered(a, lo, mid) && Ordered(b, mid, hi) && lo <= mid <= hi
    ensures Ordered(a + b, lo, hi)
  {
  }

  lemma OrderedIsClean(fields: seq<Field>, lo: nat, hi: nat)
    requires Ordered(fields, lo, hi)
    ensures CleanKeys(Pairs(fields)) && DistinctPairs(Pairs(fields))
  {
    var pairs := Pairs(fields);
    forall p | p in pairs ensures Clean(p.key) {
      var i :| 0 <= i < |pairs| && pairs[i] == p;
      TextsDiffer(fields[i].key, fields[i].key);
    }
    forall i, j | 0 <= i < j < |pairs| ensures pairs[i].key != pairs[j].key {
      TextsDiffer(fields[i].key, fields[j].key);
    }
  }

  /** What a body says about a key. */
  function Read(body: string, key: Key): Option<string> {
    Get(Parse(body), key.Text())
  }

  predicate PlainFields(fields: seq<Field>) {
    forall f :: f in fields ==> Plain(f.value)
  }

  lemma PlainPairs(fields: seq<Field>)
    ensures PlainValues(Pairs(fields)) <==> PlainFields(fields)
  {
    var pairs := Pairs(fields);
    if PlainFields(fields) {
      forall p | p in pairs ensures Plain(p.value) {
        var i :| 0 <= i < |pairs| && pairs[i] == p;
        assert fields[i] in fields;
      }
    }
    if PlainValues(pairs) {
      forall f | f in fields ensures Plain(f.value) {
        var i :| 0 <= i < |fields| && fields[i] == f;
        assert pairs[i] in pairs;
      }
    }
  }

  /**
   Print and parse, for any combination of fields in key order: splitting the body gives exactly the
   fields, in order, if and only if no value contains an ampersand; then the keys are distinct, no
   segment is empty, and each key reads as its value.
   */
  lemma BodyRoundTrip(fields: seq<Field>, lo: nat, hi: nat)
    requires fields != [] && Ordered(fields, lo, hi)
    ensures Parse(Body(Pairs(fields))) == Pairs(fields) <==> PlainFields(fields)
    ensures PlainFields(fields) ==>
              var body := Body(Pairs(fields));
              && DistinctPairs(Parse(body)) && "" !in Segments(body)
              && (forall f :: f in fields ==> Read(body, f.key) == Some(f.value))
              && (forall k: Key :: (forall f :: f in fields ==> f.key != k) ==> Read(body, k) == None)
  {
    hide Body, Parse, Segments, Plain, Clean, Ordered, Key.Text;
    var pairs := Pairs(fields);
    OrderedIsClean(fields, lo, hi);
    PlainPairs(fields);
    ParseBody(pairs);
    if PlainFields(fields) {
      forall f | f in fields ensures Read(Body(pairs), f.key) == Some(f.value) {
        var i :| 0 <= i < |fields| && fields[i] == f;
        GetIt(pairs, i);
      }
      forall k: Key | forall f :: f in fields ==> f.key != k ensures Read(Body(pairs), k) == None {
        forall p | p in pairs ensures p.key != k.Text() {
          var i :| 0 <= i < |pairs| && pairs[i] == p;
          TextsDiffer(fields[i].key, k);
        }
        GetNone(pairs, k.Text());
      }
    }
  }

  // the requests

  function Number(key: Key, n: int): Field {
    Field(key, DecimalText.Print(n))
  }

  function NumberText(n: Option<int>): Option<string> {
    if n.Some? then Some(DecimalText.Print(n.value)) else None
  }

  function Optional(key: Key, value: Option<string>): seq<Field> {
    if value.Some? then [Field(key, value.value)] else []
  }

  datatype OrderType = Market | Limit(timeInForce: string, price: int)

  datatype PlaceOrder = PlaceOrder(
    symbol: string, side: string, orderType: OrderType, quantity: int, reduceOnly: bool,
    stopPrice: Option<int>, selfTradePrevention: Option<string>, requestId: string)
  {
    ghost predicate IsPlain() {
      && Plain(symbol) && Plain(side) && Plain(requestId)
      && (orderType.Limit? ==> Plain(orderType.timeInForce))
      && (selfTradePrevention.Some? ==> Plain(selfTradePrevention.value))
    }
  }

  function TypeText(t: OrderType): string {
    if t.Market? then "MARKET" else "LIMIT"
  }

  function BoolText(b: bool): string {
    if b then "true" else "false"
  }

  function HeadFields(o: PlaceOrder): seq<Field> {
    [Field(Symbol, o.symbol), Field(Side, o.side), Field(Type, TypeText(o.orderType)),
     Number(Quantity, o.quantity), Field(ReduceOnly, BoolText(o.reduceOnly))]
  }

  /** Time in force and price are for limit orders only. */
  function LimitFields(t: OrderType): seq<Field> {
    if t.Limit? then [Field(TimeInForce, t.timeInForce), Number(Price, t.price)] else []
  }

  function StopFields(stopPrice: Option<int>): seq<Field> {
    if stopPrice.Some? then [Number(StopPrice, stopPrice.value)] else []
  }

  function PlaceFields(o: PlaceOrder, recvWindow: int): (r: seq<Field>)
    ensures r != []
  {
    HeadFields(o) + LimitFields(o.orderType) + StopFields(o.stopPrice)
    + Optional(SelfTradePreventionMode, o.selfTradePrevention)
    + [Field(NewClientOrderId, o.requestId), Number(RecvWindow, recvWindow)]
  }

  datatype Order = Order(
    symbol: string, side: string, externalOrderId: string, clientOrderId: string, quantity: int, price: int)
  {
    /** Of what is printed; the side is not part of a cancel request. */
    ghost predicate IsPlain(withSide: bool) {
      && Plain(symbol) && Plain(clientOrderId) && (withSide ==> Plain(side))
      && (externalOrderId != "" ==> Plain(OrderIdOf(externalOrderId)))
    }
  }

  /** The names of an order: its symbol, the exchange's id if there is one, and the client's id. */
  function OrderFields(o: Order): seq<Field> {
    [Field(Symbol, o.symbol)]
    + Optional(OrderId, if o.externalOrderId == "" then None else Some(OrderIdOf(o.externalOrderId)))
    + [Field(OrigClientOrderId, o.clientOrderId)]
  }

  function CancelFields(o: Order, recvWindow: int): seq<Field> {
    OrderFields(o) + [Number(RecvWindow, recvWindow)]
  }

  /** A modification; an absent number is not to be changed. */
  datatype ModifyOrder = ModifyOrder(quantity: Option<int>, price: Option<int>)

  function OrElse(n: Option<int>, last: int): int {
    if n.Some? then n.value else last
  }

  function FullFields(m: ModifyOrder, o: Order, recvWindow: int): seq<Field> {
    OrderFields(o)
    + [Field(Side, o.side), Number(Quantity, OrElse(m.quantity, o.quantity)), Number(Price, OrElse(m.price, o.price)),
       Number(RecvWindow, recvWindow)]
  }

  /** A number that is absent or equal to the present one is not sent. */
  predicate Changes(n: Option<int>, last: int) {
    n.Some? && n.value != last
  }

  /** The partial form sends exactly one of the two numbers. */
  function PartialFields(m: ModifyOrder, o: Order, recvWindow: int): Result<seq<Field>> {
    var quantity, price := Changes(m.quantity, o.quantity), Changes(m.price, o.price);
    if quantity && !price then
      Success(OrderFields(o) +
              [Field(Side, o.side), Number(Quantity, m.quantity.value), Number(RecvWindow, recvWindow)])
    else if !quantity && price then
      Success(OrderFields(o) + [Field(Side, o.side), Number(Price, m.price.value), Number(RecvWindow, recvWindow)])
    else Failure(Rejected)
  }

  // every combination of fields

  lemma NumberIsPlain(n: int)
    ensures Plain(DecimalText.Print(n))
  {
    DecimalText.ParsePrint(n);
  }

  lemma OrderFieldsAreOrdered(o: Order)
    ensures Ordered(OrderFields(o), 0, 3)
  {
  }

  lemma HeadIsOrdered(o: PlaceOrder)
    ensures Ordered(HeadFields(o), 0, 7)
  {
    hide DecimalText.Print, TypeText, BoolText;
  }

  lemma OptionalsAreOrdered(o: PlaceOrder)
    ensures Ordered(LimitFields(o.orderType), 7, 9) && Ordered(StopFields(o.stopPrice), 9, 10)
    ensures Ordered(Optional(SelfTradePreventionMode, o.selfTradePrevention), 10, 11)
  {
    hide DecimalText.Print;
  }

  lemma TailIsOrdered(requestId: string, recvWindow: int)
    ensures Ordered([Field(NewClientOrderId, requestId), Number(RecvWindow, recvWindow)], 11, 13)
  {
    hide DecimalText.Print;
  }

  lemma PlaceFieldsAreOrdered(o: PlaceOrder, recvWindow: int)
    ensures Ordered(PlaceFields(o, recvWindow), 0, 13)
  {
    HeadIsOrdered(o);
    OptionalsAreOrdered(o);
    TailIsOrdered(o.requestId, recvWindow);
    hide Ordered, HeadFields, LimitFields, StopFields, Optional;
    var head := HeadFields(o) + LimitFields(o.orderType);
    OrderedConcat(HeadFields(o), LimitFields(o.orderType), 0, 7, 9);
    OrderedConcat(head, StopFields(o.stopPrice), 0, 9, 10);
    OrderedConcat(head + StopFields(o.stopPrice), Optional(SelfTradePreventionMode, o.selfTradePrevention), 0, 10, 11);
    OrderedConcat(head + StopFields(o.stopPrice) + Optional(SelfTradePreventionMode, o.selfTradePrevention),
                  [Field(NewClientOrderId, o.requestId), Number(RecvWindow, recvWindow)], 0, 11, 13);
  }

  /** What follows the names of an existing order. */
  function TailFields(o: Order, side: bool, quantity: Option<int>, price: Option<int>, recvWindow: int): (r: seq<Field>)
    ensures r != []
  {
    Optional(Side, if side then Some(o.side) else None) + Optional(Quantity, NumberText(quantity))
    + Optional(Price, NumberText(price)) + [Number(RecvWindow, recvWindow)]
  }

  lemma TailFieldsAreOrdered(o: Order, side: bool, quantity: Option<int>, price: Option<int>, recvWindow: int)
    ensures Ordered(TailFields(o, side, quantity, price, recvWindow), 3, 13)
  {
    hide DecimalText.Print;
  }

  // what the exchange reads

  /** The fields say exactly what is intended for each key. */
  ghost predicate Means(fields: seq<Field>, intended: Key -> Option<string>) {
    forall f: Field :: f in fields <==> intended(f.key) == Some(f.value)
  }

  /** No intended text contains an ampersand. */
  ghost predicate PlainMeaning(intended: Key -> Option<string>) {
    forall k: Key :: intended(k).Some? ==> Plain(intended(k).value)
  }

  /**
   A body of fields in key order reads back -- splits into exactly these fields, with distinct keys and
   no empty segment, every key reading as intended -- if and only if no intended text contains an
   ampersand.
   */
  lemma BodyMeans(fields: seq<Field>, hi: nat, intended: Key -> Option<string>)
    requires fields != [] && Ordered(fields, 0, hi) && Means(fields, intended)
    ensures ReadsBack(fields, intended) <==> PlainMeaning(intended)
  {
    BodyRoundTrip(fields, 0, hi);
    hide Read, Body, Parse, Segments, Plain;
    var body := Body(Pairs(fields));
    assert PlainMeaning(intended) <==> PlainFields(fields) by {
      if PlainFields(fields) {
        forall k: Key | intended(k).Some? ensures Plain(intended(k).value) {
          assert Field(k, intended(k).value) in fields;
        }
      }
    }
    if PlainFields(fields) {
      forall k: Key ensures Read(body, k) == intended(k) {
        if intended(k).Some? {
          assert Field(k, intended(k).value) in fields;
        }
      }
    }
  }

  ghost predicate ReadsBack(fields: seq<Field>, intended: Key -> Option<string>)
    requires fields != []
  {
    var body := Body(Pairs(fields));
    && Parse(body) == Pairs(fields) && DistinctPairs(Parse(body)) && "" !in Segments(body)
    && forall k: Key :: Read(body, k) == intended(k)
  }

  function PlaceMeaning(o: PlaceOrder, recvWindow: int): Key -> Option<string> {
    (k: Key) =>
      match k
      case Symbol => Some(o.symbol)
      case OrderId => None
      case OrigClientOrderId => None
      case Side => Some(o.side)
      case Type => Some(TypeText(o.orderType))
      case Quantity => NumberText(Some(o.quantity))
      case ReduceOnly => Some(BoolText(o.reduceOnly))
      case TimeInForce => if o.orderType.Limit? then Some(o.orderType.timeInForce) else None
      case Price => NumberText(if o.orderType.Limit? then Some(o.orderType.price) else None)
      case StopPrice => NumberText(o.stopPrice)
      case SelfTradePreventionMode => o.selfTradePrevention
      case NewClientOrderId => Some(o.requestId)
      case RecvWindow => NumberText(Some(recvWindow))
  }

  /** An existing order, with the numbers a request carries. */
  function OrderMeaning(o: Order, side: bool, quantity: Option<int>, price: Option<int>,
                        recvWindow: int): Key -> Option<string> {
    (k: Key) =>
      match k
      case Symbol => Some(o.symbol)
      case OrderId => if o.externalOrderId == "" then None else Some(OrderIdOf(o.externalOrderId))
      case OrigClientOrderId => Some(o.clientOrderId)
      case Side => if side then Some(o.side) else None
      case Quantity => NumberText(quantity)
      case Price => NumberText(price)
      case RecvWindow => NumberText(Some(recvWindow))
      case _ => None
  }

  /** A new order, for every combination of order type and optional fields. */
  lemma PlaceRoundTrip(o: PlaceOrder, recvWindow: int)
    ensures ReadsBack(PlaceFields(o, recvWindow), PlaceMeaning(o, recvWindow)) <==> o.IsPlain()
  {
    hide PlaceFields, PlaceMeaning, Ordered, ReadsBack;
    var fields, intended := PlaceFields(o, recvWindow), PlaceMeaning(o, recvWindow);
    PlaceFieldsAreOrdered(o, recvWindow);
    forall f: Field ensures f in fields <==> intended(f.key) == Some(f.value) {
      PlaceMembers(o, recvWindow, f);
    }
    BodyMeans(fields, 13, intended);
    PlaceIsPlain(o, recvWindow);
  }

  lemma PlaceIsPlain(o: PlaceOrder, recvWindow: int)
    ensures PlainMeaning(PlaceMeaning(o, recvWindow)) <==> o.IsPlain()
  {
    hide DecimalText.Print, Plain, TypeText, BoolText;
    var intended := PlaceMeaning(o, recvWindow);
    ConstantsArePlain(o.orderType, o.reduceOnly);
    NumberIsPlain(o.quantity);
    NumberIsPlain(recvWindow);
    if o.orderType.Limit? {
      NumberIsPlain(o.orderType.price);
    }
    if o.stopPrice.Some? {
      NumberIsPlain(o.stopPrice.value);
    }
    if PlainMeaning(intended) {
      assert intended(Symbol).Some? && intended(Side).Some? && intended(NewClientOrderId).Some?;
      assert intended(TimeInForce).Some? ==> Plain(intended(TimeInForce).value);
      assert intended(SelfTradePreventionMode).Some? ==> Plain(intended(SelfTradePreventionMode).value);
    }
  }

  lemma ConstantsArePlain(t: OrderType, b: bool)
    ensures Plain(TypeText(t)) && Plain(BoolText(b))
  {
  }

  lemma PlaceMembers(o: PlaceOrder, recvWindow: int, f: Field)
    ensures f in PlaceFields(o, recvWindow) <==> PlaceMeaning(o, recvWindow)(f.key) == Some(f.value)
  {
    hide PlaceMeaning, HeadFields, LimitFields, StopFields, Optional, Number;
    HeadMembers(o, recvWindow, f);
    LimitMembers(o, recvWindow, f);
    OptionMembers(o, recvWindow, f);
    LastMembers(o, recvWindow, f);
  }

  lemma HeadMembers(o: PlaceOrder, recvWindow: int, f: Field)
    ensures f in HeadFields(o) <==> f.key.Rank() <= 6 && PlaceMeaning(o, recvWindow)(f.key) == Some(f.value)
  {
    hide DecimalText.Print;
  }

  lemma LimitMembers(o: PlaceOrder, recvWindow: int, f: Field)
    ensures f in LimitFields(o.orderType)
            <==> 7 <= f.key.Rank() <= 8 && PlaceMeaning(o, recvWindow)(f.key) == Some(f.value)
  {
    hide DecimalText.Print;
  }

  lemma OptionMembers(o: PlaceOrder, recvWindow: int, f: Field)
    ensures f in StopFields(o.stopPrice) <==> f.key.Rank() == 9 && PlaceMeaning(o, recvWindow)(f.key) == Some(f.value)
    ensures f in Optional(SelfTradePreventionMode, o.selfTradePrevention)
            <==> f.key.Rank() == 10 && PlaceMeaning(o, recvWindow)(f.key) == Some(f.value)
  {
    hide DecimalText.Print;
  }

  lemma LastMembers(o: PlaceOrder, recvWindow: int, f: Field)
    ensures f in [Field(NewClientOrderId, o.requestId), Number(RecvWindow, recvWindow)]
            <==> f.key.Rank() > 10 && PlaceMeaning(o, recvWindow)(f.key) == Some(f.value)
  {
    hide DecimalText.Print;
  }

  lemma OptionalMember(key: Key, value: Option<string>, f: Field)
    ensures f in Optional(key, value) <==> f.key == key && value == Some(f.value)
  {
  }

  lemma NumberIsOptional(key: Key, n: int)
    ensures [Number(key, n)] == Optional(key, NumberText(Some(n)))
  {
  }

  lemma NameMembers(o: Order, side: bool, quantity: Option<int>, price: Option<int>, recvWindow: int, f: Field)
    ensures f in OrderFields(o)
            <==> f.key.Rank() <= 2 && OrderMeaning(o, side, quantity, price, recvWindow)(f.key) == Some(f.value)
  {
    hide Optional, NumberText, DecimalText.Print;
    OptionalMember(OrderId, if o.externalOrderId == "" then None else Some(OrderIdOf(o.externalOrderId)), f);
  }

  lemma TailMembers(o: Order, side: bool, quantity: Option<int>, price: Option<int>, recvWindow: int, f: Field)
    ensures f in TailFields(o, side, quantity, price, recvWindow)
            <==> f.key.Rank() > 2 && OrderMeaning(o, side, quantity, price, recvWindow)(f.key) == Some(f.value)
  {
    hide Optional, NumberText, DecimalText.Print;
    OptionalMember(Side, if side then Some(o.side) else None, f);
    OptionalMember(Quantity, NumberText(quantity), f);
    OptionalMember(Price, NumberText(price), f);
    OptionalMember(RecvWindow, NumberText(Some(recvWindow)), f);
    assert [Number(RecvWindow, recvWindow)] == Optional(RecvWindow, NumberText(Some(recvWindow))) by {
      NumberIsOptional(RecvWindow, recvWindow);
    }
  }

  lemma OrderIsPlain(o: Order, side: bool, quantity: Option<int>, price: Option<int>, recvWindow: int)
    ensures PlainMeaning(OrderMeaning(o, side, quantity, price, recvWindow)) <==> o.IsPlain(side)
  {
    hide DecimalText.Print, Plain, OrderIdOf;
    var intended := OrderMeaning(o, side, quantity, price, recvWindow);
    NumberIsPlain(OrElse(quantity, 0));
    NumberIsPlain(OrElse(price, 0));
    NumberIsPlain(recvWindow);
    if PlainMeaning(intended) {
      assert intended(Symbol).Some? && intended(OrigClientOrderId).Some?;
      assert intended(Side).Some? ==> Plain(intended(Side).value);
      assert intended(OrderId).Some? ==> Plain(intended(OrderId).value);
    }
  }

  /** A request about an existing order, with whatever it carries. */
  lemma OrderRoundTrip(o: Order, side: bool, quantity: Option<int>, price: Option<int>, recvWindow: int)
    ensures ReadsBack(OrderFields(o) + TailFields(o, side, quantity, price, recvWindow),
                      OrderMeaning(o, side, quantity, price, recvWindow))
            <==> o.IsPlain(side)
  {
    hide OrderFields, TailFields, OrderMeaning, Ordered, ReadsBack;
    var fields := OrderFields(o) + TailFields(o, side, quantity, price, recvWindow);
    var intended := OrderMeaning(o, side, quantity, price, recvWindow);
    OrderFieldsAreOrdered(o);
    TailFieldsAreOrdered(o, side, quantity, price, recvWindow);
    OrderedConcat(OrderFields(o), TailFields(o, side, quantity, price, recvWindow), 0, 3, 13);
    forall f: Field ensures f in fields <==> intended(f.key) == Some(f.value) {
      NameMembers(o, side, quantity, price, recvWindow, f);
      TailMembers(o, side, quantity, price, recvWindow, f);
    }
    BodyMeans(fields, 13, intended);
    OrderIsPlain(o, side, quantity, price, recvWindow);
  }

  /** A cancel request, with and without an exchange id. */
  lemma CancelRoundTrip(o: Order, recvWindow: int)
    ensures ReadsBack(CancelFields(o, recvWindow), OrderMeaning(o, false, None, None, recvWindow)) <==> o.IsPlain(false)
  {
    hide ReadsBack, OrderMeaning, OrderFields;
    OrderRoundTrip(o, false, None, None, recvWindow);
    assert CancelFields(o, recvWindow) == OrderFields(o) + TailFields(o, false, None, None, recvWindow);
  }

  /** A modify request in the full form. */
  lemma FullRoundTrip(m: ModifyOrder, o: Order, recvWindow: int)
    ensures ReadsBack(FullFields(m, o, recvWindow),
                      OrderMeaning(o, true, Some(OrElse(m.quantity, o.quantity)),
                                    Some(OrElse(m.price, o.price)), recvWindow))
            <==> o.IsPlain(true)
  {
    hide ReadsBack, OrderMeaning, OrderFields;
    var quantity, price := Some(OrElse(m.quantity, o.quantity)), Some(OrElse(m.price, o.price));
    OrderRoundTrip(o, true, quantity, price, recvWindow);
    assert FullFields(m, o, recvWindow) == OrderFields(o) + TailFields(o, true, quantity, price, recvWindow);
  }

  /** A modify request in the partial form, when it is accepted. */
  lemma PartialRoundTrip(m: ModifyOrder, o: Order, recvWindow: int)
    requires PartialFields(m, o, recvWindow).Success?
    ensures var quantity := if Changes(m.quantity, o.quantity) then m.quantity else None;
            var price := if Changes(m.price, o.price) then m.price else None;
            && PartialFields(m, o, recvWindow).value != []
            && (ReadsBack(PartialFields(m, o, recvWindow).value, OrderMeaning(o, true, quantity, price, recvWindow))
                <==> o.IsPlain(true))
  {
    hide ReadsBack, OrderMeaning, OrderFields;
    var quantity := if Changes(m.quantity, o.quantity) then m.quantity else None;
    var price := if Changes(m.price, o.price) then m.price else None;
    OrderRoundTrip(o, true, quantity, price, recvWindow);
    assert PartialFields(m, o, recvWindow).value == OrderFields(o) + TailFields(o, true, quantity, price, recvWindow);
  }

  /** A number read from a body; a number that was not sent is unchanged. */
  function ReadNumber(body: string, key: Key, last: int): Option<int> {
    match Read(body, key)
    case None => Some(last)
    case Some(text) => DecimalText.Parse(text)
  }

  lemma ReadsNumber(fields: seq<Field>, intended: Key -> Option<string>, key: Key, n: Option<int>, last: int)
    requires fields != [] && ReadsBack(fields, intended) && intended(key) == NumberText(n)
    ensures ReadNumber(Body(Pairs(fields)), key, last) == Some(OrElse(n, last))
  {
    hide Read, Body;
    if n.Some? {
      DecimalText.ParsePrint(n.value);
    }
  }

  /**
   The two modify encodings agree.  Whenever the partial form is accepted, reading it and keeping the
   order's own number for what was not sent gives the same quantity and price as reading the full form,
   and both are what the modification asks for.  The partial form is refused exactly when that target
   differs from the order in both numbers or in neither.
   */
  lemma ModifyEncodingsAgree(m: ModifyOrder, o: Order, recvWindow: int)
    requires o.IsPlain(true)
    ensures var quantity, price := OrElse(m.quantity, o.quantity), OrElse(m.price, o.price);
            var full, part := Body(Pairs(FullFields(m, o, recvWindow))), PartialFields(m, o, recvWindow);
            && ReadNumber(full, Quantity, o.quantity) == Some(quantity)
            && ReadNumber(full, Price, o.price) == Some(price)
            && (part.Failure? <==> ((quantity != o.quantity) == (price != o.price)))
            && (part.Success? ==>
                  && part.value != []
                  && ReadNumber(Body(Pairs(part.value)), Quantity, o.quantity) == Some(quantity)
                  && ReadNumber(Body(Pairs(part.value)), Price, o.price) == Some(price))
  {
    hide Body, ReadsBack, ReadNumber;
    var quantity, price := OrElse(m.quantity, o.quantity), OrElse(m.price, o.price);
    var meaning := OrderMeaning(o, true, Some(quantity), Some(price), recvWindow);
    var full, part := FullFields(m, o, recvWindow), PartialFields(m, o, recvWindow);
    FullRoundTrip(m, o, recvWindow);
    ReadsNumber(full, meaning, Quantity, Some(quantity), o.quantity);
    ReadsNumber(full, meaning, Price, Some(price), o.price);
    if part.Success? {
      PartialRoundTrip(m, o, recvWindow);
      var q := if Changes(m.quantity, o.quantity) then m.quantity else None;
      var p := if Changes(m.price, o.price) then m.price else None;
      ReadsNumber(part.value, OrderMeaning(o, true, q, p, recvWindow), Quantity, q, o.quantity);
      ReadsNumber(part.value, OrderMeaning(o, true, q, p, recvWindow), Price, p, o.price);
    }
  }

  // the code, on the caller's buffer

  lemma PairsAppend(fields: seq<Field>, f: Field)
    ensures Pairs(fields + [f]) == Pairs(fields) + [Pair(f.key.Text(), f.value)]
    ensures Terminated(Pairs(fields + [f])) == Terminated(Pairs(fields)) + f.key.Text() + "=" + f.value + "&"
    ensures Body(Pairs(fields + [f])) == Terminated(Pairs(fields)) + f.key.Text() + "=" + f.value
  {
    var pairs, p := Pairs(fields), Pair(f.key.Text(), f.value);
    assert Pairs(fields + [f]) == pairs + [p];
    assert (pairs + [p])[..|pairs|] == pairs;
  }

  /** Appends a field that others follow. */
  method Put(buffer: Buffer, f: Field, ghost before: seq<Field>) returns (ghost fields: seq<Field>)
    requires buffer.text == Terminated(Pairs(before))
    modifies buffer
    ensures fields == before + [f] && buffer.text == Terminated(Pairs(fields))
  {
    PairsAppend(before, f);
    buffer.Append(f.key.Text());
    buffer.Append("=");
    buffer.Append(f.value);
    buffer.Append("&");
    fields := before + [f];
  }

  /** Appends the last field. */
  method Finish(buffer: Buffer, f: Field, ghost before: seq<Field>)
    requires buffer.text == Terminated(Pairs(before))
    modifies buffer
    ensures buffer.text == Body(Pairs(before + [f]))
  {
    PairsAppend(before, f);
    buffer.Append(f.key.Text());
    buffer.Append("=");
    buffer.Append(f.value);
  }

  method OrderPlaceUrl(buffer: Buffer, o: PlaceOrder, recvWindow: int)
    modifies buffer
    ensures buffer.text == Body(Pairs(PlaceFields(o, recvWindow)))
  {
    hide Body, Pairs, Terminated;
    Empty();
    buffer.Clear();
    ghost var fields := Put(buffer, Field(Symbol, o.symbol), []);
    fields := Put(buffer, Field(Side, o.side), fields);
    fields := Put(buffer, Field(Type, TypeText(o.orderType)), fields);
    fields := Put(buffer, Number(Quantity, o.quantity), fields);
    fields := Put(buffer, Field(ReduceOnly, BoolText(o.reduceOnly)), fields);
    assert fields == HeadFields(o);
    match o.orderType {
      case Market =>
      case Limit(timeInForce, price) =>
        fields := Put(buffer, Field(TimeInForce, timeInForce), fields);
        fields := Put(buffer, Number(Price, price), fields);
    }
    assert fields == HeadFields(o) + LimitFields(o.orderType);
    if o.stopPrice.Some? {
      fields := Put(buffer, Number(StopPrice, o.stopPrice.value), fields);
    }
    if o.selfTradePrevention.Some? {
      fields := Put(buffer, Field(SelfTradePreventionMode, o.selfTradePrevention.value), fields);
    }
    assert fields == HeadFields(o) + LimitFields(o.orderType) + StopFields(o.stopPrice)
                     + Optional(SelfTradePreventionMode, o.selfTradePrevention);
    fields := Put(buffer, Field(NewClientOrderId, o.requestId), fields);
    Finish(buffer, Number(RecvWindow, recvWindow), fields);
    assert fields + [Number(RecvWindow, recvWindow)] == PlaceFields(o, recvWindow);
  }

  lemma Empty()
    ensures Terminated(Pairs([])) == ""
  {
  }

  /** Symbol, order id and client order id, from an empty buffer. */
  method PutOrder(buffer: Buffer, o: Order)
    requires buffer.text == ""
    modifies buffer
    ensures buffer.text == Terminated(Pairs(OrderFields(o)))
  {
    hide Terminated, Pairs;
    Empty();
    ghost var fields := Put(buffer, Field(Symbol, o.symbol), []);
    if o.externalOrderId != "" {
      var orderId := GetOrderId(o.externalOrderId);
      fields := Put(buffer, Field(OrderId, orderId), fields);
    }
    fields := Put(buffer, Field(OrigClientOrderId, o.clientOrderId), fields);
    assert fields == OrderFields(o);
  }

  /** The full form never fails; a refused partial form leaves the buffer empty. */
  method OrderModifyUrl(buffer: Buffer, m: ModifyOrder, o: Order, recvWindow: int, full: bool)
    returns (r: Result<string>)
    modifies buffer
    ensures full ==> r == Success(Body(Pairs(FullFields(m, o, recvWindow))))
    ensures !full ==>
              match PartialFields(m, o, recvWindow)
              case Success(fields) => fields != [] && r == Success(Body(Pairs(fields)))
              case Failure(e) => r == Failure(e)
    ensures buffer.text == match r case Success(text) => text case Failure(_) => ""
  {
    hide Body, Terminated, Pairs, OrderFields, DecimalText.Print;
    buffer.Clear();
    ghost var fields := OrderFields(o);
    if full {
      var quantity := if m.quantity.None? then o.quantity else m.quantity.value;
      var price := if m.price.None? then o.price else m.price.value;
      PutOrder(buffer, o);
      fields := Put(buffer, Field(Side, o.side), fields);
      fields := Put(buffer, Number(Quantity, quantity), fields);
      fields := Put(buffer, Number(Price, price), fields);
      Finish(buffer, Number(RecvWindow, recvWindow), fields);
      assert fields + [Number(RecvWindow, recvWindow)] == FullFields(m, o, recvWindow);
    } else {
      var quantity := if m.quantity.Some? && m.quantity.value != o.quantity then m.quantity else None;
      var price := if m.price.Some? && m.price.value != o.price then m.price else None;
      if quantity.Some? && price.None? {
        PutOrder(buffer, o);
        fields := Put(buffer, Field(Side, o.side), fields);
        fields := Put(buffer, Number(Quantity, m.quantity.value), fields);
        Finish(buffer, Number(RecvWindow, recvWindow), fields);
        assert fields + [Number(RecvWindow, recvWindow)] == PartialFields(m, o, recvWindow).value;
      } else if quantity.None? && price.Some? {
        PutOrder(buffer, o);
        fields := Put(buffer, Field(Side, o.side), fields);
        fields := Put(buffer, Number(Price, m.price.value), fields);
        Finish(buffer, Number(RecvWindow, recvWindow), fields);
        assert fields + [Number(RecvWindow, recvWindow)] == PartialFields(m, o, recvWindow).value;
      } else {
        return Failure(Rejected);
      }
    }
    r := Success(buffer.text);
  }

  method OrderCancelUrl(buffer: Buffer, o: Order, recvWindow: int)
    modifies buffer
    ensures buffer.text == Body(Pairs(CancelFields(o, recvWindow)))
  {
    buffer.Clear();
    PutOrder(buffer, o);
    Finish(buffer, Number(RecvWindow, recvWindow), OrderFields(o));
  }
}
