/** What the exchange reads in the bodies of the order requests, in the names and words of its interface. */
module UrlBodies {
  import opened Wrappers
  import opened UrlEncoder
  import DecimalText
  import ExternalOrderId

  /** The first value given for a name. */
  function Value(body: string, name: string): Option<string> {
    Get(Parse(body), name)
  }

  lemma Names()
    ensures Symbol.Text() == "symbol" && OrderId.Text() == "orderId" && OrigClientOrderId.Text() == "origClientOrderId"
    ensures Side.Text() == "side" && Type.Text() == "type" && Quantity.Text() == "quantity"
    ensures ReduceOnly.Text() == "reduceOnly" && TimeInForce.Text() == "timeInForce" && Price.Text() == "price"
    ensures StopPrice.Text() == "stopPrice" && SelfTradePreventionMode.Text() == "selfTradePreventionMode"
    ensures NewClientOrderId.Text() == "newClientOrderId" && RecvWindow.Text() == "recvWindow"
  {
  }

  /** A new order, unless one of its texts contains an ampersand. */
  lemma PlaceReads(o: PlaceOrder, recvWindow: int)
    requires o.IsPlain()
    ensures var body := Body(Pairs(PlaceFields(o, recvWindow)));
            && Value(body, "symbol") == Some(o.symbol) && Value(body, "side") == Some(o.side)
            && Value(body, "type") == Some(match o.orderType case Market => "MARKET" case Limit(_, _) => "LIMIT")
            && Value(body, "quantity") == Some(DecimalText.Print(o.quantity))
            && Value(body, "reduceOnly") == Some(if o.reduceOnly then "true" else "false")
            && Value(body, "timeInForce") == (if o.orderType.Limit? then Some(o.orderType.timeInForce) else None)
            && Value(body, "price") == (if o.orderType.Limit? then Some(DecimalText.Print(o.orderType.price)) else None)
            && Value(body, "stopPrice") ==
               (if o.stopPrice.Some? then Some(DecimalText.Print(o.stopPrice.value)) else None)
            && Value(body, "selfTradePreventionMode") == o.selfTradePrevention
            && Value(body, "newClientOrderId") == Some(o.requestId)
            && Value(body, "recvWindow") == Some(DecimalText.Print(recvWindow))
            && Value(body, "orderId") == None && Value(body, "origClientOrderId") == None
  {
    PlaceRoundTrip(o, recvWindow);
    Names();
    hide Body, Parse, Segments, Get, Key.Text, PlaceFields, DecimalText.Print, PlaceOrder.IsPlain;
    ReadsAll(PlaceFields(o, recvWindow), PlaceMeaning(o, recvWindow));
  }

  lemma ReadsAll(fields: seq<Field>, intended: Key -> Option<string>)
    requires fields != [] && ReadsBack(fields, intended)
    ensures forall k: Key :: Value(Body(Pairs(fields)), k.Text()) == intended(k)
  {
    hide Body, Parse, Segments, Get, Key.Text;
    assert forall k: Key :: Value(Body(Pairs(fields)), k.Text()) == Read(Body(Pairs(fields)), k);
  }

  /** What every request about an existing order carries: the exchange's id if there is one, and the client's. */
  ghost predicate Identifies(body: string, o: Order, recvWindow: int) {
    && Value(body, "symbol") == Some(o.symbol) && Value(body, "origClientOrderId") == Some(o.clientOrderId)
    && Value(body, "orderId") ==
       (if o.externalOrderId == "" then None else Some(ExternalOrderId.OrderIdOf(o.externalOrderId)))
    && Value(body, "recvWindow") == Some(DecimalText.Print(recvWindow))
    && Value(body, "type") == None && Value(body, "reduceOnly") == None && Value(body, "timeInForce") == None
    && Value(body, "stopPrice") == None && Value(body, "selfTradePreventionMode") == None
    && Value(body, "newClientOrderId") == None
  }

  lemma OrderReads(fields: seq<Field>, o: Order, side: bool, quantity: Option<int>, price: Option<int>, recvWindow: int)
    requires fields != [] && ReadsBack(fields, OrderMeaning(o, side, quantity, price, recvWindow))
    ensures var body := Body(Pairs(fields));
            && Identifies(body, o, recvWindow)
            && Value(body, "side") == (if side then Some(o.side) else None)
            && Value(body, "quantity") == (if quantity.Some? then Some(DecimalText.Print(quantity.value)) else None)
            && Value(body, "price") == (if price.Some? then Some(DecimalText.Print(price.value)) else None)
  {
    Names();
    hide Body, Key.Text, DecimalText.Print, ExternalOrderId.OrderIdOf, Value, ReadsBack;
    ReadsAll(fields, OrderMeaning(o, side, quantity, price, recvWindow));
  }

  lemma CancelReads(o: Order, recvWindow: int)
    requires o.IsPlain(false)
    ensures var body := Body(Pairs(CancelFields(o, recvWindow)));
            && Identifies(body, o, recvWindow) && Value(body, "side") == None
            && Value(body, "quantity") == None && Value(body, "price") == None
  {
    assert CancelFields(o, recvWindow) != [];
    hide Body, CancelFields, OrderMeaning, ReadsBack, Order.IsPlain, Identifies, Value;
    CancelRoundTrip(o, recvWindow);
    OrderReads(CancelFields(o, recvWindow), o, false, None, None, recvWindow);
  }

  /** The full form carries both numbers: those asked for, or else the order's own. */
  lemma FullReads(m: ModifyOrder, o: Order, recvWindow: int)
    requires o.IsPlain(true)
    ensures var body := Body(Pairs(FullFields(m, o, recvWindow)));
            && Identifies(body, o, recvWindow) && Value(body, "side") == Some(o.side)
            && Value(body, "quantity") ==
               Some(DecimalText.Print(if m.quantity.Some? then m.quantity.value else o.quantity))
            && Value(body, "price") == Some(DecimalText.Print(if m.price.Some? then m.price.value else o.price))
  {
    assert FullFields(m, o, recvWindow) != [];
    hide Body, FullFields, OrderMeaning, ReadsBack, Order.IsPlain, Identifies, Value;
    FullRoundTrip(m, o, recvWindow);
    OrderReads(FullFields(m, o, recvWindow), o, true, Some(OrElse(m.quantity, o.quantity)),
               Some(OrElse(m.price, o.price)), recvWindow);
  }

  /** The partial form carries the one number that is asked for and differs; without exactly one it is refused. */
  lemma PartialReads(m: ModifyOrder, o: Order, recvWindow: int)
    requires o.IsPlain(true)
    ensures var quantity := m.quantity.Some? && m.quantity.value != o.quantity;
            var price := m.price.Some? && m.price.value != o.price;
            var part := PartialFields(m, o, recvWindow);
            if quantity == price then part == Failure(Rejected)
            else
              && part.Success? && part.value != []
              && var body := Body(Pairs(part.value));
                 && Identifies(body, o, recvWindow) && Value(body, "side") == Some(o.side)
                 && Value(body, "quantity") == (if quantity then Some(DecimalText.Print(m.quantity.value)) else None)
                 && Value(body, "price") == (if price then Some(DecimalText.Print(m.price.value)) else None)
  {
    var part := PartialFields(m, o, recvWindow);
    var quantity := m.quantity.Some? && m.quantity.value != o.quantity;
    var price := m.price.Some? && m.price.value != o.price;
    assert part.Success? <==> quantity != price;
    assert quantity == price ==> part == Failure(Rejected);
    hide Body, PartialFields, OrderMeaning, ReadsBack, Order.IsPlain, Identifies, Value;
    if part.Success? {
      PartialRoundTrip(m, o, recvWindow);
      OrderReads(part.value, o, true, if quantity then m.quantity else None, if price then m.price else None,
                 recvWindow);
    }
  }
}
