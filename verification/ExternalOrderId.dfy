/** External order ids: the symbol, a hash sign and the exchange's order id in decimal. */
module ExternalOrderId {
  import opened Wrappers
  import DecimalText

  /** The position of a character, or the length of the text. */
  function Find(s: string, c: char): (i: nat)
    ensures i <= |s|
    ensures i < |s| ==> s[i] == c
    ensures forall j :: 0 <= j < i ==> s[j] != c
  {
    if s == [] || s[0] == c then 0 else 1 + Find(s[1..], c)
  }

  function Create(symbol: string, orderId: int): string {
    symbol + "#" + DecimalText.Print(orderId)
  }

  /** What follows the first hash sign, or everything if there is none. */
  function OrderIdOf(externalOrderId: string): string {
    var i := Find(externalOrderId, '#');
    if i == |externalOrderId| then externalOrderId else externalOrderId[i + 1..]
  }

  lemma FindIn(a: string, c: char, b: string)
    requires c !in a
    ensures Find(a + [c] + b, c) == |a|
  {
    var s := a + [c] + b;
    assert s[|a|] == c && forall k :: 0 <= k < |a| ==> s[k] == a[k];
  }

  /**
   The order id comes back as its decimal text -- and so as the number it was -- exactly when the
   symbol has no hash sign.
   */
  lemma RoundTrip(symbol: string, orderId: int)
    ensures OrderIdOf(Create(symbol, orderId)) == DecimalText.Print(orderId) <==> '#' !in symbol
    ensures '#' !in symbol ==> DecimalText.Parse(OrderIdOf(Create(symbol, orderId))) == Some(orderId)
  {
    var text := DecimalText.Print(orderId);
    var all := Create(symbol, orderId);
    DecimalText.ParsePrint(orderId);
    if '#' !in symbol {
      FindIn(symbol, '#', text);
      assert all == symbol + ['#'] + text;
      assert all[|symbol| + 1..] == text;
    } else {
      var i := Find(all, '#');
      var j :| 0 <= j < |symbol| && symbol[j] == '#';
      assert all[j] == '#' && i <= j;
      assert all[i + 1..][|symbol| - i - 1] == all[|symbol|] == '#';
    }
  }

  lemma HashIsLast(symbol: string, orderId: int)
    ensures var s := Create(symbol, orderId);
            s[|symbol|] == '#' && forall k :: |symbol| < k < |s| ==> s[k] != '#'
  {
    var text, s := DecimalText.Print(orderId), Create(symbol, orderId);
    DecimalText.ParsePrint(orderId);
    assert forall k :: |symbol| < k < |s| ==> s[k] == text[k - |symbol| - 1] && s[k] in text;
  }

  /** Different orders have different external ids, whatever the symbols contain. */
  lemma CreateInjective(s1: string, n1: int, s2: string, n2: int)
    ensures Create(s1, n1) == Create(s2, n2) <==> s1 == s2 && n1 == n2
  {
    HashIsLast(s1, n1);
    HashIsLast(s2, n2);
    if Create(s1, n1) == Create(s2, n2) {
      assert |s1| == |s2|;
      assert s1 == Create(s1, n1)[..|s1|] && s2 == Create(s2, n2)[..|s2|];
      assert DecimalText.Print(n1) == Create(s1, n1)[|s1| + 1..];
      assert DecimalText.Print(n2) == Create(s2, n2)[|s2| + 1..];
      DecimalText.PrintInjective(n1, n2);
    }
  }

  // the code, on the buffer it reuses

  class Buffer {
    var text: string

    constructor ()
      ensures text == ""
    {
      text := "";
    }

    method Clear()
      modifies this
      ensures text == ""
    {
      text := "";
    }

    method Append(s: string)
      modifies this
      ensures text == old(text) + s
    {
      text := text + s;
    }
  }

  method CreateExternalOrderId(buffer: Buffer, symbol: string, orderId: int) returns (view: string)
    modifies buffer
    ensures view == buffer.text == Create(symbol, orderId)
  {
    buffer.Clear();
    buffer.Append(symbol);
    buffer.Append("#");
    buffer.Append(DecimalText.Print(orderId));
    view := buffer.text;
  }

  method GetOrderId(externalOrderId: string) returns (orderId: string)
    ensures orderId == OrderIdOf(externalOrderId)
  {
    var pos := 0;
    while pos < |externalOrderId| && externalOrderId[pos] != '#'
      invariant 0 <= pos <= |externalOrderId|
      invariant forall k :: 0 <= k < pos ==> externalOrderId[k] != '#'
    {
      pos := pos + 1;
    }
    assert pos == Find(externalOrderId, '#');
    if pos == |externalOrderId| {
      return externalOrderId;
    }
    return externalOrderId[pos + 1..];
  }
}
