/** Printing integers in decimal, as the formatting library does for order ids, windows and numbers. */
module DecimalText {
  import opened Wrappers

  predicate IsDigit(c: char) {
    '0' <= c <= '9'
  }

  predicate AllDigits(s: string) {
    forall i :: 0 <= i < |s| ==> IsDigit(s[i])
  }

  function PrintNat(n: nat): (s: string)
    ensures s != [] && AllDigits(s)
  {
    var last := ['0' + (n % 10) as char];
    if n < 10 then last else PrintNat(n / 10) + last
  }

  function ValueOf(s: string): (v: int)
    requires AllDigits(s)
    ensures v >= 0
  {
    if s == [] then 0 else 10 * ValueOf(s[..|s| - 1]) + (s[|s| - 1] - '0') as int
  }

  lemma {:induction false} ValueOfPrint(n: nat)
    ensures ValueOf(PrintNat(n)) == n
  {
    var s := PrintNat(n);
    if n < 10 {
      assert s[..|s| - 1] == [];
    } else {
      ValueOfPrint(n / 10);
      assert s[..|s| - 1] == PrintNat(n / 10);
    }
  }

  /** No leading zeros, so every number has one text only. */
  lemma {:induction false} PrintOfValue(s: string)
    requires s != [] && AllDigits(s) && (s[0] == '0' ==> |s| == 1)
    ensures PrintNat(ValueOf(s)) == s
  {
    hide PrintNat;
    var n := |s| - 1;
    if n == 0 {
      assert s[..n] == [] && s == [s[0]];
      PrintOneDigit(s[0]);
    } else {
      PrintOfValue(s[..n]);
      ValueIsPositive(s[..n]);
      PrintOneMore(ValueOf(s[..n]), s[n]);
      assert s == s[..n] + [s[n]];
    }
  }

  lemma PrintOneDigit(c: char)
    requires IsDigit(c)
    ensures PrintNat((c - '0') as int) == [c]
  {
  }

  lemma PrintOneMore(n: nat, c: char)
    requires n > 0 && IsDigit(c)
    ensures PrintNat(10 * n + (c - '0') as int) == PrintNat(n) + [c]
  {
    var m := 10 * n + (c - '0') as int;
    assert m / 10 == n && m % 10 == (c - '0') as int;
  }

  lemma {:induction false} ValueIsPositive(s: string)
    requires s != [] && AllDigits(s) && s[0] != '0'
    ensures ValueOf(s) > 0
  {
    if |s| == 1 {
    } else {
      ValueIsPositive(s[..|s| - 1]);
    }
  }

  function Print(n: int): (s: string)
    ensures s != []
  {
    if n < 0 then "-" + PrintNat(-n) else PrintNat(n)
  }

  function Parse(s: string): Option<int> {
    if s != [] && AllDigits(s) then Some(ValueOf(s))
    else if |s| > 1 && s[0] == '-' && AllDigits(s[1..]) then Some(-ValueOf(s[1..]))
    else None
  }

  /** A printed number consists of digits and perhaps a sign, and parses back: printing is injective. */
  lemma ParsePrint(n: int)
    ensures Parse(Print(n)) == Some(n)
    ensures forall c :: c in Print(n) ==> IsDigit(c) || c == '-'
  {
    var s := PrintNat(if n < 0 then -n else n);
    ValueOfPrint(if n < 0 then -n else n);
    if n < 0 {
      assert Print(n)[1..] == s;
    }
  }

  lemma PrintInjective(m: int, n: int)
    ensures Print(m) == Print(n) <==> m == n
  {
    ParsePrint(m);
    ParsePrint(n);
  }
}
