/** The values the plugin hands back over the method channel, and the decimal rendering
    of integers that Kotlin string templates and `Int.toString()` produce. */
module Values {
  import opened Wrappers

  /** A value of the standard message codec: null, a boolean, an integer, a floating-point
      number, a string, a list, or a string-keyed map. */
  datatype Value =
    | Null
    | Bool(b: bool)
    | Int(i: int)
    | Real(r: real)
    | Str(s: string)
    | List(items: seq<Value>)
    | Record(fields: map<string, Value>)

  function OptStr(o: Option<string>): Value {
    if o.Some? then Str(o.value) else Null
  }

  function OptInt(o: Option<int>): Value {
    if o.Some? then Int(o.value) else Null
  }

  function OptBool(o: Option<bool>): Value {
    if o.Some? then Bool(o.value) else Null
  }

  function OptReal(o: Option<real>): Value {
    if o.Some? then Real(o.value) else Null
  }

  function StrList(ss: seq<string>): (v: Value)
    ensures v.List? && |v.items| == |ss|
    ensures forall i :: 0 <= i < |ss| ==> v.items[i] == Str(ss[i])
  {
    List(seq(|ss|, i requires 0 <= i < |ss| => Str(ss[i])))
  }

  predicate IsDigit(c: char) {
    '0' <= c <= '9'
  }

  predicate AllDigits(s: string) {
    forall i :: 0 <= i < |s| ==> IsDigit(s[i])
  }

  function DigitChar(d: nat): (c: char)
    requires d < 10
    ensures IsDigit(c)
  {
    ('0' as int + d) as char
  }

  function DigitValue(c: char): nat
    requires IsDigit(c)
  {
    c as int - '0' as int
  }

  /** Decimal digits of a natural number, most significant first, no leading zeros. */
  function NatToString(n: nat): string
    decreases n
  {
    if n < 10 then [DigitChar(n)] else NatToString(n / 10) + [DigitChar(n % 10)]
  }

  /** `Int.toString()`: an optional minus sign followed by the decimal digits. */
  function IntToString(i: int): (s: string)
    ensures |s| > 0
    ensures s[0] == '-' <==> i < 0
    ensures i >= 0 ==> AllDigits(s)
  {
    if i < 0 then "-" + NatToString(-i)
    else
      NatToStringDigits(i);
      NatToString(i)
  }

  /** The inverse of NatToString on strings of digits. */
  function ParseNat(s: string): nat
    requires AllDigits(s)
  {
    if |s| == 0 then 0 else 10 * ParseNat(s[..|s| - 1]) + DigitValue(s[|s| - 1])
  }

  /** The inverse of IntToString. */
  function ParseInt(s: string): Option<int> {
    if |s| > 0 && s[0] == '-' && AllDigits(s[1..]) then Some(-(ParseNat(s[1..]) as int))
    else if AllDigits(s) then Some(ParseNat(s))
    else None
  }

  lemma {:induction false} NatToStringDigits(n: nat)
    ensures |NatToString(n)| > 0 && AllDigits(NatToString(n))
    ensures ParseNat(NatToString(n)) == n
    decreases n
  {
    if n >= 10 {
      NatToStringDigits(n / 10);
      var s := NatToString(n);
      assert s[..|s| - 1] == NatToString(n / 10);
    }
  }

  /** Reading back what `Int.toString()` wrote gives the original integer. */
  lemma IntToStringRoundTrip(i: int)
    ensures ParseInt(IntToString(i)) == Some(i)
  {
    if i < 0 {
      NatToStringDigits(-i);
      assert IntToString(i)[1..] == NatToString(-i);
    } else {
      NatToStringDigits(i);
    }
  }

  /** A rendered integer never contains the letter 'x'. */
  lemma IntToStringHasNoX(i: int)
    ensures 'x' !in IntToString(i)
  {
    if i < 0 {
      NatToStringDigits(-i);
      assert IntToString(i) == ['-'] + NatToString(-i);
    } else {
      NatToStringDigits(i);
    }
  }

  /** The screen resolution as the plugin renders it: "${widthPixels}x${heightPixels}". */
  function Resolution(width: int, height: int): string {
    IntToString(width) + "x" + IntToString(height)
  }

  lemma SplitAtX(a: string, b: string, c: string, e: string)
    requires 'x' !in a && 'x' !in c
    requires a + "x" + b == c + "x" + e
    ensures a == c && b == e
  {
    var s := a + "x" + b;
    var t := c + "x" + e;
    assert forall k :: 0 <= k < |a| ==> s[k] == a[k] != 'x';
    assert forall k :: 0 <= k < |c| ==> t[k] == c[k] != 'x';
    assert s[|a|] == 'x' && t[|c|] == 'x';
    assert |a| == |c|;
    assert a == s[..|a|] == c;
    assert b == s[|a| + 1..] == e;
  }

  /** The resolution string determines both dimensions. */
  lemma ResolutionInjective(w1: int, h1: int, w2: int, h2: int)
    requires Resolution(w1, h1) == Resolution(w2, h2)
    ensures w1 == w2 && h1 == h2
  {
    IntToStringHasNoX(w1);
    IntToStringHasNoX(w2);
    SplitAtX(IntToString(w1), IntToString(h1), IntToString(w2), IntToString(h2));
    IntToStringRoundTrip(w1);
    IntToStringRoundTrip(w2);
    IntToStringRoundTrip(h1);
    IntToStringRoundTrip(h2);
  }
}
