/** String operations the services rely on: trimming, decimal rendering and
    replacing every occurrence of one character. */
module Text {
  import opened Common

  // ----- String.prototype.trim -----

  /** White space and line terminators as `trim` removes them. */
  predicate IsSpace(c: char) {
    var u := c as int;
    9 <= u <= 13 || u == 32 || u == 0xA0 || u == 0x1680 || 0x2000 <= u <= 0x200A
    || u == 0x2028 || u == 0x2029 || u == 0x202F || u == 0x205F || u == 0x3000 || u == 0xFEFF
  }

  function TrimStart(s: string): string {
    if |s| > 0 && IsSpace(s[0]) then TrimStart(s[1..]) else s
  }

  function TrimEnd(s: string): string {
    if |s| > 0 && IsSpace(s[|s| - 1]) then TrimEnd(s[..|s| - 1]) else s
  }

  function Trim(s: string): string {
    TrimEnd(TrimStart(s))
  }

  predicate IsTrimmed(s: string) {
    |s| > 0 ==> !IsSpace(s[0]) && !IsSpace(s[|s| - 1])
  }

  lemma TrimmedIsFixed(s: string)
    requires IsTrimmed(s)
    ensures Trim(s) == s
  {
  }

  predicate Blank(s: string) {
    forall i :: 0 <= i < |s| ==> IsSpace(s[i])
  }

  lemma {:induction false} TrimStartStrips(s: string)
    ensures var t := TrimStart(s); |t| > 0 ==> !IsSpace(t[0])
    ensures |TrimStart(s)| <= |s| && s[|s| - |TrimStart(s)|..] == TrimStart(s)
    ensures Blank(s[..|s| - |TrimStart(s)|])
  {
    if |s| > 0 && IsSpace(s[0]) {
      TrimStartStrips(s[1..]);
      assert s == [s[0]] + s[1..];
    }
  }

  lemma {:induction false} TrimEndStrips(s: string)
    ensures var t := TrimEnd(s); |t| > 0 ==> !IsSpace(t[|t| - 1]) && t[0] == s[0]
    ensures TrimEnd(s) <= s && Blank(s[|TrimEnd(s)|..])
  {
    if |s| > 0 && IsSpace(s[|s| - 1]) {
      TrimEndStrips(s[..|s| - 1]);
      assert s == s[..|s| - 1] + [s[|s| - 1]];
    }
  }

  /** Trimming leaves no outer white space, so trimming twice is trimming once. */
  lemma TrimIsIdempotent(s: string)
    ensures IsTrimmed(Trim(s)) && Trim(Trim(s)) == Trim(s) && |Trim(s)| <= |s|
  {
    TrimStartStrips(s);
    TrimEndStrips(TrimStart(s));
  }

  /** The text from place `a` to place `b`, with nothing but white space around it. */
  predicate IsMiddle(s: string, a: nat, b: nat, middle: string) {
    a <= b <= |s| && middle == s[a..b] && Blank(s[..a]) && Blank(s[b..])
  }

  /** Trimming takes white space away, and nothing else. */
  lemma TrimTakesBlanks(s: string)
    ensures var a := |s| - |TrimStart(s)|; 0 <= a && IsMiddle(s, a, a + |Trim(s)|, Trim(s))
  {
    TrimStartStrips(s);
    TrimEndStrips(TrimStart(s));
    var a, t := |s| - |TrimStart(s)|, TrimStart(s);
    assert t[|Trim(s)|..] == s[a + |Trim(s)|..];
    assert t[..|Trim(s)|] == s[a..a + |Trim(s)|];
  }

  // ----- Decimal rendering -----

  function Digit(d: nat): char
    requires d < 10
  {
    ('0' as int + d) as char
  }

  predicate IsDigit(c: char) {
    '0' <= c <= '9'
  }

  function Decimal(n: nat): string {
    if n < 10 then [Digit(n)] else Decimal(n / 10) + [Digit(n % 10)]
  }

  function IntToString(n: int): string {
    if n < 0 then "-" + Decimal(-n) else Decimal(n)
  }

  predicate AllDigits(s: string) {
    forall i :: 0 <= i < |s| ==> IsDigit(s[i])
  }

  function ParseDecimal(s: string): Option<nat>
  {
    if |s| == 0 || !IsDigit(s[|s| - 1]) then None
    else
      var d: nat := s[|s| - 1] as int - '0' as int;
      if |s| == 1 then Some(d)
      else match ParseDecimal(s[..|s| - 1])
           case None => None
           case Some(n) => Some(10 * n + d)
  }

  function ParseInt(s: string): Option<int> {
    if |s| > 0 && s[0] == '-' then
      var magnitude: Option<int> := ParseDecimal(s[1..]);
      if magnitude.None? then None else Some(-magnitude.value)
    else
      var n: Option<int> := ParseDecimal(s);
      n
  }

  /** Rendering a natural number gives digits only and parses back. */
  lemma {:induction false} DecimalRoundTrip(n: nat)
    ensures ParseDecimal(Decimal(n)) == Some(n)
    ensures AllDigits(Decimal(n)) && |Decimal(n)| > 0
  {
    if n >= 10 {
      DecimalRoundTrip(n / 10);
      var s := Decimal(n);
      assert s[..|s| - 1] == Decimal(n / 10);
    }
  }

  lemma IntRoundTrip(n: int)
    ensures ParseInt(IntToString(n)) == Some(n)
  {
    DecimalRoundTrip(Abs(n));
    if n < 0 {
      assert IntToString(n)[1..] == Decimal(-n);
    } else {
      assert IsDigit(Decimal(n)[0]);
    }
  }

  // ----- replaceAll of one character -----

  function ReplaceAll(s: string, c: char, with: string): string {
    if |s| == 0 then "" else (if s[0] == c then with else [s[0]]) + ReplaceAll(s[1..], c, with)
  }

  lemma {:induction false} ReplaceAllConcat(s: string, t: string, c: char, with: string)
    ensures ReplaceAll(s + t, c, with) == ReplaceAll(s, c, with) + ReplaceAll(t, c, with)
  {
    if |s| == 0 {
      assert s + t == t;
    } else {
      assert (s + t)[1..] == s[1..] + t;
      ReplaceAllConcat(s[1..], t, c, with);
    }
  }

  lemma {:induction false} ReplaceAllAbsent(s: string, c: char, with: string)
    requires c !in s
    ensures ReplaceAll(s, c, with) == s
  {
    if |s| > 0 {
      ReplaceAllAbsent(s[1..], c, with);
    }
  }
}
