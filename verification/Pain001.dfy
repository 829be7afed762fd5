/** The ISO 20022 credit-transfer message (pain.001.001.08) of a payment batch:
    escaping, amounts, and what a reader of the rendered text recovers. */
module Pain001 {
  import opened Common
  import opened Text

  // ----- Escaping -----

  /** The five passes of the emitter, ampersand first. */
  function EscapeXml(s: string): string {
    var s1 := ReplaceAll(s, '&', "&amp;");
    var s2 := ReplaceAll(s1, '<', "&lt;");
    var s3 := ReplaceAll(s2, '>', "&gt;");
    var s4 := ReplaceAll(s3, '"', "&quot;");
    ReplaceAll(s4, '\'', "&apos;")
  }

  /** The reference of one character (section 4.6 of XML 1.0). */
  function EscapeChar(c: char): string {
    match c
    case '&' => "&amp;"
    case '<' => "&lt;"
    case '>' => "&gt;"
    case '"' => "&quot;"
    case '\'' => "&apos;"
    case _ => [c]
  }

  function EscapeEach(s: string): string {
    if |s| == 0 then "" else EscapeChar(s[0]) + EscapeEach(s[1..])
  }

  function Unescape(s: string): string {
    if |s| == 0 then ""
    else if s[0] != '&' then [s[0]] + Unescape(s[1..])
    else if "&amp;" <= s then "&" + Unescape(s[5..])
    else if "&lt;" <= s then "<" + Unescape(s[4..])
    else if "&gt;" <= s then ">" + Unescape(s[4..])
    else if "&quot;" <= s then "\"" + Unescape(s[6..])
    else if "&apos;" <= s then "'" + Unescape(s[6..])
    else [s[0]] + Unescape(s[1..])
  }

  lemma EscapeConcat(s: string, t: string)
    ensures EscapeXml(s + t) == EscapeXml(s) + EscapeXml(t)
  {
    var s1, t1 := ReplaceAll(s, '&', "&amp;"), ReplaceAll(t, '&', "&amp;");
    ReplaceAllConcat(s, t, '&', "&amp;");
    var s2, t2 := ReplaceAll(s1, '<', "&lt;"), ReplaceAll(t1, '<', "&lt;");
    ReplaceAllConcat(s1, t1, '<', "&lt;");
    var s3, t3 := ReplaceAll(s2, '>', "&gt;"), ReplaceAll(t2, '>', "&gt;");
    ReplaceAllConcat(s2, t2, '>', "&gt;");
    var s4, t4 := ReplaceAll(s3, '"', "&quot;"), ReplaceAll(t3, '"', "&quot;");
    ReplaceAllConcat(s3, t3, '"', "&quot;");
    ReplaceAllConcat(s4, t4, '\'', "&apos;");
  }

  lemma ReplaceAllOne(c: char, d: char, with: string)
    ensures ReplaceAll([c], d, with) == if c == d then with else [c]
  {
    assert [c][1..] == "";
  }

  /** The passes after the first leave what holds none of their characters. */
  lemma LaterPasses(s: string)
    requires '<' !in s && '>' !in s && '"' !in s && '\'' !in s
    requires '&' !in s || s == "&"
    ensures EscapeXml(s) == ReplaceAll(s, '&', "&amp;")
  {
    var s1 := ReplaceAll(s, '&', "&amp;");
    if s == "&" {
      ReplaceAllOne('&', '&', "&amp;");
    } else {
      ReplaceAllAbsent(s, '&', "&amp;");
    }
    ReplaceAllAbsent(s1, '<', "&lt;");
    ReplaceAllAbsent(s1, '>', "&gt;");
    ReplaceAllAbsent(s1, '"', "&quot;");
    ReplaceAllAbsent(s1, '\'', "&apos;");
  }

  /** The last two passes leave the angle references alone. */
  lemma AngleReferencesStay(s: string)
    requires '"' !in s && '\'' !in s
    ensures ReplaceAll(ReplaceAll(s, '"', "&quot;"), '\'', "&apos;") == s
  {
    ReplaceAllAbsent(s, '"', "&quot;");
    ReplaceAllAbsent(s, '\'', "&apos;");
  }

  lemma EscapeLess()
    ensures EscapeXml("<") == "&lt;"
  {
    var reference := "&lt;";
    ReplaceAllOne('<', '&', "&amp;");
    ReplaceAllOne('<', '<', reference);
    ReplaceAllAbsent(reference, '>', "&gt;");
    AngleReferencesStay(reference);
  }

  lemma EscapeGreater()
    ensures EscapeXml(">") == "&gt;"
  {
    var reference := "&gt;";
    ReplaceAllOne('>', '&', "&amp;");
    ReplaceAllOne('>', '<', "&lt;");
    ReplaceAllOne('>', '>', reference);
    AngleReferencesStay(reference);
  }

  lemma EscapeQuotes()
    ensures EscapeXml("\"") == "&quot;"
    ensures EscapeXml("'") == "&apos;"
  {
    ReplaceAllOne('"', '&', "&amp;");
    ReplaceAllOne('"', '<', "&lt;");
    ReplaceAllOne('"', '>', "&gt;");
    ReplaceAllOne('"', '"', "&quot;");
    ReplaceAllAbsent("&quot;", '\'', "&apos;");
    ReplaceAllAbsent("'", '&', "&amp;");
    ReplaceAllAbsent("'", '<', "&lt;");
    ReplaceAllAbsent("'", '>', "&gt;");
    ReplaceAllAbsent("'", '"', "&quot;");
    ReplaceAllOne('\'', '\'', "&apos;");
  }

  lemma EscapeOne(c: char)
    ensures EscapeXml([c]) == EscapeChar(c)
  {
    if c == '<' {
      EscapeLess();
    } else if c == '>' {
      EscapeGreater();
    } else if c == '"' || c == '\'' {
      EscapeQuotes();
    } else {
      LaterPasses([c]);
      ReplaceAllOne(c, '&', "&amp;");
    }
  }

  /** The five passes are one map over the characters: no pass rewrites what an
      earlier one inserted. */
  lemma {:induction false} EscapeIsPerCharacter(s: string)
    ensures EscapeXml(s) == EscapeEach(s)
  {
    if |s| > 0 {
      EscapeOne(s[0]);
      EscapeIsPerCharacter(s[1..]);
      EscapeConcat([s[0]], s[1..]);
      assert s == [s[0]] + s[1..];
    }
  }

  /** A word is not the start of a text that differs from it at `k`. */
  lemma NotPrefix(word: string, s: string, k: nat)
    requires k < |word| && k < |s| && word[k] != s[k]
    ensures !(word <= s)
  {
  }

  lemma Front(word: string, rest: string)
    ensures word <= word + rest && (word + rest)[|word|..] == rest
    ensures forall k :: 0 <= k < |word| ==> (word + rest)[k] == word[k]
  {
  }

  lemma UnescapeAngles(rest: string)
    ensures Unescape("&lt;" + rest) == "<" + Unescape(rest)
    ensures Unescape("&gt;" + rest) == ">" + Unescape(rest)
  {
    Front("&lt;", rest);
    NotPrefix("&amp;", "&lt;" + rest, 1);
    Front("&gt;", rest);
    NotPrefix("&amp;", "&gt;" + rest, 1);
    NotPrefix("&lt;", "&gt;" + rest, 1);
  }

  lemma UnescapeQuotes(rest: string)
    ensures Unescape("&quot;" + rest) == "\"" + Unescape(rest)
  {
    var s := "&quot;" + rest;
    Front("&quot;", rest);
    NotPrefix("&amp;", s, 1);
    NotPrefix("&lt;", s, 1);
    NotPrefix("&gt;", s, 1);
  }

  lemma UnescapeApostrophe(rest: string)
    ensures Unescape("&apos;" + rest) == "'" + Unescape(rest)
  {
    var s := "&apos;" + rest;
    Front("&apos;", rest);
    NotPrefix("&amp;", s, 2);
    NotPrefix("&lt;", s, 1);
    NotPrefix("&gt;", s, 1);
    NotPrefix("&quot;", s, 1);
  }

  lemma UnescapeOne(c: char, rest: string)
    ensures Unescape(EscapeChar(c) + rest) == [c] + Unescape(rest)
  {
    if c == '&' {
      Front("&amp;", rest);
    } else if c == '<' || c == '>' {
      UnescapeAngles(rest);
    } else if c == '"' {
      UnescapeQuotes(rest);
    } else if c == '\'' {
      UnescapeApostrophe(rest);
    } else {
      Front([c], rest);
    }
  }

  /** The text stands for `s`. */
  predicate StandsFor(text: string, s: string) {
    Unescape(text) == s
  }

  lemma OneMore(c: char, rest: string, s: string)
    requires StandsFor(rest, s)
    ensures StandsFor(EscapeChar(c) + rest, [c] + s)
  {
    UnescapeOne(c, rest);
  }

  lemma {:induction false} UnescapeEach(s: string)
    ensures StandsFor(EscapeEach(s), s)
  {
    if |s| > 0 {
      UnescapeEach(s[1..]);
      OneMore(s[0], EscapeEach(s[1..]), s[1..]);
      assert s == [s[0]] + s[1..];
    }
  }

  lemma NoMarkupInReference(c: char)
    ensures '<' !in EscapeChar(c) && '>' !in EscapeChar(c)
  {
  }

  lemma {:induction false} EscapedHasNoMarkup(s: string)
    ensures '<' !in EscapeEach(s) && '>' !in EscapeEach(s)
  {
    if |s| > 0 {
      NoMarkupInReference(s[0]);
      EscapedHasNoMarkup(s[1..]);
    }
  }

  /** Escaped text carries no markup and reads back exactly. */
  lemma EscapeRoundTrip(s: string)
    ensures Unescape(EscapeXml(s)) == s
    ensures '<' !in EscapeXml(s) && '>' !in EscapeXml(s)
  {
    EscapeIsPerCharacter(s);
    UnescapeEach(s);
    EscapedHasNoMarkup(s);
  }

  lemma {:induction false} UnescapePlain(s: string)
    requires '&' !in s
    ensures Unescape(s) == s
  {
    if |s| > 0 {
      UnescapePlain(s[1..]);
    }
  }

  // ----- Amounts -----

  const MAX_SAFE_INTEGER: int := 9_007_199_254_740_991

  predicate IsSafeInteger(n: int) {
    -MAX_SAFE_INTEGER <= n <= MAX_SAFE_INTEGER
  }

  function PadTwo(n: nat): string {
    if n < 10 then "0" + Decimal(n) else Decimal(n)
  }

  /** Minor units with exactly two places; an unsafe integer is refused. */
  function FormatAmount(minor: int): Option<string> {
    if !IsSafeInteger(minor) then None
    else
      var abs := Abs(minor);
      Some((if minor < 0 then "-" else "") + Magnitude(abs))
  }

  function Magnitude(abs: nat): string {
    Decimal(abs / 100) + "." + PadTwo(abs % 100)
  }

  /** Digits, a point, two digits: the amount in minor units. */
  function ParseMagnitude(s: string): Option<nat> {
    var n := |s| - 3;
    if n < 1 || s[n] != '.' then None
    else
      var units, cents := ParseDecimal(s[..n]), ParseDecimal(s[n + 1..]);
      if units.None? || cents.None? then None else Some(100 * units.value + cents.value)
  }

  function ParseAmount(s: string): Option<int> {
    if |s| > 0 && s[0] == '-' then
      var m: Option<int> := ParseMagnitude(s[1..]);
      if m.None? then None else Some(-m.value)
    else
      var m: Option<int> := ParseMagnitude(s);
      m
  }

  lemma PadTwoIsTwo(n: nat)
    requires n < 100
    ensures |PadTwo(n)| == 2 && ParseDecimal(PadTwo(n)) == Some(n) && AllDigits(PadTwo(n))
  {
    DecimalRoundTrip(n);
    if n < 10 {
      assert PadTwo(n)[..1] == "0";
    } else {
      assert |Decimal(n / 10)| == 1;
    }
  }

  predicate IsAmountText(s: string) {
    forall i :: 0 <= i < |s| ==> IsDigit(s[i]) || s[i] == '.' || s[i] == '-'
  }

  lemma MagnitudeRoundTrip(abs: nat)
    ensures var s := Magnitude(abs);
            |s| > 0 && IsDigit(s[0]) && ParseMagnitude(s) == Some(abs) && IsAmountText(s)
  {
    DecimalRoundTrip(abs / 100);
    PadTwoIsTwo(abs % 100);
    var units, cents := Decimal(abs / 100), PadTwo(abs % 100);
    var s := units + "." + cents;
    assert s[..|s| - 3] == units && s[|s| - 2..] == cents && s[|s| - 3] == '.';
  }

  /** A rendered amount parses back, for every safe integer of either sign, and
      needs no escaping. */
  lemma AmountRoundTrip(minor: int)
    ensures FormatAmount(minor).Some? <==> Abs(minor) <= 9_007_199_254_740_991
    ensures FormatAmount(minor).Some? ==>
              ParseAmount(FormatAmount(minor).value) == Some(minor) && IsAmountText(FormatAmount(minor).value)
  {
    if IsSafeInteger(minor) {
      MagnitudeRoundTrip(Abs(minor));
      var magnitude, s := Magnitude(Abs(minor)), FormatAmount(minor).value;
      if minor < 0 {
        assert s == "-" + magnitude;
        assert s[1..] == magnitude;
      } else {
        assert s == magnitude;
      }
    }
  }
}
