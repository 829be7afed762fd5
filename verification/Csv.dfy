/** The comma-separated rendering shared by the journal and the payment batch,
    and a reader for it: rules 5 to 7 of section 2 of RFC 4180, with records
    ended by a line feed. */
module Csv {
  import opened Common

  const QUOTE: char := '\"'

  // ----- Writing -----

  /** True when the cell has to be quoted; a carriage return alone is not quoted. */
  predicate NeedsQuotes(v: string) {
    QUOTE in v || ',' in v || '\n' in v
  }

  function DoubleQuotes(v: string): string {
    if |v| == 0 then ""
    else (if v[0] == QUOTE then [QUOTE, QUOTE] else [v[0]]) + DoubleQuotes(v[1..])
  }

  function Escape(v: string): string {
    if NeedsQuotes(v) then [QUOTE] + DoubleQuotes(v) + [QUOTE] else v
  }

  function Join(parts: seq<string>, separator: string): string {
    if |parts| == 0 then ""
    else if |parts| == 1 then parts[0]
    else parts[0] + separator + Join(parts[1..], separator)
  }

  function Escaped(cells: seq<string>): seq<string> {
    seq(|cells|, i requires 0 <= i < |cells| => Escape(cells[i]))
  }

  function Record(cells: seq<string>): string {
    Join(Escaped(cells), ",")
  }

  /** `rows.join('\n')` with a final line feed. */
  function Lines(rows: seq<string>): string {
    Join(rows, "\n") + "\n"
  }

  function Records(rows: seq<seq<string>>): seq<string> {
    seq(|rows|, i requires 0 <= i < |rows| => Record(rows[i]))
  }

  // ----- Reading -----

  datatype Parsed<T> = Bad | Good(value: T, rest: string)

  function ParseQuoted(s: string): (p: Parsed<string>)
    ensures p.Good? ==> |p.rest| <= |s|
  {
    if |s| == 0 then Bad
    else if s[0] == QUOTE then
      if |s| > 1 && s[1] == QUOTE then Prepend(QUOTE, ParseQuoted(s[2..])) else Good("", s[1..])
    else Prepend(s[0], ParseQuoted(s[1..]))
  }

  function Prepend(c: char, p: Parsed<string>): Parsed<string> {
    if p.Bad? then Bad else Good([c] + p.value, p.rest)
  }

  function ParseBare(s: string): (p: Parsed<string>)
    ensures p.Good? ==> |p.rest| <= |s|
  {
    if |s| == 0 || s[0] == ',' || s[0] == '\n' then Good("", s)
    else if s[0] == QUOTE then Bad
    else Prepend(s[0], ParseBare(s[1..]))
  }

  function ParseCell(s: string): (p: Parsed<string>)
    ensures p.Good? ==> |p.rest| <= |s|
  {
    if |s| > 0 && s[0] == QUOTE then ParseQuoted(s[1..]) else ParseBare(s)
  }

  function ParseRecord(s: string): (p: Parsed<seq<string>>)
    ensures p.Good? ==> |p.rest| < |s|
    decreases |s|
  {
    var cell := ParseCell(s);
    if cell.Bad? || |cell.rest| == 0 then Bad
    else if cell.rest[0] == '\n' then Good([cell.value], cell.rest[1..])
    else if cell.rest[0] != ',' then Bad
    else var more := ParseRecord(cell.rest[1..]);
         if more.Bad? then Bad else Good([cell.value] + more.value, more.rest)
  }

  function ParseFile(s: string): Option<seq<seq<string>>>
    decreases |s|
  {
    if |s| == 0 then Some([])
    else var first := ParseRecord(s);
         if first.Bad? then None
         else var more := ParseFile(first.rest);
              if more.None? then None else Some([first.value] + more.value)
  }

  // ----- The reader inverts the writer -----

  predicate IsDelimiter(c: char) {
    c == ',' || c == '\n'
  }

  lemma PairIsOneQuote(tail: string)
    ensures ParseQuoted([QUOTE, QUOTE] + tail) == Prepend(QUOTE, ParseQuoted(tail))
  {
    assert ([QUOTE, QUOTE] + tail)[2..] == tail;
  }

  lemma OtherCharacter(c: char, tail: string)
    requires c != QUOTE
    ensures ParseQuoted([c] + tail) == Prepend(c, ParseQuoted(tail))
  {
    assert ([c] + tail)[1..] == tail;
  }

  lemma {:induction false} QuotedRoundTrip(v: string, rest: string)
    requires |rest| > 0 && IsDelimiter(rest[0])
    ensures ParseQuoted(DoubleQuotes(v) + [QUOTE] + rest) == Good(v, rest)
  {
    var text := DoubleQuotes(v) + [QUOTE] + rest;
    if |v| == 0 {
      assert text == [QUOTE] + rest;
      assert text[1..] == rest;
    } else {
      var tail := DoubleQuotes(v[1..]) + [QUOTE] + rest;
      QuotedRoundTrip(v[1..], rest);
      assert v == [v[0]] + v[1..];
      if v[0] == QUOTE {
        assert text == [QUOTE, QUOTE] + tail;
        PairIsOneQuote(tail);
      } else {
        assert text == [v[0]] + tail;
        OtherCharacter(v[0], tail);
      }
    }
  }

  lemma {:induction false} BareRoundTrip(v: string, rest: string)
    requires !NeedsQuotes(v)
    requires |rest| > 0 && IsDelimiter(rest[0])
    ensures ParseBare(v + rest) == Good(v, rest)
  {
    if |v| == 0 {
      assert v + rest == rest;
    } else {
      assert v[0] in v;
      BareRoundTrip(v[1..], rest);
      var text := v + rest;
      assert text[0] == v[0] && text[1..] == v[1..] + rest;
      assert ParseBare(text) == Prepend(v[0], Good(v[1..], rest));
      assert v == [v[0]] + v[1..];
    }
  }

  lemma QuotedCellRoundTrip(v: string, rest: string)
    requires |rest| > 0 && IsDelimiter(rest[0])
    ensures ParseCell([QUOTE] + DoubleQuotes(v) + [QUOTE] + rest) == Good(v, rest)
  {
    var body := DoubleQuotes(v) + [QUOTE] + rest;
    QuotedRoundTrip(v, rest);
    assert [QUOTE] + DoubleQuotes(v) + [QUOTE] + rest == [QUOTE] + body;
    assert ([QUOTE] + body)[1..] == body;
  }

  lemma BareCellRoundTrip(v: string, rest: string)
    requires !NeedsQuotes(v) && |rest| > 0 && IsDelimiter(rest[0])
    ensures ParseCell(v + rest) == Good(v, rest)
  {
    BareRoundTrip(v, rest);
    if |v| > 0 {
      assert (v + rest)[0] == v[0] && v[0] in v;
    }
  }

  lemma CellRoundTrip(v: string, rest: string)
    requires |rest| > 0 && IsDelimiter(rest[0])
    ensures ParseCell(Escape(v) + rest) == Good(v, rest)
  {
    if NeedsQuotes(v) {
      QuotedCellRoundTrip(v, rest);
    } else {
      BareCellRoundTrip(v, rest);
    }
  }

  /** The text of a record with a rest after it, split behind its first cell. */
  lemma RecordStarts(cells: seq<string>, rest: string)
    requires |cells| > 0
    ensures |cells| == 1 ==> Record(cells) + "\n" + rest == Escape(cells[0]) + ("\n" + rest)
    ensures |cells| > 1 ==>
              Record(cells) + "\n" + rest == Escape(cells[0]) + ("," + (Record(cells[1..]) + "\n" + rest))
  {
    if |cells| == 1 {
      assert Record(cells) == Escape(cells[0]);
    } else {
      assert Escaped(cells)[1..] == Escaped(cells[1..]);
      assert Record(cells) == Escape(cells[0]) + "," + Record(cells[1..]);
    }
  }

  lemma {:induction false} RecordRoundTrip(cells: seq<string>, rest: string)
    requires |cells| > 0
    ensures ParseRecord(Record(cells) + "\n" + rest) == Good(cells, rest)
  {
    RecordStarts(cells, rest);
    if |cells| == 1 {
      CellRoundTrip(cells[0], "\n" + rest);
      assert cells == [cells[0]];
      assert ("\n" + rest)[1..] == rest;
    } else {
      var tail := Record(cells[1..]) + "\n" + rest;
      CellRoundTrip(cells[0], "," + tail);
      assert ("," + tail)[1..] == tail;
      RecordRoundTrip(cells[1..], rest);
      assert cells == [cells[0]] + cells[1..];
    }
  }

  lemma LinesFirst(rows: seq<string>)
    requires |rows| > 1
    ensures Lines(rows) == rows[0] + "\n" + Lines(rows[1..])
  {
    assert rows[0] + "\n" + Join(rows[1..], "\n") + "\n" == rows[0] + "\n" + (Join(rows[1..], "\n") + "\n");
  }

  /** Every table of non-empty rows of arbitrary strings is recovered. */
  lemma {:induction false} FileRoundTrip(rows: seq<seq<string>>)
    requires |rows| > 0
    requires forall i :: 0 <= i < |rows| ==> |rows[i]| > 0
    ensures ParseFile(Lines(Records(rows))) == Some(rows)
  {
    if |rows| == 1 {
      assert Lines(Records(rows)) == Record(rows[0]) + "\n" + "";
      RecordRoundTrip(rows[0], "");
      assert rows == [rows[0]] + [];
    } else {
      assert Records(rows)[1..] == Records(rows[1..]);
      LinesFirst(Records(rows));
      RecordRoundTrip(rows[0], Lines(Records(rows[1..])));
      FileRoundTrip(rows[1..]);
      assert rows == [rows[0]] + rows[1..];
    }
  }

  // ----- Column headers are written as they are -----

  predicate PlainLetters(s: string) {
    forall i :: 0 <= i < |s| ==> 'A' <= s[i] <= 'z'
  }

  lemma PlainHeaders(headers: seq<string>)
    requires forall i :: 0 <= i < |headers| ==> PlainLetters(headers[i])
    ensures Escaped(headers) == headers
  {
    forall i | 0 <= i < |headers| ensures Escape(headers[i]) == headers[i] {
      assert PlainLetters(headers[i]);
    }
  }

  // ----- The comment line above the table -----

  /** The text after the first line feed. */
  function AfterFirstLine(s: string): string {
    if |s| == 0 then "" else if s[0] == '\n' then s[1..] else AfterFirstLine(s[1..])
  }

  lemma {:induction false} SkipLine(line: string, rest: string)
    requires '\n' !in line
    ensures AfterFirstLine(line + "\n" + rest) == rest
  {
    var text := line + "\n" + rest;
    if |line| == 0 {
      assert text == "\n" + rest;
      assert text[1..] == rest;
    } else {
      assert text[1..] == line[1..] + "\n" + rest;
      SkipLine(line[1..], rest);
    }
  }
}
