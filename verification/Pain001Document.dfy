/** The layout of the message and a reader for it: every leaf element of the
    rendered text comes back, in order, with its original value. */
module Pain001Document {
  import opened Pain001

  // ----- Lines -----

  /** One output line; `raw` is the text as written, already escaped. */
  datatype Line =
    | Open(indent: string, name: string, attrs: string)
    | Close(indent: string, name: string)
    | Leaf(indent: string, name: string, attrs: string, raw: string)

  function Tag(text: string): string {
    "<" + text + ">"
  }

  /** The line without its indentation. */
  function Body(l: Line): string {
    match l
    case Open(_, name, attrs) => Tag(name + attrs) + "\n"
    case Close(_, name) => Tag("/" + name) + "\n"
    case Leaf(_, name, attrs, raw) => Tag(name + attrs) + raw + Tag("/" + name) + "\n"
  }

  function RenderLine(l: Line): string {
    l.indent + Body(l)
  }

  /** The lines joined by line feeds, with one at the end. */
  function RenderLines(lines: seq<Line>): string {
    if |lines| == 0 then "" else RenderLine(lines[0]) + RenderLines(lines[1..])
  }

  // ----- A reader -----

  function Before(s: string, c: char): string {
    if |s| == 0 || s[0] == c then "" else [s[0]] + Before(s[1..], c)
  }

  function From(s: string, c: char): (r: string)
    ensures |r| <= |s| && (|r| > 0 ==> r[0] == c)
  {
    if |s| == 0 || s[0] == c then s else From(s[1..], c)
  }

  /** Name and text of every element that holds text only, in document order. */
  function ReadElements(s: string): seq<(string, string)>
    decreases |s|
  {
    var t := From(s, '<');
    if |t| == 0 then []
    else
      var tag, close := Before(t[1..], '>'), From(t[1..], '>');
      if |close| == 0 then []
      else
        var rest, name := close[1..], Before(tag, ' ');
        if Tag("/" + name) <= From(rest, '<')
        then [(name, Unescape(Before(rest, '<')))] + ReadElements(rest)
        else ReadElements(rest)
  }

  lemma {:induction false} Splits(s: string, c: char, rest: string)
    requires c !in s
    requires |rest| == 0 || rest[0] == c
    ensures Before(s + rest, c) == s && From(s + rest, c) == rest
  {
    if |s| == 0 {
      assert s + rest == rest;
    } else {
      assert (s + rest)[1..] == s[1..] + rest;
      Splits(s[1..], c, rest);
      assert s == [s[0]] + s[1..];
    }
  }

  /** Reading over one tag. */
  lemma OneTag(indent: string, tag: string, rest: string)
    requires '<' !in indent && '>' !in tag
    ensures var name := Before(tag, ' ');
            ReadElements(indent + (Tag(tag) + rest))
            == (if Tag("/" + name) <= From(rest, '<') then [(name, Unescape(Before(rest, '<')))] else [])
               + ReadElements(rest)
  {
    var t := Tag(tag) + rest;
    Splits(indent, '<', t);
    assert t[1..] == tag + (">" + rest);
    Splits(tag, '>', ">" + rest);
    assert (">" + rest)[1..] == rest;
  }

  predicate PlainName(s: string) {
    |s| > 0 && s[0] != '/' && ' ' !in s && '>' !in s
  }

  predicate AttrsOk(s: string) {
    '<' !in s && '>' !in s && (|s| > 0 ==> s[0] == ' ')
  }

  predicate LineOk(l: Line) {
    PlainName(l.name) && '<' !in l.indent
    && (!l.Close? ==> AttrsOk(l.attrs))
    && (l.Leaf? ==> '<' !in l.raw)
  }

  /** An opening line is followed by another opening, so no element is empty. */
  predicate Continues(lines: seq<Line>, k: nat)
    requires k < |lines|
  {
    lines[k].Open? ==> k + 1 < |lines| && !lines[k + 1].Close?
  }

  predicate Tidy(lines: seq<Line>) {
    (forall k :: 0 <= k < |lines| ==> LineOk(lines[k]))
    && (forall k :: 0 <= k < |lines| ==> Continues(lines, k))
  }

  function LeafOf(l: Line): seq<(string, string)> {
    if l.Leaf? then [(l.name, Unescape(l.raw))] else []
  }

  function Leaves(lines: seq<Line>): seq<(string, string)> {
    if |lines| == 0 then [] else LeafOf(lines[0]) + Leaves(lines[1..])
  }

  lemma Associates(a: string, b: string, c: string)
    ensures (a + b) + c == a + (b + c)
  {
  }

  lemma Regroup(a: string, b: string, c: string, d: string, e: string)
    ensures a + ((b + (c + d)) + e) == (a + b) + (c + (d + e))
  {
    Associates(b, c + d, e);
    Associates(c, d, e);
    Associates(a, b, c + (d + e));
  }

  lemma BodyStarts(l: Line)
    requires LineOk(l)
    ensures var b := Body(l); |b| > 2 && b[0] == '<' && (b[1] == '/' <==> l.Close?) && (l.Close? ==> b[2] != '/')
  {
    match l
    case Open(_, name, attrs) => assert Body(l)[1] == name[0];
    case Close(_, name) => assert Body(l)[1] == '/' && Body(l)[2] == name[0];
    case Leaf(_, name, attrs, raw) => assert Body(l)[1] == name[0];
  }

  /** What the next markup of the remaining lines looks like. */
  lemma NextTag(lines: seq<Line>)
    requires |lines| > 0 && LineOk(lines[0])
    ensures var t := From("\n" + RenderLines(lines), '<');
            |t| > 2 && (t[1] == '/' <==> lines[0].Close?) && (lines[0].Close? ==> t[2] != '/')
  {
    var l := lines[0];
    BodyStarts(l);
    var body := Body(l) + RenderLines(lines[1..]);
    Associates(l.indent, Body(l), RenderLines(lines[1..]));
    Associates("\n", l.indent, body);
    Splits("\n" + l.indent, '<', body);
  }

  lemma NameOfTag(name: string, attrs: string)
    requires PlainName(name) && AttrsOk(attrs)
    ensures Before(name + attrs, ' ') == name && Before("/" + name, ' ') == "/" + name
    ensures '>' !in name + attrs && '>' !in "/" + name
  {
    Splits(name, ' ', attrs);
    Splits("/" + name, ' ', "");
    assert ("/" + name) + "" == "/" + name;
  }

  /** A closing tag is never followed by a doubly closing one. */
  lemma ClosingIsNotLeaf(name: string, rest: seq<Line>)
    requires PlainName(name) && (|rest| > 0 ==> LineOk(rest[0]))
    ensures !(Tag("/" + ("/" + name)) <= From("\n" + RenderLines(rest), '<'))
  {
    assert Tag("/" + ("/" + name))[1] == '/' && Tag("/" + ("/" + name))[2] == '/';
    if |rest| > 0 {
      NextTag(rest);
    } else {
      assert "\n" + RenderLines(rest) == "\n" + "";
      Splits("\n", '<', "");
    }
  }

  lemma ReadClose(indent: string, name: string, rest: seq<Line>)
    requires '<' !in indent && PlainName(name) && (|rest| > 0 ==> LineOk(rest[0]))
    ensures ReadElements(indent + (Tag("/" + name) + ("\n" + RenderLines(rest))))
         == ReadElements("\n" + RenderLines(rest))
  {
    NameOfTag(name, "");
    ClosingIsNotLeaf(name, rest);
    OneTag(indent, "/" + name, "\n" + RenderLines(rest));
  }

  lemma ReadOpen(indent: string, name: string, attrs: string, rest: seq<Line>)
    requires '<' !in indent && PlainName(name) && AttrsOk(attrs)
    requires |rest| > 0 && LineOk(rest[0]) && !rest[0].Close?
    ensures ReadElements(indent + (Tag(name + attrs) + ("\n" + RenderLines(rest))))
         == ReadElements("\n" + RenderLines(rest))
  {
    NameOfTag(name, attrs);
    NextTag(rest);
    assert Tag("/" + name)[1] == '/';
    OneTag(indent, name + attrs, "\n" + RenderLines(rest));
  }

  lemma ReadLeaf(indent: string, name: string, attrs: string, raw: string, rest: seq<Line>)
    requires '<' !in indent && PlainName(name) && AttrsOk(attrs) && '<' !in raw
    requires |rest| > 0 ==> LineOk(rest[0])
    ensures ReadElements(indent + (Tag(name + attrs) + (raw + (Tag("/" + name) + ("\n" + RenderLines(rest))))))
         == [(name, Unescape(raw))] + ReadElements("\n" + RenderLines(rest))
  {
    var tail := "\n" + RenderLines(rest);
    var close := Tag("/" + name) + tail;
    NameOfTag(name, attrs);
    Splits(raw, '<', close);
    OneTag(indent, name + attrs, raw + close);
    ReadClose(raw, name, rest);
  }

  lemma OpenStarts(before: string, lines: seq<Line>)
    requires |lines| > 0 && lines[0].Open?
    ensures var l := lines[0];
            before + RenderLines(lines) == (before + l.indent)
               + (Tag(l.name + l.attrs) + ("\n" + RenderLines(lines[1..])))
  {
    Regroup(before, lines[0].indent, Tag(lines[0].name + lines[0].attrs), "\n", RenderLines(lines[1..]));
  }

  lemma CloseStarts(before: string, lines: seq<Line>)
    requires |lines| > 0 && lines[0].Close?
    ensures var l := lines[0];
            before + RenderLines(lines) == (before + l.indent) + (Tag("/" + l.name) + ("\n" + RenderLines(lines[1..])))
  {
    Regroup(before, lines[0].indent, Tag("/" + lines[0].name), "\n", RenderLines(lines[1..]));
  }

  lemma LeafStarts(before: string, lines: seq<Line>)
    requires |lines| > 0 && lines[0].Leaf?
    ensures var l := lines[0];
            before + RenderLines(lines)
            == (before + l.indent)
               + (Tag(l.name + l.attrs) + (l.raw + (Tag("/" + l.name) + ("\n" + RenderLines(lines[1..])))))
  {
    var l := lines[0];
    var h, c, r := Tag(l.name + l.attrs), Tag("/" + l.name), RenderLines(lines[1..]);
    Regroup(before, l.indent, h + l.raw + c, "\n", r);
    Associates(h + l.raw, c, "\n" + r);
    Associates(h, l.raw, c + ("\n" + r));
  }

  lemma TidyRest(lines: seq<Line>)
    requires |lines| > 0 && Tidy(lines)
    ensures Tidy(lines[1..]) && LineOk(lines[0])
    ensures |lines| > 1 ==> LineOk(lines[1])
    ensures lines[0].Open? ==> |lines| > 1 && !lines[1].Close?
  {
    assert Continues(lines, 0);
    var rest := lines[1..];
    forall k | 0 <= k < |rest| ensures Continues(rest, k) {
      assert Continues(lines, k + 1);
    }
  }

  /** Reading any tidy document gives exactly its leaf lines. */
  lemma {:induction false} ReadsLeaves(before: string, lines: seq<Line>)
    requires '<' !in before && Tidy(lines)
    ensures ReadElements(before + RenderLines(lines)) == Leaves(lines)
    decreases |lines|
  {
    if |lines| == 0 {
      assert before + RenderLines(lines) == before + "";
      Splits(before, '<', "");
    } else {
      var l, rest := lines[0], lines[1..];
      TidyRest(lines);
      ReadsLeaves("\n", rest);
      if l.Open? {
        OpenStarts(before, lines);
        ReadOpen(before + l.indent, l.name, l.attrs, rest);
      } else if l.Close? {
        CloseStarts(before, lines);
        ReadClose(before + l.indent, l.name, rest);
      } else {
        LeafStarts(before, lines);
        ReadLeaf(before + l.indent, l.name, l.attrs, l.raw, rest);
      }
    }
  }
}
