/** What a patch reader makes of odd lines, and what it takes for a hunk header. */
module PatchText {
  import opened Prelude
  import opened TextLines
  import opened Patch
  import opened PatchParse

  // ---------- headers ----------

  predicate Digits(s: string) {
    s != "" && forall i :: 0 <= i < |s| ==> '0' <= s[i] <= '9'
  }

  predicate Blank(s: string) {
    s != "" && forall i :: 0 <= i < |s| ==> s[i] in [' ', '\t', '\n', '\r', 12 as char]
  }

  /** A line number and, perhaps, a number of lines. */
  datatype Numbers = Numbers(start: string, count: Option<string>)
  {
    predicate Good() {
      Digits(start) && (count.Some? ==> Digits(count.value))
    }

    function Text(): string {
      start + if count.Some? then "," + count.value else ""
    }

    function Lines(): Number {
      if count.Some? then Atoi(count.value) else 1
    }
  }

  /** The parts of a header: what stands before each mark, the numbers, and what follows. */
  datatype Header = Header(gap1: string, old_: Numbers, gap2: string, new_: Numbers, gap3: string, heading: string)
  {
    predicate Good() {
      Blank(gap1) && old_.Good() && Blank(gap2) && new_.Good() && Blank(gap3)
    }

    function Text(): string {
      "@@" + (gap1 + "-" + (old_.Text() + (gap2 + "+" + (new_.Text() + (gap3 + "@@" + heading)))))
    }
  }

  lemma {:induction false} DigitsRun(d: string, rest: string)
    requires forall i :: 0 <= i < |d| ==> '0' <= d[i] <= '9'
    requires rest == "" || !('0' <= rest[0] <= '9')
    ensures DigitRun(d + rest) == |d|
  {
    DigitRunStops(d, rest);
  }

  lemma {:induction false} RunIsDigits(s: string)
    ensures forall i :: 0 <= i < DigitRun(s) ==> '0' <= s[i] <= '9'
    ensures DigitRun(s) < |s| ==> !('0' <= s[DigitRun(s)] <= '9')
  {
    if s != "" && IsDigit(s[0]) {
      RunIsDigits(s[1..]);
    }
  }

  lemma {:induction false} BlankRun(g: string, rest: string)
    requires forall i :: 0 <= i < |g| ==> g[i] in [' ', '\t', '\n', '\r', 12 as char]
    requires rest != "" && rest[0] !in [' ', '\t', '\n', '\r', 12 as char]
    ensures SpaceRun(g + rest) == |g|
  {
    if g == "" {
      assert g + rest == rest;
    } else {
      assert (g + rest)[1..] == g[1..] + rest;
      BlankRun(g[1..], rest);
    }
  }

  lemma {:induction false} RunIsBlank(s: string)
    ensures forall i :: 0 <= i < SpaceRun(s) ==> s[i] in [' ', '\t', '\n', '\r', 12 as char]
  {
    if s != "" && IsSpace(s[0]) {
      RunIsBlank(s[1..]);
    }
  }

  lemma NumberTaken(d: string, rest: string)
    requires Digits(d) && (rest == "" || !('0' <= rest[0] <= '9'))
    ensures TakeNumber(d + rest) == Some((Atoi(d), rest))
  {
    DigitsRun(d, rest);
    assert (d + rest)[..|d|] == d && (d + rest)[|d|..] == rest;
  }

  lemma TakenNumber(s: string)
    requires TakeNumber(s).Some?
    ensures var (n, rest) := TakeNumber(s).value;
            exists d :: Digits(d) && s == d + rest && n == Atoi(d) && (rest == "" || !('0' <= rest[0] <= '9'))
  {
    RunIsDigits(s);
    var d := s[..DigitRun(s)];
    assert Digits(d) && s == d + s[DigitRun(s)..];
  }

  lemma NumbersTaken(n: Numbers, rest: string)
    requires n.Good() && rest != "" && !('0' <= rest[0] <= '9') && rest[0] != ','
    ensures TakeRange(n.Text() + rest) == Some((Atoi(n.start), n.Lines(), rest))
  {
    if n.count.Some? {
      var tail := "," + n.count.value + rest;
      assert n.Text() + rest == n.start + tail && tail[1..] == n.count.value + rest;
      NumberTaken(n.start, tail);
      NumberTaken(n.count.value, rest);
    } else {
      assert n.Text() + rest == n.start + rest;
      NumberTaken(n.start, rest);
    }
  }

  lemma TakenNumbers(s: string) returns (n: Numbers)
    requires TakeRange(s).Some?
    ensures var (start, lines, rest) := TakeRange(s).value;
            n.Good() && s == n.Text() + rest && start == Atoi(n.start) && lines == n.Lines()
  {
    TakenNumber(s);
    var (start, rest) := TakeNumber(s).value;
    var d :| Digits(d) && s == d + rest && start == Atoi(d);
    hide TakeNumber, Digits, Atoi;
    if rest != "" && rest[0] == ',' {
      assert TakeNumber(rest[1..]).Some?;
      n := TakenCount(s, d, rest);
    } else {
      n := Numbers(d, None);
      assert d + "" + rest == s;
    }
  }

  lemma TakenCount(s: string, d: string, rest: string) returns (n: Numbers)
    requires Digits(d) && s == d + rest && rest != "" && rest[0] == ',' && TakeNumber(rest[1..]).Some?
    ensures var (count, rest2) := TakeNumber(rest[1..]).value;
            n.Good() && n.start == d && n.count.Some? && Atoi(n.count.value) == count && s == n.Text() + rest2
  {
    TakenNumber(rest[1..]);
    var (count, rest2) := TakeNumber(rest[1..]).value;
    hide TakeNumber, Digits, Atoi;
    var e :| Digits(e) && rest[1..] == e + rest2 && count == Atoi(e);
    n := Numbers(d, Some(e));
    assert rest == "," + e + rest2;
    assert d + ("," + e) + rest2 == d + rest;
  }

  lemma GapTaken(gap: string, mark: string, rest: string)
    requires Blank(gap) && mark in ["-", "+", "@@"]
    ensures TakeGap(gap + mark + rest, mark) == Some(rest)
  {
    assert gap + mark + rest == gap + (mark + rest);
    BlankRun(gap, mark + rest);
    assert (gap + mark + rest)[|gap|..] == mark + rest;
    assert (gap + mark + rest)[|gap| + |mark|..] == rest;
  }

  lemma TakenGap(s: string, mark: string) returns (gap: string)
    requires TakeGap(s, mark).Some?
    ensures Blank(gap) && s == gap + mark + TakeGap(s, mark).value
  {
    RunIsBlank(s);
    var n := SpaceRun(s);
    gap := s[..n];
    assert s[n..] == mark + s[n..][|mark|..];
    assert s[n..][|mark|..] == s[n + |mark|..];
  }

  lemma MarkedTaken(gap: string, mark: string, n: Numbers, rest: string)
    requires Blank(gap) && mark in ["-", "+"] && n.Good() && rest != "" && !('0' <= rest[0] <= '9') && rest[0] != ','
    ensures TakeMarked(gap + mark + (n.Text() + rest), mark) == Some((Atoi(n.start), n.Lines(), rest))
  {
    GapTaken(gap, mark, n.Text() + rest);
    NumbersTaken(n, rest);
  }

  lemma TakenMarked(s: string, mark: string) returns (gap: string, n: Numbers)
    requires TakeMarked(s, mark).Some?
    ensures var (start, lines, rest) := TakeMarked(s, mark).value;
            Blank(gap) && n.Good() && s == gap + mark + (n.Text() + rest)
  {
    gap := TakenGap(s, mark);
    n := TakenNumbers(TakeGap(s, mark).value);
  }

  lemma HeaderTaken(h: Header)
    requires h.Good()
    ensures ParseHeader(h.Text())
            == Some(Hunk(Atoi(h.old_.start), h.old_.Lines(), Atoi(h.new_.start), h.new_.Lines(), []))
  {
    var end := h.gap3 + "@@" + h.heading;
    var s2 := h.gap2 + "+" + (h.new_.Text() + end);
    assert h.gap2[0] in h.gap2 && h.gap3[0] in h.gap3;
    assert s2[0] == h.gap2[0] && end[0] == h.gap3[0];
    MarkedTaken(h.gap1, "-", h.old_, s2);
    MarkedTaken(h.gap2, "+", h.new_, end);
    GapTaken(h.gap3, "@@", h.heading);
    hide TakeMarked, TakeGap, Numbers.Text, Numbers.Lines, Numbers.Good, Blank, Atoi;
    assert h.Text()[2..] == h.gap1 + "-" + (h.old_.Text() + s2);
  }

  lemma TakenHeader(line: string) returns (h: Header)
    requires ParseHeader(line).Some?
    ensures h.Good() && line == h.Text()
  {
    hide TakeMarked, TakeGap, Numbers.Text, Numbers.Good, Blank;
    var gap1, old_ := TakenMarked(line[2..], "-");
    var s2 := TakeMarked(line[2..], "-").value.2;
    var gap2, new_ := TakenMarked(s2, "+");
    var s4 := TakeMarked(s2, "+").value.2;
    var gap3 := TakenGap(s4, "@@");
    h := Header(gap1, old_, gap2, new_, gap3, TakeGap(s4, "@@").value);
    hide ParseHeader;
    assert line == "@@" + line[2..];
  }

  /** Exactly the lines that are made like a header are taken for one, and their numbers are read. */
  lemma HeadersAreRead(line: string)
    ensures ParseHeader(line).Some? <==> exists h: Header :: h.Good() && line == h.Text()
    ensures forall h: Header :: h.Good() && line == h.Text() ==>
              ParseHeader(line)
              == Some(Hunk(Atoi(h.old_.start), h.old_.Lines(), Atoi(h.new_.start), h.new_.Lines(), []))
  {
    hide ParseHeader, Header.Text, Header.Good, Numbers.Lines;
    forall h: Header | h.Good() && line == h.Text()
      ensures ParseHeader(line)
              == Some(Hunk(Atoi(h.old_.start), h.old_.Lines(), Atoi(h.new_.start), h.new_.Lines(), []))
    {
      HeaderTaken(h);
    }
    if ParseHeader(line).Some? {
      var h := TakenHeader(line);
      assert h.Good() && line == h.Text();
    }
  }

  // ---------- lines ----------

  lemma {:induction false} ParseOn(s: State, a: seq<string>, b: seq<string>)
    ensures ParseLines(s, a + b) == ParseLines(ParseLines(s, a), b)
    decreases |a|
  {
    if a == [] {
      assert a + b == b;
    } else {
      assert (a + b)[1..] == a[1..] + b;
      ParseOn(ParseLine(s, a[0]), a[1..], b);
    }
  }

  /** The patch with these lines in the middle of others. */
  function Amid(before: seq<string>, lines: seq<string>, after: seq<string>): string {
    Join(before + lines + after, NEWLINE)
  }

  ghost predicate Plain(before: seq<string>, lines: seq<string>, after: seq<string>) {
    NoNewlines(before) && NoNewlines(lines) && NoNewlines(after)
  }

  lemma AmidReads(before: seq<string>, lines: seq<string>, after: seq<string>)
    requires Plain(before, lines, after) && before + lines + after != []
    ensures var s := ParseLines(ParseLines(ParseLines(State([], None), before), lines), after);
            ParseResult(Amid(before, lines, after)) == if Flush(s) == [] then None else Some(Flush(s))
  {
    SplitJoin(before + lines + after);
    ParseOn(State([], None), before + lines, after);
    ParseOn(State([], None), before, lines);
  }

  /** Lines that every state reads alike can stand for one another. */
  lemma ReadsAlike(before: seq<string>, a: seq<string>, b: seq<string>, after: seq<string>)
    requires Plain(before, a, after) && Plain(before, b, after) && before + after != []
    requires forall s :: ParseLines(s, a) == ParseLines(s, b)
    ensures ParseResult(Amid(before, a, after)) == ParseResult(Amid(before, b, after))
  {
    hide ParseLines, ParseResult, Flush, Amid;
    AmidReads(before, a, after);
    AmidReads(before, b, after);
  }

  lemma OneLine(s: State, line: string)
    ensures ParseLines(s, [line]) == ParseLine(s, line)
  {
    assert [line][1..] == [];
  }

  /** Lines of no account, wherever they stand: remarks such as the missing newline at the end of a file,
      and names of files. */
  lemma RemarksAreSkipped(before: seq<string>, line: string, after: seq<string>)
    requires Plain(before, [line], after) && before + after != []
    requires "\\" <= line || "---" <= line || "+++" <= line
    ensures ParseResult(Amid(before, [line], after)) == ParseResult(Amid(before, [], after))
  {
    forall s
      ensures ParseLines(s, [line]) == ParseLines(s, [])
    {
      OneLine(s, line);
      assert line[0] != '@';
    }
    ReadsAlike(before, [line], [], after);
  }

  /** No header. */
  ghost predicate NoHeader(line: string) {
    forall h: Header :: h.Good() ==> line != h.Text()
  }

  /** A line without a mark of its own reads like the same line after a space: as context. */
  lemma BareLinesAreContext(before: seq<string>, line: string, after: seq<string>)
    requires Plain(before, [line], after) && before + after != []
    requires NoHeader(line) && (line == "" || line[0] !in [' ', '+', '-', '\\'])
    ensures ParseResult(Amid(before, [line], after)) == ParseResult(Amid(before, [" " + line], after))
  {
    HeadersAreRead(line);
    assert '\n' !in [line][0] && '\n' !in " " + line;
    forall s
      ensures ParseLines(s, [line]) == ParseLines(s, [" " + line])
    {
      OneLine(s, line);
      OneLine(s, " " + line);
      assert (" " + line)[0] == ' ' && (" " + line)[1..] == line;
    }
    ReadsAlike(before, [line], [" " + line], after);
  }

  lemma {:induction false} NothingOpens(lines: seq<string>)
    requires forall i :: 0 <= i < |lines| ==> NoHeader(lines[i])
    ensures ParseLines(State([], None), lines) == State([], None)
  {
    if lines != [] {
      HeadersAreRead(lines[0]);
      NothingOpens(lines[1..]);
    }
  }

  /** Whatever stands before the first header is skipped. */
  lemma PreambleIsSkipped(preamble: seq<string>, lines: seq<string>)
    requires Plain(preamble, lines, []) && lines != []
    requires forall i :: 0 <= i < |preamble| ==> NoHeader(preamble[i])
    ensures ParseResult(Join(preamble + lines, NEWLINE)) == ParseResult(Join(lines, NEWLINE))
  {
    NothingOpens(preamble);
    AmidReads(preamble, lines, []);
    AmidReads([], lines, []);
    assert preamble + lines + [] == preamble + lines && [] + lines + [] == lines;
  }
}
