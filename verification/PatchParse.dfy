/** Reading unified diffs, in the format of POSIX.1-2017 diff, section "Diff -u or -U Output Format". */
module PatchParse {
  import opened Prelude
  import opened TextLines
  import opened Patch

  // ---------- hunk headers ----------

  predicate IsDigit(c: char) {
    '0' <= c <= '9'
  }

  predicate IsSpace(c: char) {
    c == ' ' || c == '\t' || c == '\n' || c == '\r' || c as int == 12
  }

  function DigitRun(s: string): (n: nat)
    ensures n <= |s|
  {
    if s != "" && IsDigit(s[0]) then 1 + DigitRun(s[1..]) else 0
  }

  function SpaceRun(s: string): (n: nat)
    ensures n <= |s|
  {
    if s != "" && IsSpace(s[0]) then 1 + SpaceRun(s[1..]) else 0
  }

  function DigitValue(c: char): nat
    requires IsDigit(c)
  {
    c as int - '0' as int
  }

  function Value(digits: string): nat {
    if digits == "" then 0
    else if IsDigit(digits[|digits| - 1]) then Value(digits[..|digits| - 1]) * 10 + DigitValue(digits[|digits| - 1])
    else 0
  }

  type Number = n: nat | n <= MAX_INT

  /** strconv.Atoi with its range error dropped: too large a number reads as the largest int. */
  function Atoi(digits: string): Number {
    if Value(digits) > MAX_INT then MAX_INT else Value(digits)
  }

  /** One or more digits. */
  function TakeNumber(s: string): Option<(Number, string)> {
    var n := DigitRun(s);
    if n == 0 then None else Some((Atoi(s[..n]), s[n..]))
  }

  /** A number and an optional ",number", whose absence means one. */
  function TakeRange(s: string): Option<(Number, Number, string)> {
    match TakeNumber(s)
    case None => None
    case Some((start, rest)) =>
      if rest != "" && rest[0] == ',' then
        match TakeNumber(rest[1..])
        case None => None
        case Some((count, rest2)) => Some((start, count, rest2))
      else Some((start, 1, rest))
  }

  /** One or more spaces, then the given mark. */
  function TakeGap(s: string, mark: string): Option<string> {
    var n := SpaceRun(s);
    if n > 0 && HasPrefix(s[n..], mark) then Some(s[n + |mark|..]) else None
  }

  /** Space, mark, range. */
  function TakeMarked(s: string, mark: string): Option<(Number, Number, string)> {
    match TakeGap(s, mark)
    case None => None
    case Some(rest) => TakeRange(rest)
  }

  const AT := "@@"

  /** The header expression: "@@", a minus range, a plus range, "@@"; anything may follow. */
  function ParseHeader(line: string): Option<Hunk> {
    if !HasPrefix(line, AT) then None
    else match TakeMarked(line[2..], "-")
      case None => None
      case Some((oldStart, oldCount, s2)) =>
        match TakeMarked(s2, "+")
        case None => None
        case Some((newStart, newCount, s4)) =>
          if TakeGap(s4, AT).None? then None else Some(Hunk(oldStart, oldCount, newStart, newCount, []))
  }

  // ---------- lines ----------

  datatype State = State(hunks: seq<Hunk>, current: Option<Hunk>)

  function Flush(s: State): seq<Hunk> {
    if s.current.Some? then s.hunks + [s.current.value] else s.hunks
  }

  predicate IsFileHeader(line: string) {
    HasPrefix(line, "---") || HasPrefix(line, "+++")
  }

  /** The body line a patch line stands for; a backslash line stands for none. */
  function BodyLine(line: string): Option<DiffLine> {
    if line == "" then Some(DiffLine(Context, ""))
    else if line[0] == ' ' then Some(DiffLine(Context, line[1..]))
    else if line[0] == '+' then Some(DiffLine(Add, line[1..]))
    else if line[0] == '-' then Some(DiffLine(Delete, line[1..]))
    else if line[0] == '\\' then None
    else Some(DiffLine(Context, line))
  }

  function ParseLine(s: State, line: string): State {
    if IsFileHeader(line) then s
    else
      var header := ParseHeader(line);
      if header.Some? then State(Flush(s), header)
      else if s.current.None? then s
      else
        var body := BodyLine(line);
        if body.None? then s
        else s.(current := Some(s.current.value.(lines := s.current.value.lines + [body.value])))
  }

  function ParseLines(s: State, lines: seq<string>): State
    decreases |lines|
  {
    if lines == [] then s else ParseLines(ParseLine(s, lines[0]), lines[1..])
  }

  /** None: no hunks found. */
  function ParseResult(patch: string): Option<seq<Hunk>> {
    var hunks := Flush(ParseLines(State([], None), Split(patch)));
    if hunks == [] then None else Some(hunks)
  }

  method ParsePatch(patch: string) returns (r: Option<seq<Hunk>>)
    ensures r == ParseResult(patch)
  {
    var lines := Split(patch);
    var hunks: seq<Hunk> := [];
    var current: Option<Hunk> := None;
    for i := 0 to |lines|
      invariant ParseLines(State([], None), lines) == ParseLines(State(hunks, current), lines[i..])
    {
      var line := lines[i];
      assert lines[i..][0] == line && lines[i..][1..] == lines[i + 1..];
      if HasPrefix(line, "---") || HasPrefix(line, "+++") {
        continue;
      }
      var header := ParseHeader(line);
      if header.Some? {
        if current.Some? {
          hunks := hunks + [current.value];
        }
        current := header;
        continue;
      }
      if current.None? {
        continue;
      }
      if |line| == 0 {
        current := Some(current.value.(lines := current.value.lines + [DiffLine(Context, "")]));
        continue;
      }
      match line[0]
      case ' ' => current := Some(current.value.(lines := current.value.lines + [DiffLine(Context, line[1..])]));
      case '+' => current := Some(current.value.(lines := current.value.lines + [DiffLine(Add, line[1..])]));
      case '-' => current := Some(current.value.(lines := current.value.lines + [DiffLine(Delete, line[1..])]));
      case '\\' =>
      case _ => current := Some(current.value.(lines := current.value.lines + [DiffLine(Context, line)]));
    }
    if current.Some? {
      hunks := hunks + [current.value];
    }
    if |hunks| == 0 {
      return None;
    }
    return Some(hunks);
  }

  // ---------- printing ----------

  const DIGITS := "0123456789"

  function ShowNat(n: nat): string {
    if n < 10 then [DIGITS[n]] else ShowNat(n / 10) + [DIGITS[n % 10]]
  }

  /** A count of one may be left out. */
  function ShowRange(start: nat, count: nat, short: bool): string {
    ShowNat(start) + if short && count == 1 then "" else "," + ShowNat(count)
  }

  predicate Printable(h: Hunk) {
    h.oldStart >= 0 && h.oldCount >= 0 && h.newStart >= 0 && h.newCount >= 0
  }

  function ShowHeader(h: Hunk, short: bool): string
    requires Printable(h)
  {
    AT + " -" + ShowRange(h.oldStart, h.oldCount, short) + " +" + ShowRange(h.newStart, h.newCount, short) + " " + AT
  }

  function ShowLine(dl: DiffLine): string {
    (match dl.op case Context => " " case Add => "+" case Delete => "-") + dl.text
  }

  function ShowBody(dls: seq<DiffLine>): seq<string> {
    if dls == [] then [] else [ShowLine(dls[0])] + ShowBody(dls[1..])
  }

  function ShowHunks(hunks: seq<Hunk>, short: bool): seq<string>
    requires forall i :: 0 <= i < |hunks| ==> Printable(hunks[i])
  {
    if hunks == [] then [] else [ShowHeader(hunks[0], short)] + ShowBody(hunks[0].lines) + ShowHunks(hunks[1..], short)
  }

  /** The printed line would be taken for a file header. */
  predicate Ambiguous(dl: DiffLine) {
    (dl.op == Delete && HasPrefix(dl.text, "--")) || (dl.op == Add && HasPrefix(dl.text, "++"))
  }

  // ---------- parsing undoes printing ----------

  lemma {:induction false} ShowNatDigits(n: nat)
    ensures ShowNat(n) != "" && forall i :: 0 <= i < |ShowNat(n)| ==> IsDigit(ShowNat(n)[i])
    ensures Value(ShowNat(n)) == n
  {
    if n < 10 {
      assert [DIGITS[n]][..0] == "";
    } else {
      ShowNatDigits(n / 10);
      var s := ShowNat(n / 10);
      assert (s + [DIGITS[n % 10]])[..|s|] == s;
    }
  }

  lemma {:induction false} DigitRunStops(s: string, rest: string)
    requires forall i :: 0 <= i < |s| ==> IsDigit(s[i])
    requires rest == "" || !IsDigit(rest[0])
    ensures DigitRun(s + rest) == |s|
  {
    if s == "" {
      assert s + rest == rest;
    } else {
      assert (s + rest)[1..] == s[1..] + rest;
      DigitRunStops(s[1..], rest);
    }
  }

  lemma NumberReads(n: nat, rest: string)
    requires n <= MAX_INT && (rest == "" || !IsDigit(rest[0]))
    ensures TakeNumber(ShowNat(n) + rest) == Some((n, rest))
  {
    ShowNatDigits(n);
    DigitRunStops(ShowNat(n), rest);
    assert (ShowNat(n) + rest)[..|ShowNat(n)|] == ShowNat(n);
  }

  /** A range is read from its pieces. */
  lemma RangeFrom(s: string, start: nat, tail: string, count: nat, rest: string)
    requires TakeNumber(s) == Some((start, tail))
    requires if tail != "" && tail[0] == ',' then TakeNumber(tail[1..]) == Some((count, rest))
             else count == 1 && rest == tail
    ensures TakeRange(s) == Some((start, count, rest))
  {
  }

  lemma CommaTail(a: string, b: string, rest: string)
    ensures a + ("," + b) + rest == a + ("," + (b + rest))
    ensures ("," + (b + rest))[0] == ',' && ("," + (b + rest))[1..] == b + rest
  {
  }

  lemma RangeReads(start: nat, count: nat, short: bool, rest: string)
    requires start <= MAX_INT && count <= MAX_INT
    requires rest != "" && !IsDigit(rest[0]) && rest[0] != ','
    ensures TakeRange(ShowRange(start, count, short) + rest) == Some((start, count, rest))
  {
    if short && count == 1 {
      NumberReads(start, rest);
      assert ShowNat(start) + "" == ShowNat(start);
      RangeFrom(ShowNat(start) + rest, start, rest, 1, rest);
    } else {
      var tail := "," + (ShowNat(count) + rest);
      CommaTail(ShowNat(start), ShowNat(count), rest);
      NumberReads(start, tail);
      NumberReads(count, rest);
      RangeFrom(ShowNat(start) + tail, start, tail, count, rest);
    }
  }

  lemma GapReads(mark: string, rest: string)
    requires mark != "" && !IsSpace(mark[0])
    ensures TakeGap(" " + mark + rest, mark) == Some(rest)
  {
    var s := " " + mark + rest;
    assert s[1..] == mark + rest;
    assert SpaceRun(s[1..]) == 0;
    assert SpaceRun(s) == 1;
    assert s[1 + |mark|..] == rest;
  }

  lemma MarkedReads(mark: string, start: nat, count: nat, short: bool, rest: string)
    requires mark != "" && !IsSpace(mark[0])
    requires start <= MAX_INT && count <= MAX_INT
    requires rest != "" && !IsDigit(rest[0]) && rest[0] != ','
    ensures TakeMarked(" " + mark + (ShowRange(start, count, short) + rest), mark) == Some((start, count, rest))
  {
    GapReads(mark, ShowRange(start, count, short) + rest);
    RangeReads(start, count, short, rest);
  }

  /** A printed header is read back, whatever section heading follows it. */
  lemma HeaderReads(h: Hunk, short: bool, heading: string)
    requires Printable(h)
    ensures ParseHeader(ShowHeader(h, short) + heading) == Some(h.(lines := []))
    ensures !IsFileHeader(ShowHeader(h, short) + heading)
  {
    var end := " " + AT + heading;
    var new_ := " " + "+" + (ShowRange(h.newStart, h.newCount, short) + end);
    var old_ := " " + "-" + (ShowRange(h.oldStart, h.oldCount, short) + new_);
    HeaderText(h, short, heading);
    MarkedReads("-", h.oldStart, h.oldCount, short, new_);
    MarkedReads("+", h.newStart, h.newCount, short, end);
    GapReads(AT, heading);
  }

  lemma HeaderText(h: Hunk, short: bool, heading: string)
    requires Printable(h)
    ensures var line := ShowHeader(h, short) + heading;
            && HasPrefix(line, AT) && line[0] == '@'
            && line[2..]
               == " " + "-"
                  + (ShowRange(h.oldStart, h.oldCount, short)
                     + (" " + "+" + (ShowRange(h.newStart, h.newCount, short) + (" " + AT + heading))))
  {
    var line := ShowHeader(h, short) + heading;
    assert line
           == AT + (" " + "-"
                    + (ShowRange(h.oldStart, h.oldCount, short)
                       + (" " + "+" + (ShowRange(h.newStart, h.newCount, short) + (" " + AT + heading)))));
  }

  /** The body lines that are not taken for file headers. */
  function Kept(dls: seq<DiffLine>): seq<DiffLine> {
    if dls == [] then [] else (if Ambiguous(dls[0]) then [] else [dls[0]]) + Kept(dls[1..])
  }

  function KeptHunks(hunks: seq<Hunk>): seq<Hunk> {
    if hunks == [] then [] else [hunks[0].(lines := Kept(hunks[0].lines))] + KeptHunks(hunks[1..])
  }

  /** The open hunk with more lines. */
  function More(s: State, dls: seq<DiffLine>): State
    requires s.current.Some?
  {
    s.(current := Some(s.current.value.(lines := s.current.value.lines + dls)))
  }

  lemma BodyReads(s: State, dl: DiffLine)
    requires s.current.Some?
    ensures ParseLine(s, ShowLine(dl)) == if Ambiguous(dl) then s else More(s, [dl])
  {
    var line := ShowLine(dl);
    assert line[1..] == dl.text;
    assert line[0] != '@';
    assert dl.op == Delete ==> (IsFileHeader(line) <==> HasPrefix(line[1..], "--"));
    assert dl.op == Add ==> (IsFileHeader(line) <==> HasPrefix(line[1..], "++"));
  }

  lemma {:induction false} BodiesRead(s: State, dls: seq<DiffLine>, rest: seq<string>)
    requires s.current.Some?
    ensures ParseLines(s, ShowBody(dls) + rest) == ParseLines(More(s, Kept(dls)), rest)
    decreases |dls|
  {
    if dls == [] {
      assert ShowBody(dls) + rest == rest;
      assert s.current.value.lines + [] == s.current.value.lines;
    } else {
      var all := ShowBody(dls) + rest;
      assert all[0] == ShowLine(dls[0]) && all[1..] == ShowBody(dls[1..]) + rest;
      BodyReads(s, dls[0]);
      BodiesRead(ParseLine(s, all[0]), dls[1..], rest);
      assert [] + Kept(dls[1..]) == Kept(dls[1..]);
      assert s.current.value.lines + [dls[0]] + Kept(dls[1..]) == s.current.value.lines + ([dls[0]] + Kept(dls[1..]));
    }
  }

  ghost predicate AllPrintable(hunks: seq<Hunk>) {
    forall i :: 0 <= i < |hunks| ==> Printable(hunks[i])
  }

  ghost predicate Clear(hunks: seq<Hunk>) {
    forall i, j :: 0 <= i < |hunks| && 0 <= j < |hunks[i].lines| ==> !Ambiguous(hunks[i].lines[j])
  }

  lemma {:induction false} KeptAll(dls: seq<DiffLine>)
    ensures |Kept(dls)| <= |dls|
    ensures Kept(dls) == dls <==> forall j :: 0 <= j < |dls| ==> !Ambiguous(dls[j])
    ensures Kept(dls) != dls ==> |Kept(dls)| < |dls|
  {
    if dls != [] {
      KeptAll(dls[1..]);
      assert forall j :: 1 <= j < |dls| ==> dls[j] == dls[1..][j - 1];
    }
  }

  lemma {:induction false} KeptHunksAll(hunks: seq<Hunk>)
    ensures |KeptHunks(hunks)| == |hunks|
    ensures KeptHunks(hunks) == hunks <==> Clear(hunks)
  {
    if hunks != [] {
      KeptAll(hunks[0].lines);
      KeptHunksAll(hunks[1..]);
      var all := KeptHunks(hunks);
      assert all[1..] == KeptHunks(hunks[1..]);
      assert forall i :: 1 <= i < |hunks| ==> hunks[i] == hunks[1..][i - 1];
      if Clear(hunks) {
        assert hunks == [hunks[0]] + hunks[1..];
      } else if Clear(hunks[1..]) {
        assert all[0] != hunks[0];
      }
    }
  }

  lemma ParseCons(s: State, line: string, rest: seq<string>)
    ensures ParseLines(s, [line] + rest) == ParseLines(ParseLine(s, line), rest)
  {
    assert ([line] + rest)[1..] == rest;
  }

  lemma HeaderOpens(s: State, h: Hunk, short: bool)
    requires Printable(h)
    ensures ParseLine(s, ShowHeader(h, short)) == State(Flush(s), Some(h.(lines := [])))
  {
    HeaderReads(h, short, "");
    assert ShowHeader(h, short) + "" == ShowHeader(h, short);
  }

  lemma BodyAfterHeader(s: State, header: string, h: Hunk, body: seq<string>, rest: seq<string>)
    requires ParseLine(s, header) == State(Flush(s), Some(h.(lines := []))) && body == ShowBody(h.lines)
    ensures ParseLines(s, [header] + body + rest) == ParseLines(State(Flush(s), Some(h.(lines := Kept(h.lines)))), rest)
  {
    var begun := ParseLine(s, header);
    ParseCons(s, header, body + rest);
    assert [header] + (body + rest) == [header] + body + rest;
    BodiesRead(begun, h.lines, rest);
    assert More(begun, Kept(h.lines)) == State(Flush(s), Some(h.(lines := Kept(h.lines)))) by {
      assert [] + Kept(h.lines) == Kept(h.lines);
    }
  }

  /** One printed hunk closes the open hunk and becomes the open one. */
  lemma HunkReads(s: State, h: Hunk, short: bool, rest: seq<string>)
    requires Printable(h)
    ensures ParseLines(s, [ShowHeader(h, short)] + ShowBody(h.lines) + rest)
            == ParseLines(State(Flush(s), Some(h.(lines := Kept(h.lines)))), rest)
  {
    HeaderOpens(s, h, short);
    BodyAfterHeader(s, ShowHeader(h, short), h, ShowBody(h.lines), rest);
  }

  /** The state after printed hunks: the last one is open, the others are closed. */
  function AfterHunks(s: State, hunks: seq<Hunk>): State {
    if hunks == [] then s else State(Flush(s) + hunks[..|hunks| - 1], Some(hunks[|hunks| - 1]))
  }

  lemma {:induction false} HunksRead(s: State, hunks: seq<Hunk>, short: bool)
    requires AllPrintable(hunks)
    ensures ParseLines(s, ShowHunks(hunks, short)) == AfterHunks(s, KeptHunks(hunks))
    decreases |hunks|
  {
    if hunks != [] {
      var kept := hunks[0].(lines := Kept(hunks[0].lines));
      assert forall i :: 0 <= i < |hunks[1..]| ==> hunks[1..][i] == hunks[i + 1];
      HunkReads(s, hunks[0], short, ShowHunks(hunks[1..], short));
      HunksRead(State(Flush(s), Some(kept)), hunks[1..], short);
      AfterCons(s, KeptHunks(hunks));
      assert KeptHunks(hunks)[1..] == KeptHunks(hunks[1..]);
    }
  }

  lemma AfterCons(s: State, hunks: seq<Hunk>)
    requires hunks != []
    ensures AfterHunks(State(Flush(s), Some(hunks[0])), hunks[1..]) == AfterHunks(s, hunks)
  {
    if |hunks| > 1 {
      assert Flush(s) + [hunks[0]] + hunks[1..][..|hunks| - 2] == Flush(s) + hunks[..|hunks| - 1];
    } else {
      assert Flush(s) + hunks[..0] == Flush(s);
    }
  }

  lemma FlushAfter(hunks: seq<Hunk>)
    requires hunks != []
    ensures Flush(AfterHunks(State([], None), hunks)) == hunks
  {
  }

  lemma {:induction false} ShowBodyPlain(dls: seq<DiffLine>)
    requires forall j :: 0 <= j < |dls| ==> '\n' !in dls[j].text
    ensures NoNewlines(ShowBody(dls))
  {
    if dls != [] {
      ShowBodyPlain(dls[1..]);
    }
  }

  lemma NumberPlain(n: nat)
    ensures '\n' !in ShowNat(n)
  {
    ShowNatDigits(n);
  }

  lemma {:induction false} ShowHunksPlain(hunks: seq<Hunk>, short: bool)
    requires AllPrintable(hunks) && PlainTexts(hunks)
    ensures NoNewlines(ShowHunks(hunks, short))
    decreases |hunks|
  {
    if hunks != [] {
      var h := hunks[0];
      NumberPlain(h.oldStart); NumberPlain(h.oldCount); NumberPlain(h.newStart); NumberPlain(h.newCount);
      ShowBodyPlain(h.lines);
      assert forall i :: 0 <= i < |hunks[1..]| ==> hunks[1..][i] == hunks[i + 1];
      ShowHunksPlain(hunks[1..], short);
    }
  }

  /** Reading what was printed gives the same hunks, header numbers included and whether or not
      counts of one are left out, but for the lines printed like file headers: the hunks come back
      whole exactly when there is no such line. */
  lemma ParseUndoesPrint(hunks: seq<Hunk>, short: bool)
    requires hunks != [] && AllPrintable(hunks) && PlainTexts(hunks)
    ensures ParseResult(Join(ShowHunks(hunks, short), NEWLINE)) == Some(KeptHunks(hunks))
    ensures ParseResult(Join(ShowHunks(hunks, short), NEWLINE)) == Some(hunks) <==> Clear(hunks)
  {
    var lines := ShowHunks(hunks, short);
    ShowHunksPlain(hunks, short);
    SplitJoin(lines);
    HunksRead(State([], None), hunks, short);
    KeptHunksAll(hunks);
    FlushAfter(KeptHunks(hunks));
  }

  lemma {:induction false} ParseAppend(s: State, lines: seq<string>, line: string)
    ensures ParseLines(s, lines + [line]) == ParseLine(ParseLines(s, lines), line)
    decreases |lines|
  {
    if lines == [] {
      assert lines + [line] == [line] && [line][1..] == [];
    } else {
      assert (lines + [line])[1..] == lines[1..] + [line];
      ParseAppend(ParseLine(s, lines[0]), lines[1..], line);
    }
  }

  function AddBlank(hunks: seq<Hunk>): seq<Hunk>
    requires hunks != []
  {
    var last := hunks[|hunks| - 1];
    hunks[..|hunks| - 1] + [last.(lines := last.lines + [DiffLine(Context, "")])]
  }

  lemma BlankReads(s: State)
    requires s.current.Some?
    ensures ParseLine(s, "")
            == s.(current := Some(s.current.value.(lines := s.current.value.lines + [DiffLine(Context, "")])))
  {
    assert ParseHeader("").None?;
  }

  lemma BlankAfter(hunks: seq<Hunk>)
    requires hunks != []
    ensures Flush(ParseLine(AfterHunks(State([], None), hunks), "")) == AddBlank(hunks)
  {
    BlankReads(AfterHunks(State([], None), hunks));
  }

  lemma SplitFinalNewline(lines: seq<string>)
    requires lines != [] && NoNewlines(lines)
    ensures Split(Join(lines, NEWLINE) + NEWLINE) == lines + [""]
  {
    var all := lines + [""];
    JoinLast(all);
    assert all[..|lines|] == lines;
    SplitJoin(all);
  }

  /** A patch that ends with a newline reads differently: its last hunk gains an empty context line. */
  lemma FinalNewlineAddsBlank(hunks: seq<Hunk>, short: bool)
    requires hunks != [] && AllPrintable(hunks) && PlainTexts(hunks)
    ensures KeptHunks(hunks) != []
    ensures ParseResult(Join(ShowHunks(hunks, short), NEWLINE) + NEWLINE) == Some(AddBlank(KeptHunks(hunks)))
  {
    KeptHunksAll(hunks);
    var lines := ShowHunks(hunks, short);
    ShowHunksPlain(hunks, short);
    SplitFinalNewline(lines);
    ParseAppend(State([], None), lines, "");
    HunksRead(State([], None), hunks, short);
    BlankAfter(KeptHunks(hunks));
  }

  // ---------- a header number that wraps ----------

  const NEAR_LINES := [DiffLine(Context, "a")] + [DiffLine(Add, "x")] + [DiffLine(Add, "y")]

  const NEAR := Hunk(1, 1, 1, 3, NEAR_LINES)

  const BEYOND := Hunk(MAX_INT, 1, 1, 1, [DiffLine(Context, "b")])

  const FAR := [NEAR] + [BEYOND]

  lemma {:induction false} SidesSnoc(dls: seq<DiffLine>, dl: DiffLine)
    ensures OldSide(dls + [dl]) == OldSide(dls) + if dl.op == Add then [] else [dl.text]
    ensures NewSide(dls + [dl]) == NewSide(dls) + if dl.op == Delete then [] else [dl.text]
  {
    if dls == [] {
      assert dls + [dl] == [dl] && [dl][1..] == [];
    } else {
      SidesSnoc(dls[1..], dl);
      assert (dls + [dl])[1..] == dls[1..] + [dl];
    }
  }

  lemma FarSides()
    ensures OldSide(NEAR.lines) == ["a"] && |NewSide(NEAR.lines)| == 3 && OldSide(BEYOND.lines) == ["b"]
  {
    SidesSnoc([], DiffLine(Context, "a"));
    SidesSnoc([DiffLine(Context, "a")], DiffLine(Add, "x"));
    SidesSnoc([DiffLine(Context, "a")] + [DiffLine(Add, "x")], DiffLine(Add, "y"));
    SidesSnoc([], DiffLine(Context, "b"));
    assert [] + [DiffLine(Context, "a")] == [DiffLine(Context, "a")];
    assert [] + [DiffLine(Context, "b")] == [DiffLine(Context, "b")];
  }

  lemma TwoHunks(orig: seq<string>, h: Hunk, g: Hunk)
    requires h.oldStart >= 0 && g.oldStart >= 0 && Start(h.oldStart) + |OldSide(h.lines)| <= Start(g.oldStart)
    requires |orig| + |h.lines| + |g.lines| < MAX_INT && FitsOne(orig, h) && !FitsOne(orig, g)
    ensures Placed([h] + [g], 0) && Held(|orig|, [h] + [g])
    ensures FirstMisfit(orig, [h] + [g]) == 1 && Net(([h] + [g])[..1]) == Growth(h)
  {
    hide OldSide, NewSide, FitsOne;
    var hunks := [h] + [g];
    assert hunks[1..] == [g] && [g][1..] == [] && hunks[..1] == [h] && [h][1..] == [];
    assert Net([]) == 0 && Net([h]) == Growth(h);
    assert LineCount([]) == 0 && LineCount([g]) == |g.lines|;
    assert FirstMisfit(orig, [g]) == 0;
    assert Placed([], Start(g.oldStart) + |OldSide(g.lines)|);
    assert Placed([g], Start(h.oldStart) + |OldSide(h.lines)|);
  }

  lemma FarPrints()
    ensures AllPrintable(FAR) && PlainTexts(FAR) && Clear(FAR)
  {
    hide OldSide, NewSide;
  }

  lemma FarFacts(orig: seq<string>)
    requires orig == ["a"]
    ensures Placed(FAR, 0) && Held(|orig|, FAR) && FirstMisfit(orig, FAR) == 1 && Net(FAR[..1]) == 2
  {
    FarSides();
    assert FitsOne(orig, NEAR) && !FitsOne(orig, BEYOND);
    TwoHunks(orig, NEAR, BEYOND);
  }

  /** Two hunks in order, each with an old side, that the reader gives as printed: applying them runs
      out of range, because the second start and the growth of the first pass 2^63 - 1. */
  lemma FarHunkCrashes(original: string, short: bool)
    requires Lines(original) == ["a"]
    ensures ParseResult(Join(ShowHunks(FAR, short), NEWLINE)) == Some(FAR)
    ensures Placed(FAR, 0) && (forall k :: 0 <= k < |FAR| ==> OldSide(FAR[k].lines) != [])
    ensures ApplyResult(original, FAR).Crashed?
  {
    hide OldSide, NewSide, Placed, Held, FirstMisfit, FitsOne, Net, ParseResult, ShowHunks, AllPrintable, PlainTexts,
         Clear, Lines, ApplyResult, KeptHunks, Join;
    FarFacts(Lines(original));
    FarSides();
    FarPrints();
    ParseUndoesPrint(FAR, short);
    CrashesExactly(original, FAR);
  }
}
