/** Splitting text into lines and back, as the file tools do it. */
module TextLines {
  import opened Prelude

  const NEWLINE := "\n"

  /** strings.Split(s, "\n"): always at least one piece. */
  function Split(s: string): (r: seq<string>)
    ensures r != []
    ensures forall i :: 0 <= i < |r| ==> '\n' !in r[i]
  {
    if s == "" then [""]
    else
      var r := Split(s[1..]);
      if s[0] == '\n' then [""] + r else [[s[0]] + r[0]] + r[1..]
  }

  ghost predicate NoNewlines(ls: seq<string>) {
    forall i :: 0 <= i < |ls| ==> '\n' !in ls[i]
  }

  lemma {:induction false} JoinSplit(s: string)
    ensures Join(Split(s), NEWLINE) == s
  {
    if s != "" {
      JoinSplit(s[1..]);
      var r := Split(s[1..]);
      if s[0] != '\n' && |r| > 1 {
        assert ([[s[0]] + r[0]] + r[1..])[1..] == r[1..];
      }
    }
  }

  lemma {:induction false} SplitPrefix(l: string, rest: string)
    requires '\n' !in l
    ensures Split(l + NEWLINE + rest) == [l] + Split(rest)
  {
    var s := l + NEWLINE + rest;
    if l == "" {
      assert s[1..] == rest;
    } else {
      assert s[1..] == l[1..] + NEWLINE + rest;
      SplitPrefix(l[1..], rest);
      assert l[0] in l && [l[0]] + l[1..] == l;
    }
  }

  lemma {:induction false} SplitOne(l: string)
    requires '\n' !in l
    ensures Split(l) == [l]
  {
    if l != "" {
      SplitOne(l[1..]);
      assert l[0] in l && [l[0]] + l[1..] == l;
    }
  }

  lemma {:induction false} SplitJoin(ls: seq<string>)
    requires ls != [] && NoNewlines(ls)
    ensures Split(Join(ls, NEWLINE)) == ls
  {
    if |ls| == 1 {
      SplitOne(ls[0]);
    } else {
      SplitJoin(ls[1..]);
      SplitPrefix(ls[0], Join(ls[1..], NEWLINE));
    }
  }

  predicate EndsWithNewline(s: string) {
    s != "" && s[|s| - 1] == '\n'
  }

  /** The lines of a text; a final newline does not open another line. */
  function Lines(text: string): seq<string> {
    if text == "" then []
    else
      var ls := Split(text);
      if ls[|ls| - 1] == "" && EndsWithNewline(text) then ls[..|ls| - 1] else ls
  }

  function Render(ls: seq<string>): string {
    if ls == [] then "" else Join(ls, NEWLINE) + NEWLINE
  }

  /** Text as Render leaves it: every line ended. */
  function Normalize(text: string): string {
    if text == "" || EndsWithNewline(text) then text else text + NEWLINE
  }

  lemma {:induction false} JoinLast(ls: seq<string>)
    requires |ls| > 1 && ls[|ls| - 1] == ""
    ensures Join(ls, NEWLINE) == Join(ls[..|ls| - 1], NEWLINE) + NEWLINE
  {
    if |ls| > 2 {
      JoinLast(ls[1..]);
      assert ls[1..][..|ls| - 2] == ls[..|ls| - 1][1..];
    }
  }

  lemma {:induction false} LastPiece(s: string)
    ensures Split(s)[|Split(s)| - 1] == "" <==> s == "" || EndsWithNewline(s)
    ensures EndsWithNewline(s) ==> |Split(s)| > 1
  {
    if |s| > 1 {
      LastPiece(s[1..]);
    }
  }

  lemma RenderLines(text: string)
    ensures Render(Lines(text)) == Normalize(text)
  {
    JoinSplit(text);
    LastPiece(text);
    if EndsWithNewline(text) {
      JoinLast(Split(text));
    }
  }

  lemma LinesRender(ls: seq<string>)
    requires NoNewlines(ls)
    ensures Lines(Render(ls)) == ls
  {
    if ls != [] {
      var all := ls + [""];
      JoinLast(all);
      assert all[..|ls|] == ls;
      SplitJoin(all);
    }
  }

  lemma LinesHaveNoNewlines(text: string)
    ensures NoNewlines(Lines(text))
  {
  }
}
