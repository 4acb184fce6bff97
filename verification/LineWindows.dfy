/** Reading a file by windows of lines. */
module LineWindows {
  import opened Prelude
  import opened TextLines

  /** Crashed is a slice bound out of range. */
  datatype Page = Page(content: string, truncated: bool, total: nat) | Crashed

  /** The file's lines, as the line reader counts them. */
  function FileLines(content: string): seq<string> {
    var ls := Split(content);
    if ls[|ls| - 1] == "" then ls[..|ls| - 1] else ls
  }

  /** The page for the given parameters, of which -1 means absent. */
  function PageAt(content: string, offsetLines: int, limitLines: int): Page {
    var lines := FileLines(content);
    var offset := if offsetLines >= 0 then offsetLines else 1;
    var limit := if limitLines >= 0 then limitLines else |lines|;
    var start := if offset - 1 < 0 then 0 else offset - 1;
    if start >= |lines| then Page("", false, |lines|)
    else
      var sum := Wrap(start + limit);
      var end := if sum > |lines| then |lines| else sum;
      if end < start then Crashed
      else Page(Join(lines[start..end], NEWLINE), end < |lines|, |lines|)
  }

  function Take(lines: seq<string>, n: nat): seq<string> {
    if n <= |lines| then lines[..n] else lines
  }

  function Drop(lines: seq<string>, n: nat): seq<string> {
    if n <= |lines| then lines[n..] else []
  }

  /** A page is the lines from offset on, at most limit of them, and says whether more follow. */
  lemma PageShowsWindow(content: string, offset: nat, limit: nat)
    requires 1 <= offset <= MAX_INT && limit <= MAX_INT
    ensures var lines, page := FileLines(content), PageAt(content, offset, limit);
            && (page.Crashed? <==> offset <= |lines| && offset - 1 + limit > MAX_INT)
            && (page.Page? ==>
                page == Page(Join(Take(Drop(lines, offset - 1), limit), NEWLINE), offset - 1 + limit < |lines|,
                             |lines|))
  {
    var lines := FileLines(content);
    if offset <= |lines| {
      var from := offset - 1;
      assert from + limit <= |lines| ==> lines[from..from + limit] == Take(lines[from..], limit);
      assert from + limit > |lines| ==> lines[from..|lines|] == Take(lines[from..], limit);
    } else {
      assert Take(Drop(lines, offset - 1), limit) == [];
    }
  }

  /** Without an offset, or with offset zero, the page is that of the first line on; without a limit
      it is every line from the offset on, and says that no more follow. */
  lemma AbsentParameters(content: string, offset: int, limit: int)
    requires offset <= MAX_INT && limit <= MAX_INT
    ensures offset < 1 ==> PageAt(content, offset, limit) == PageAt(content, 1, limit)
    ensures var lines, page := FileLines(content), PageAt(content, offset, limit);
            var first := if offset < 1 then 1 else offset;
            limit < 0 && |lines| <= MAX_INT ==>
              && (page.Crashed? <==> first <= |lines| && first - 1 + |lines| > MAX_INT)
              && (page.Page? ==> page == Page(Join(Drop(lines, first - 1), NEWLINE), false, |lines|))
  {
    var lines, first := FileLines(content), if offset < 1 then 1 else offset;
    hide FileLines;
    if first <= |lines| {
      assert lines[first - 1..|lines|] == lines[first - 1..];
    }
  }

  /** Follows the pages from a line offset on, by a limit, for as long as they say more follows;
      fuel bounds the number of requests. */
  function Follow(content: string, offset: nat, limit: nat, fuel: nat): (r: Option<seq<string>>)
    decreases fuel
  {
    if fuel == 0 then None
    else
      var page := PageAt(content, offset, limit);
      if page.Crashed? then None
      else if !page.truncated then Some([page.content])
      else
        Before(page.content, Follow(content, offset + limit, limit, fuel - 1))
  }

  function Before(first: string, rest: Option<seq<string>>): Option<seq<string>> {
    if rest.None? then None else Some([first] + rest.value)
  }

  /** Consecutive windows of limit lines. */
  function Windows(lines: seq<string>, limit: nat): seq<seq<string>>
    requires limit > 0
  {
    if |lines| <= limit then [lines] else [lines[..limit]] + Windows(lines[limit..], limit)
  }

  function Concat(windows: seq<seq<string>>): seq<string> {
    if windows == [] then [] else windows[0] + Concat(windows[1..])
  }

  function Joined(windows: seq<seq<string>>): seq<string> {
    if windows == [] then [] else [Join(windows[0], NEWLINE)] + Joined(windows[1..])
  }

  /** The windows are disjoint and cover the lines in order. */
  lemma {:induction false} WindowsTile(lines: seq<string>, limit: nat)
    requires limit > 0
    ensures Concat(Windows(lines, limit)) == lines
    ensures |lines| > limit ==> forall w :: w in Windows(lines, limit) ==> w != []
  {
    if |lines| > limit {
      var rest := Windows(lines[limit..], limit);
      WindowsTile(lines[limit..], limit);
      assert Windows(lines, limit)[1..] == rest;
      if |lines[limit..]| <= limit {
        assert rest == [lines[limit..]];
      }
    } else {
      assert Windows(lines, limit)[1..] == [];
    }
  }

  /** Where the last of the consecutive windows starts. */
  function LastStart(count: nat, limit: nat): nat
    requires limit > 0
  {
    if count <= limit then 0 else limit + LastStart(count - limit, limit)
  }

  /** The sum that bounds the last window, from done lines on, is a 64-bit integer. */
  predicate LastFits(count: nat, done: nat, limit: nat)
    requires limit > 0 && done <= count
  {
    done + LastStart(count - done, limit) + limit <= MAX_INT
  }

  lemma PageHere(content: string, lines: seq<string>, done: nat, limit: nat, page: Page)
    requires lines == FileLines(content) && done <= |lines| <= MAX_INT && limit <= MAX_INT
    requires done < |lines| || lines == []
    requires page == Page(Join(Take(lines[done..], limit), NEWLINE), done + limit < |lines|, |lines|)
    ensures if done + limit <= MAX_INT then PageAt(content, done + 1, limit) == page
            else PageAt(content, done + 1, limit).Crashed?
  {
    if done < MAX_INT {
      PageShowsWindow(content, done + 1, limit);
    }
  }

  lemma FollowStep(content: string, offset: nat, limit: nat, fuel: nat, page: Page)
    requires fuel > 0 && page == PageAt(content, offset, limit)
    ensures Follow(content, offset, limit, fuel)
            == if page.Crashed? then None
               else if !page.truncated then Some([page.content])
               else Before(page.content, Follow(content, offset + limit, limit, fuel - 1))
  {
  }

  lemma LastFitsStep(count: nat, done: nat, limit: nat)
    requires limit > 0 && done <= count
    ensures count - done <= limit ==> (LastFits(count, done, limit) <==> done + limit <= MAX_INT)
    ensures count - done > limit ==> (LastFits(count, done, limit) <==> LastFits(count, done + limit, limit))
  {
  }

  ghost predicate FollowsFrom(content: string, lines: seq<string>, done: nat, limit: nat, r: Option<seq<string>>)
    requires limit > 0 && done <= |lines|
  {
    r == if LastFits(|lines|, done, limit) then Some(Joined(Windows(lines[done..], limit))) else None
  }

  lemma {:induction false} FollowWindows(content: string, lines: seq<string>, done: nat, limit: nat, fuel: nat)
    requires lines == FileLines(content)
    requires 0 < limit <= MAX_INT && done <= |lines| <= MAX_INT
    requires done < |lines| || lines == []
    requires fuel > |lines| - done
    ensures FollowsFrom(content, lines, done, limit, Follow(content, done + 1, limit, fuel))
    decreases fuel
  {
    hide PageAt, FileLines, Follow, Windows, Joined, Join, Take, Before, LastFits, LastStart;
    var left := lines[done..];
    var page := Page(Join(Take(left, limit), NEWLINE), done + limit < |lines|, |lines|);
    PageHere(content, lines, done, limit, page);
    FollowStep(content, done + 1, limit, fuel, PageAt(content, done + 1, limit));
    LastFitsStep(|lines|, done, limit);
    if |left| <= limit {
      LastWindow(left, limit);
    } else {
      DropTwice(lines, done, limit);
      FollowWindows(content, lines, done + limit, limit, fuel - 1);
      assert done + 1 + limit == done + limit + 1;
      var rest := Follow(content, done + 1 + limit, limit, fuel - 1);
      if rest.Some? {
        MoreWindows(left, limit, rest);
      }
      BeforeNone(page.content);
    }
  }

  lemma BeforeNone(first: string)
    ensures Before(first, None) == None
  {
  }

  lemma DropTwice(lines: seq<string>, a: nat, b: nat)
    requires a + b <= |lines|
    ensures lines[a..][b..] == lines[a + b..]
  {
  }

  lemma LastWindow(left: seq<string>, limit: nat)
    requires 0 < limit && |left| <= limit
    ensures Joined(Windows(left, limit)) == [Join(Take(left, limit), NEWLINE)]
  {
    assert Take(left, limit) == left;
    JoinedOne(left);
  }

  lemma MoreWindows(left: seq<string>, limit: nat, rest: Option<seq<string>>)
    requires 0 < limit < |left| && rest == Some(Joined(Windows(left[limit..], limit)))
    ensures Before(Join(Take(left, limit), NEWLINE), rest) == Some(Joined(Windows(left, limit)))
  {
    JoinedCons(left[..limit], Windows(left[limit..], limit));
  }

  lemma JoinedOne(window: seq<string>)
    ensures Joined([window]) == [Join(window, NEWLINE)]
  {
  }

  lemma JoinedCons(window: seq<string>, rest: seq<seq<string>>)
    ensures Joined([window] + rest) == [Join(window, NEWLINE)] + Joined(rest)
  {
  }

  lemma {:induction false} JoinAppend(a: seq<string>, b: seq<string>)
    requires a != [] && b != []
    ensures Join(a + b, NEWLINE) == Join(a, NEWLINE) + NEWLINE + Join(b, NEWLINE)
  {
    if |a| == 1 {
      assert (a + b)[1..] == b;
    } else {
      assert (a + b)[1..] == a[1..] + b;
      JoinAppend(a[1..], b);
    }
  }

  lemma {:induction false} JoinJoined(lines: seq<string>, limit: nat)
    requires limit > 0
    ensures Join(Joined(Windows(lines, limit)), NEWLINE) == Join(lines, NEWLINE)
  {
    if |lines| > limit {
      var rest := Windows(lines[limit..], limit);
      assert Windows(lines, limit)[1..] == rest;
      JoinJoined(lines[limit..], limit);
      JoinAppend(lines[..limit], lines[limit..]);
      assert lines[..limit] + lines[limit..] == lines;
      var all := Joined(Windows(lines, limit));
      assert all[1..] == Joined(rest) && Joined(rest) != [];
    } else {
      assert Windows(lines, limit)[1..] == [];
    }
  }

  /** Content without its final newline, if it has one. */
  function Unended(content: string): string {
    if EndsWithNewline(content) then content[..|content| - 1] else content
  }

  lemma JoinFileLines(content: string)
    ensures Join(FileLines(content), NEWLINE) == Unended(content)
  {
    JoinSplit(content);
    LastPiece(content);
    var ls := Split(content);
    if EndsWithNewline(content) {
      JoinLast(ls);
    } else if content == "" {
      assert ls[..|ls| - 1] == [];
    }
  }

  /** Following a file by any positive limit reaches its end exactly when the last window's bound is a
      64-bit integer, as it is for a limit that covers the file; then each line is visited once and in
      order, and joining the pages gives the file back up to its final newline. */
  lemma PagesRestore(content: string, limit: nat, fuel: nat)
    requires 0 < limit <= MAX_INT && |FileLines(content)| <= MAX_INT && fuel > |FileLines(content)|
    ensures var lines, windows := FileLines(content), Windows(FileLines(content), limit);
            && Concat(windows) == lines && Join(Joined(windows), NEWLINE) == Unended(content)
            && Follow(content, 1, limit, fuel) == (if LastFits(|lines|, 0, limit) then Some(Joined(windows)) else None)
            && (|lines| <= limit || |lines| + limit <= MAX_INT ==> LastFits(|lines|, 0, limit))
  {
    var lines := FileLines(content);
    WindowsTile(lines, limit);
    FollowWindows(content, lines, 0, limit, fuel);
    assert lines[0..] == lines;
    LastStartBelow(|lines|, limit);
    JoinJoined(lines, limit);
    JoinFileLines(content);
  }

  lemma {:induction false} LastStartBelow(count: nat, limit: nat)
    requires limit > 0
    ensures LastStart(count, limit) <= count
  {
    if count > limit {
      LastStartBelow(count - limit, limit);
    }
  }

  /** With limit zero the pages of a file that has lines never end. */
  lemma {:induction false} ZeroLimitNeverEnds(content: string, fuel: nat)
    requires 0 < |FileLines(content)| <= MAX_INT
    ensures Follow(content, 1, 0, fuel).None?
    decreases fuel
  {
    if fuel > 0 {
      ZeroLimitNeverEnds(content, fuel - 1);
    }
  }
}
