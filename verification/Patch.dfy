/** Applying a unified diff. */
module Patch {
  import opened Prelude
  import opened TextLines

  datatype Op = Context | Add | Delete

  datatype DiffLine = DiffLine(op: Op, text: string)

  datatype Hunk = Hunk(oldStart: Int64, oldCount: Int64, newStart: Int64, newCount: Int64, lines: seq<DiffLine>)

  /** Crashed is an index or slice bound out of range. */
  datatype Result = Patched(text: string) | Mismatch(hunk: nat, line: int) | Crashed

  /** The zero-based position of a header line number. */
  function Start(n: int): int {
    if n == 0 then 0 else n - 1
  }

  // ---------- the splice loop ----------

  datatype Check = Fits(end: int) | Differs(at: int) | OutOfRange

  /** Walks the context and deleted lines along the text from idx on. */
  function CheckLines(text: seq<string>, dls: seq<DiffLine>, idx: int): Check {
    if dls == [] then Fits(idx)
    else if dls[0].op == Add then CheckLines(text, dls[1..], idx)
    else if idx < 0 then OutOfRange
    else if idx >= |text| || text[idx] != dls[0].text then Differs(idx)
    else CheckLines(text, dls[1..], idx + 1)
  }

  function NewSide(dls: seq<DiffLine>): seq<string> {
    if dls == [] then []
    else (if dls[0].op == Delete then [] else [dls[0].text]) + NewSide(dls[1..])
  }

  function OldSide(dls: seq<DiffLine>): seq<string> {
    if dls == [] then []
    else (if dls[0].op == Add then [] else [dls[0].text]) + OldSide(dls[1..])
  }

  datatype Applied = Done(text: seq<string>, offset: int) | Stopped(error: Result)

  function Splice(text: seq<string>, from: nat, to: nat, new_: seq<string>): seq<string>
    requires from <= to <= |text|
  {
    text[..from] + new_ + text[to..]
  }

  /** One hunk, numbered i + 1, over the already edited text. The offset counts lines and stays small;
      a header number plus the offset may pass the largest 64-bit integer, and wraps. */
  function ApplyOne(text: seq<string>, h: Hunk, i: nat, offset: int): Applied {
    var start := Wrap(Start(h.oldStart) + offset);
    match CheckLines(text, h.lines, start)
    case OutOfRange => Stopped(Crashed)
    case Differs(at) => Stopped(Mismatch(i + 1, Wrap(at + 1)))
    case Fits(end) =>
      if start < 0 || end > |text| || end < start then Stopped(Crashed)
      else
        var new_ := NewSide(h.lines);
        Done(Splice(text, start, end, new_), offset + |new_| - (end - start))
  }

  function ApplyFrom(text: seq<string>, hunks: seq<Hunk>, i: nat, offset: int): Applied
    decreases |hunks|
  {
    if hunks == [] then Done(text, offset)
    else match ApplyOne(text, hunks[0], i, offset)
      case Stopped(error) => Stopped(error)
      case Done(text1, offset1) => ApplyFrom(text1, hunks[1..], i + 1, offset1)
  }

  function ApplyResult(original: string, hunks: seq<Hunk>): Result {
    match ApplyFrom(Lines(original), hunks, 0, 0)
    case Stopped(error) => error
    case Done(text, _) => Patched(Render(text))
  }

  lemma {:induction false} CheckFits(text: seq<string>, dls: seq<DiffLine>, idx: int)
    requires idx >= 0
    ensures var n := |OldSide(dls)|;
            CheckLines(text, dls, idx) == Fits(idx + n)
            <==> (n == 0 || (idx + n <= |text| && text[idx..idx + n] == OldSide(dls)))
    ensures CheckLines(text, dls, idx) == Fits(idx + |OldSide(dls)|)
            || (CheckLines(text, dls, idx).Differs? && OldSide(dls) != [])
  {
    if dls != [] {
      if dls[0].op == Add {
        CheckFits(text, dls[1..], idx);
      } else {
        var n := |OldSide(dls)|;
        CheckFits(text, dls[1..], idx + 1);
        if idx + n <= |text| {
          assert text[idx..idx + n] == [text[idx]] + text[idx + 1..idx + n];
          assert OldSide(dls)[0] == dls[0].text && OldSide(dls)[1..] == OldSide(dls[1..]);
        }
      }
    }
  }

  /** A fit never ends before it starts. */
  lemma {:induction false} CheckAdvances(text: seq<string>, dls: seq<DiffLine>, idx: int)
    ensures CheckLines(text, dls, idx).Fits? ==>
              && CheckLines(text, dls, idx).end == idx + |OldSide(dls)|
              && (OldSide(dls) != [] ==> idx >= 0 && CheckLines(text, dls, idx).end <= |text|)
  {
    if dls != [] {
      CheckAdvances(text, dls[1..], if dls[0].op == Add then idx else idx + 1);
    }
  }

  /** Before the text's start the first old line is out of range. */
  lemma {:induction false} CheckNegative(text: seq<string>, dls: seq<DiffLine>, idx: int)
    requires idx < 0
    ensures CheckLines(text, dls, idx) == if OldSide(dls) == [] then Fits(idx) else OutOfRange
  {
    if dls != [] && dls[0].op == Add {
      CheckNegative(text, dls[1..], idx);
    }
  }

  // ---------- one simultaneous edit ----------

  function LineCount(hunks: seq<Hunk>): nat {
    if hunks == [] then 0 else |hunks[0].lines| + LineCount(hunks[1..])
  }

  /** A text of n lines and the patch are held in one 64-bit memory. */
  predicate Held(n: nat, hunks: seq<Hunk>) {
    n + LineCount(hunks) < MAX_INT
  }

  lemma {:induction false} SidesShort(dls: seq<DiffLine>)
    ensures |NewSide(dls)| <= |dls| && |OldSide(dls)| <= |dls|
  {
    if dls != [] {
      SidesShort(dls[1..]);
    }
  }

  /** Hunks in order, none starting before pos or inside an earlier one. */
  predicate Placed(hunks: seq<Hunk>, pos: nat)
    decreases |hunks|
  {
    hunks == [] || (
      hunks[0].oldStart >= 0 && Start(hunks[0].oldStart) >= pos
      && Placed(hunks[1..], Start(hunks[0].oldStart) + |OldSide(hunks[0].lines)|))
  }

  /** The hunk's old side is what the original text has at its stated place. */
  predicate FitsOne(orig: seq<string>, h: Hunk) {
    var s := Start(h.oldStart);
    var n := |OldSide(h.lines)|;
    0 <= s && s + n <= |orig| && orig[s..s + n] == OldSide(h.lines)
  }

  predicate FitsAll(orig: seq<string>, hunks: seq<Hunk>) {
    hunks == [] || (FitsOne(orig, hunks[0]) && FitsAll(orig, hunks[1..]))
  }

  /** Untouched gaps and new sides, in one pass over the original from pos on. */
  function OnePass(orig: seq<string>, hunks: seq<Hunk>, pos: nat): seq<string>
    requires Placed(hunks, pos) && FitsAll(orig, hunks) && pos <= |orig|
    decreases |hunks|
  {
    if hunks == [] then orig[pos..]
    else
      var h := hunks[0];
      var s := Start(h.oldStart);
      orig[pos..s] + NewSide(h.lines) + OnePass(orig, hunks[1..], s + |OldSide(h.lines)|)
  }

  /** Lines added less lines deleted. */
  function Net(hunks: seq<Hunk>): int {
    if hunks == [] then 0
    else Growth(hunks[0]) + Net(hunks[1..])
  }

  /** The error of a hunk that does not fit: its number, and the first differing line counted in
      the text as edited so far. A start that wraps is out of range. */
  function BlameOne(orig: seq<string>, h: Hunk, i: nat, offset: int): Result {
    if Start(h.oldStart) + offset > MAX_INT then Crashed
    else match CheckLines(orig, h.lines, Start(h.oldStart))
      case Differs(at) => Mismatch(i + 1, Wrap(at + offset + 1))
      case _ => Crashed
  }

  /** How much a hunk lengthens the text. */
  function Growth(h: Hunk): int {
    |NewSide(h.lines)| - |OldSide(h.lines)|
  }

  /** The error of the first hunk that does not fit the original. */
  function Blame(orig: seq<string>, hunks: seq<Hunk>, i: nat, offset: int): Result
    decreases |hunks|
  {
    if hunks == [] then Crashed
    else if FitsOne(orig, hunks[0]) then Blame(orig, hunks[1..], i + 1, offset + Growth(hunks[0]))
    else BlameOne(orig, hunks[0], i, offset)
  }

  function Shift(c: Check, offset: int): Check {
    match c
    case Fits(end) => Fits(end + offset)
    case Differs(at) => Differs(at + offset)
    case OutOfRange => OutOfRange
  }

  /** Beyond the edited part, checking the edited text is checking the original. */
  lemma {:induction false} CheckShifts(orig: seq<string>, done: seq<string>, pos: nat, dls: seq<DiffLine>, idx: int)
    requires pos <= |orig| && pos <= idx
    ensures CheckLines(done + orig[pos..], dls, idx + |done| - pos) == Shift(CheckLines(orig, dls, idx), |done| - pos)
  {
    if dls != [] {
      var idx1 := if dls[0].op == Add then idx else idx + 1;
      CheckShifts(orig, done, pos, dls[1..], idx1);
    }
  }

  /** A hunk that does not fit stops the loop with its own error. */
  lemma MisfitStops(orig: seq<string>, done: seq<string>, pos: nat, h: Hunk, i: nat)
    requires pos <= |orig| && h.oldStart >= 0 && pos <= Start(h.oldStart) && !FitsOne(orig, h)
    requires |done| < MAX_INT
    ensures ApplyOne(done + orig[pos..], h, i, |done| - pos) == Stopped(BlameOne(orig, h, i, |done| - pos))
  {
    if Start(h.oldStart) + |done| - pos > MAX_INT {
      CheckNegative(done + orig[pos..], h.lines, Wrap(Start(h.oldStart) + |done| - pos));
    } else {
      CheckShifts(orig, done, pos, h.lines, Start(h.oldStart));
      CheckFits(orig, h.lines, Start(h.oldStart));
    }
  }

  /** A hunk that fits moves the loop on past its old side. */
  lemma FitAdvances(orig: seq<string>, done: seq<string>, pos: nat, h: Hunk, i: nat)
    requires pos <= |orig| && h.oldStart >= 0 && pos <= Start(h.oldStart) && FitsOne(orig, h)
    requires |done| + |orig| - pos < MAX_INT
    ensures var s, n := Start(h.oldStart), |OldSide(h.lines)|;
            var done1 := done + orig[pos..s] + NewSide(h.lines);
            ApplyOne(done + orig[pos..], h, i, |done| - pos) == Done(done1 + orig[s + n..], |done1| - (s + n))
  {
    var s, n := Start(h.oldStart), |OldSide(h.lines)|;
    hide CheckLines, OldSide, NewSide, Splice;
    CheckShifts(orig, done, pos, h.lines, s);
    CheckFits(orig, h.lines, s);
    SpliceStep(orig, done, pos, s, s + n, NewSide(h.lines));
  }

  ghost predicate SpliceResult(orig: seq<string>, done: seq<string>, pos: nat, hunks: seq<Hunk>, i: nat, r: Applied)
    requires pos <= |orig| && Placed(hunks, pos)
  {
    if FitsAll(orig, hunks)
    then r == Done(done + OnePass(orig, hunks, pos), |done| - pos + Net(hunks))
    else r == Stopped(Blame(orig, hunks, i, |done| - pos))
  }

  lemma Regroup<T>(a: seq<T>, b: seq<T>, c: seq<T>, d: seq<T>)
    ensures a + b + c + d == a + (b + c + d)
  {
  }

  lemma SpliceEnds(orig: seq<string>, done: seq<string>, pos: nat, i: nat)
    requires pos <= |orig|
    ensures SpliceResult(orig, done, pos, [], i, ApplyFrom(done + orig[pos..], [], i, |done| - pos))
  {
  }

  lemma SpliceStops(orig: seq<string>, done: seq<string>, pos: nat, hunks: seq<Hunk>, i: nat)
    requires pos <= |orig| && Placed(hunks, pos) && hunks != [] && !FitsOne(orig, hunks[0])
    requires Held(|done| + |orig| - pos, hunks)
    ensures SpliceResult(orig, done, pos, hunks, i, ApplyFrom(done + orig[pos..], hunks, i, |done| - pos))
  {
    MisfitStops(orig, done, pos, hunks[0], i);
  }

  lemma {:induction false} SpliceIsOnePass(orig: seq<string>, done: seq<string>, pos: nat, hunks: seq<Hunk>, i: nat)
    requires pos <= |orig| && Placed(hunks, pos)
    requires Held(|done| + |orig| - pos, hunks)
    ensures SpliceResult(orig, done, pos, hunks, i, ApplyFrom(done + orig[pos..], hunks, i, |done| - pos))
    decreases |hunks|
  {
    hide OldSide, NewSide, ApplyFrom, SpliceResult;
    if hunks == [] {
      SpliceEnds(orig, done, pos, i);
    } else if !FitsOne(orig, hunks[0]) {
      SpliceStops(orig, done, pos, hunks, i);
    } else {
      var end := Start(hunks[0].oldStart) + |OldSide(hunks[0].lines)|;
      var done1 := done + orig[pos..Start(hunks[0].oldStart)] + NewSide(hunks[0].lines);
      SidesShort(hunks[0].lines);
      SpliceIsOnePass(orig, done1, end, hunks[1..], i + 1);
      var r := ApplyFrom(done1 + orig[end..], hunks[1..], i + 1, |done1| - end);
      SpliceBack(orig, done, pos, hunks, i, done1, end, r);
      SpliceUnfolds(orig, done, pos, hunks, i, done + orig[pos..], done1 + orig[end..], |done1| - end);
    }
  }

  lemma SpliceUnfolds(orig: seq<string>, done: seq<string>, pos: nat, hunks: seq<Hunk>, i: nat, text: seq<string>,
                      text1: seq<string>, offset1: int)
    requires pos <= |orig| && Placed(hunks, pos) && hunks != [] && FitsOne(orig, hunks[0])
    requires text == done + orig[pos..]
    requires var s, n := Start(hunks[0].oldStart), |OldSide(hunks[0].lines)|;
             var done1 := done + orig[pos..s] + NewSide(hunks[0].lines);
             text1 == done1 + orig[s + n..] && offset1 == |done1| - (s + n)
    requires Held(|done| + |orig| - pos, hunks)
    ensures ApplyFrom(text, hunks, i, |done| - pos) == ApplyFrom(text1, hunks[1..], i + 1, offset1)
  {
    FitAdvances(orig, done, pos, hunks[0], i);
    FromNext(text, hunks, i, |done| - pos, text1, offset1);
  }

  lemma FromNext(text: seq<string>, hunks: seq<Hunk>, i: nat, offset: int, text1: seq<string>, offset1: int)
    requires hunks != [] && ApplyOne(text, hunks[0], i, offset) == Done(text1, offset1)
    ensures ApplyFrom(text, hunks, i, offset) == ApplyFrom(text1, hunks[1..], i + 1, offset1)
  {
  }

  /** A hunk that fits, taken off the edit. */
  lemma PassCons(orig: seq<string>, hunks: seq<Hunk>, pos: nat, i: nat, offset: int)
    requires pos <= |orig| && Placed(hunks, pos) && hunks != [] && FitsOne(orig, hunks[0])
    ensures var s, n := Start(hunks[0].oldStart), |OldSide(hunks[0].lines)|;
            && s + n <= |orig| && Placed(hunks[1..], s + n)
            && (FitsAll(orig, hunks) <==> FitsAll(orig, hunks[1..]))
            && (FitsAll(orig, hunks) ==>
                OnePass(orig, hunks, pos) == orig[pos..s] + NewSide(hunks[0].lines) + OnePass(orig, hunks[1..], s + n))
            && Net(hunks) == Growth(hunks[0]) + Net(hunks[1..])
            && Blame(orig, hunks, i, offset) == Blame(orig, hunks[1..], i + 1, offset + Growth(hunks[0]))
  {
  }

  /** What the rest of the loop gives, seen from before its first hunk. */
  lemma SpliceBack(orig: seq<string>, done: seq<string>, pos: nat, hunks: seq<Hunk>, i: nat, done1: seq<string>,
                   end: nat, r: Applied)
    requires pos <= |orig| && Placed(hunks, pos) && hunks != [] && FitsOne(orig, hunks[0])
    requires end == Start(hunks[0].oldStart) + |OldSide(hunks[0].lines)| && end <= |orig| && Placed(hunks[1..], end)
    requires done1 == done + orig[pos..Start(hunks[0].oldStart)] + NewSide(hunks[0].lines)
    requires SpliceResult(orig, done1, end, hunks[1..], i + 1, r)
    ensures SpliceResult(orig, done, pos, hunks, i, r)
  {
    PassCons(orig, hunks, pos, i, |done| - pos);
    assert |done1| - end == |done| - pos + Growth(hunks[0]);
    if FitsAll(orig, hunks) {
      var gap, tail := orig[pos..Start(hunks[0].oldStart)], OnePass(orig, hunks[1..], end);
      DoneBack(done, gap, NewSide(hunks[0].lines), tail, done1, OnePass(orig, hunks, pos),
               |done1| - end + Net(hunks[1..]), r);
    }
  }

  lemma DoneBack(done: seq<string>, gap: seq<string>, new_: seq<string>, tail: seq<string>, done1: seq<string>,
                 pass: seq<string>, offset: int, r: Applied)
    requires done1 == done + gap + new_ && pass == gap + new_ + tail && r == Done(done1 + tail, offset)
    ensures r == Done(done + pass, offset)
  {
    Regroup(done, gap, new_, tail);
  }

  lemma SpliceStep(orig: seq<string>, done: seq<string>, pos: nat, from: nat, to: nat, new_: seq<string>)
    requires pos <= from <= to <= |orig|
    ensures Splice(done + orig[pos..], from + |done| - pos, to + |done| - pos, new_)
            == done + orig[pos..from] + new_ + orig[to..]
  {
    var text := done + orig[pos..];
    assert text[..from + |done| - pos] == done + orig[pos..from];
    assert text[to + |done| - pos..] == orig[to..];
  }

  /** The whole splice loop. */
  lemma SpliceAll(orig: seq<string>, hunks: seq<Hunk>)
    requires Placed(hunks, 0) && Held(|orig|, hunks)
    ensures ApplyFrom(orig, hunks, 0, 0)
            == if FitsAll(orig, hunks) then Done(OnePass(orig, hunks, 0), Net(hunks))
               else Stopped(Blame(orig, hunks, 0, 0))
  {
    hide Placed, FitsAll, OnePass, Net, Blame, ApplyFrom;
    assert [] + orig[0..] == orig;
    SpliceIsOnePass(orig, [], 0, hunks, 0);
    if FitsAll(orig, hunks) {
      assert [] + OnePass(orig, hunks, 0) == OnePass(orig, hunks, 0);
    }
  }

  /** What applying gives, for the text's lines. */
  ghost predicate IsSimultaneous(orig: seq<string>, hunks: seq<Hunk>, applied: Applied, r: Result)
    requires Placed(hunks, 0)
  {
    && r == (if FitsAll(orig, hunks) then Patched(Render(OnePass(orig, hunks, 0))) else Blame(orig, hunks, 0, 0))
    && (r.Patched? <==> FitsAll(orig, hunks))
    && (FitsAll(orig, hunks) ==> applied == Done(OnePass(orig, hunks, 0), Net(hunks)))
  }

  lemma ResultIsSimultaneous(orig: seq<string>, hunks: seq<Hunk>, applied: Applied, r: Result)
    requires Placed(hunks, 0) && Held(|orig|, hunks) && applied == ApplyFrom(orig, hunks, 0, 0)
    requires r == match applied case Stopped(error) => error case Done(text, _) => Patched(Render(text))
    ensures IsSimultaneous(orig, hunks, applied, r)
  {
    SpliceAll(orig, hunks);
    BlameIsError(orig, hunks, 0, 0);
  }

  /** For ordered, disjoint hunks the splice loop is the simultaneous edit; it succeeds exactly when
      every hunk fits the original text, and its final offset is the lines added less those deleted. */
  lemma ApplyIsSimultaneous(original: string, hunks: seq<Hunk>)
    requires Placed(hunks, 0) && Held(|Lines(original)|, hunks)
    ensures IsSimultaneous(Lines(original), hunks, ApplyFrom(Lines(original), hunks, 0, 0),
                           ApplyResult(original, hunks))
  {
    ResultIsSimultaneous(Lines(original), hunks, ApplyFrom(Lines(original), hunks, 0, 0), ApplyResult(original, hunks));
  }

  lemma {:induction false} BlameIsError(orig: seq<string>, hunks: seq<Hunk>, i: nat, offset: int)
    ensures !Blame(orig, hunks, i, offset).Patched?
    decreases |hunks|
  {
    if hunks != [] && FitsOne(orig, hunks[0]) {
      BlameIsError(orig, hunks[1..], i + 1, offset + Growth(hunks[0]));
    }
  }

  lemma {:induction false} FitsEach(orig: seq<string>, hunks: seq<Hunk>)
    ensures FitsAll(orig, hunks) <==> forall k :: 0 <= k < |hunks| ==> FitsOne(orig, hunks[k])
  {
    if hunks != [] {
      FitsEach(orig, hunks[1..]);
      assert forall k :: 1 <= k < |hunks| ==> hunks[k] == hunks[1..][k - 1];
      if FitsAll(orig, hunks) {
        forall k | 0 <= k < |hunks|
          ensures FitsOne(orig, hunks[k])
        {
          assert k > 0 ==> FitsOne(orig, hunks[1..][k - 1]);
        }
      }
    }
  }

  /** The walk stops at the first line that is not there or not the same. */
  predicate FirstDifference(orig: seq<string>, old_: seq<string>, from: nat, d: int) {
    && 0 <= d < |old_|
    && from + d <= |orig| && orig[from..from + d] == old_[..d]
    && (from + d == |orig| || orig[from + d] != old_[d])
  }

  lemma DifferenceCons(orig: seq<string>, line: string, old_: seq<string>, from: nat, d: int)
    requires from < |orig| && orig[from] == line && FirstDifference(orig, old_, from + 1, d)
    ensures FirstDifference(orig, [line] + old_, from, d + 1)
  {
    assert orig[from..from + (d + 1)] == [line] + orig[from + 1..from + 1 + d];
    assert ([line] + old_)[..d + 1] == [line] + old_[..d];
  }

  lemma DifferenceHere(orig: seq<string>, line: string, old_: seq<string>, from: nat)
    requires from <= |orig| && (from == |orig| || orig[from] != line)
    ensures FirstDifference(orig, [line] + old_, from, 0)
  {
    assert orig[from..from] == ([line] + old_)[..0];
  }

  lemma {:induction false} CheckDiffers(orig: seq<string>, dls: seq<DiffLine>, idx: nat, at: int)
    requires CheckLines(orig, dls, idx) == Differs(at)
    requires idx <= |orig|
    ensures FirstDifference(orig, OldSide(dls), idx, at - idx)
  {
    var line, rest := dls[0].text, dls[1..];
    if dls[0].op == Add {
      CheckDiffers(orig, rest, idx, at);
      assert OldSide(dls) == [] + OldSide(rest) == OldSide(rest);
    } else if idx < |orig| && orig[idx] == line {
      CheckDiffers(orig, rest, idx + 1, at);
      DifferenceCons(orig, line, OldSide(rest), idx, at - (idx + 1));
    } else {
      DifferenceHere(orig, line, OldSide(rest), idx);
    }
  }

  /** The number of leading hunks that fit. */
  function FirstMisfit(orig: seq<string>, hunks: seq<Hunk>): nat {
    if hunks != [] && FitsOne(orig, hunks[0]) then 1 + FirstMisfit(orig, hunks[1..]) else 0
  }

  lemma {:induction false} MisfitIsFirst(orig: seq<string>, hunks: seq<Hunk>)
    ensures var k := FirstMisfit(orig, hunks);
            && k <= |hunks| && (FitsAll(orig, hunks) <==> k == |hunks|)
            && (k < |hunks| ==> !FitsOne(orig, hunks[k])) && (forall j :: 0 <= j < k ==> FitsOne(orig, hunks[j]))
  {
    if hunks != [] && FitsOne(orig, hunks[0]) {
      MisfitIsFirst(orig, hunks[1..]);
      assert forall j :: 1 <= j < |hunks| ==> hunks[j] == hunks[1..][j - 1];
    }
  }

  lemma {:induction false} BlameIsFirst(orig: seq<string>, hunks: seq<Hunk>, i: nat, offset: int)
    requires FirstMisfit(orig, hunks) < |hunks|
    ensures var k := FirstMisfit(orig, hunks);
            Blame(orig, hunks, i, offset) == BlameOne(orig, hunks[k], i + k, offset + Net(hunks[..k]))
    decreases |hunks|
  {
    var h, k := hunks[0], FirstMisfit(orig, hunks);
    if FitsOne(orig, h) {
      BlameIsFirst(orig, hunks[1..], i + 1, offset + Growth(h));
      assert hunks[..k][0] == h && hunks[..k][1..] == hunks[1..][..k - 1];
    } else {
      assert hunks[..0] == [];
    }
  }

  lemma {:induction false} NetSmall(hunks: seq<Hunk>, k: nat)
    requires k <= |hunks|
    ensures Net(hunks[..k]) <= LineCount(hunks) && Net(hunks[..k]) + LineCount(hunks) >= 0
  {
    if k > 0 {
      SidesShort(hunks[0].lines);
      NetSmall(hunks[1..], k - 1);
      assert hunks[..k][0] == hunks[0] && hunks[..k][1..] == hunks[1..][..k - 1];
    }
  }

  lemma {:induction false} PlacedStarts(hunks: seq<Hunk>, pos: nat, k: nat)
    requires Placed(hunks, pos) && k < |hunks|
    ensures Start(hunks[k].oldStart) >= 0
    decreases |hunks|
  {
    if k > 0 {
      PlacedStarts(hunks[1..], Start(hunks[0].oldStart) + |OldSide(hunks[0].lines)|, k - 1);
    }
  }

  /** The first hunk that does not fit is reported unless it has no old side, or its start, moved by
      the growth of what was applied, passes the largest 64-bit integer. */
  ghost predicate ReportsExactly(orig: seq<string>, hunks: seq<Hunk>, r: Result) {
    var k := FirstMisfit(orig, hunks);
    && k <= |hunks| && (r.Patched? <==> k == |hunks|)
    && (k < |hunks| ==>
        && (r.Crashed? <==> OldSide(hunks[k].lines) == [] || Start(hunks[k].oldStart) + Net(hunks[..k]) > MAX_INT)
        && (r.Mismatch? ==> r.hunk == k + 1))
  }

  lemma BlameOneExactly(orig: seq<string>, h: Hunk, i: nat, offset: int)
    requires !FitsOne(orig, h) && Start(h.oldStart) >= 0
    ensures var r := BlameOne(orig, h, i, offset);
            && (r.Crashed? <==> OldSide(h.lines) == [] || Start(h.oldStart) + offset > MAX_INT)
            && !r.Patched? && (r.Mismatch? ==> r.hunk == i + 1)
  {
    CheckFits(orig, h.lines, Start(h.oldStart));
  }

  /** Exactly when applying succeeds, reports a mismatch, or runs out of range. */
  lemma CrashesExactly(original: string, hunks: seq<Hunk>)
    requires Placed(hunks, 0) && Held(|Lines(original)|, hunks)
    ensures ReportsExactly(Lines(original), hunks, ApplyResult(original, hunks))
  {
    hide FitsOne, FitsAll, FirstMisfit, Placed, Net, OldSide, ApplyResult, Lines, Blame, BlameOne, OnePass, Render,
         ApplyFrom, Held;
    var orig := Lines(original);
    var k := FirstMisfit(orig, hunks);
    ApplyIsSimultaneous(original, hunks);
    MisfitIsFirst(orig, hunks);
    if k < |hunks| {
      BlameIsFirst(orig, hunks, 0, 0);
      PlacedStarts(hunks, 0, k);
      BlameOneExactly(orig, hunks[k], k, Net(hunks[..k]));
    }
  }

  /** Hunk k is the first that does not fit the original. When it starts inside the text, line is
      the first one in which its old side differs, moved by the growth of what was applied; otherwise
      line is its start, moved and counted from one in 64 bits. */
  ghost predicate NamesFirstDifference(orig: seq<string>, hunks: seq<Hunk>, k: int, line: int) {
    && 0 <= k < |hunks| && !FitsOne(orig, hunks[k]) && (forall j :: 0 <= j < k ==> FitsOne(orig, hunks[j]))
    && var from, moved := Start(hunks[k].oldStart), Net(hunks[..k]);
      && from >= 0
      && if from <= |orig| then FirstDifference(orig, OldSide(hunks[k].lines), from, line - 1 - moved - from)
         else line == Wrap(from + moved + 1)
  }

  lemma {:induction false} CheckBeyond(orig: seq<string>, dls: seq<DiffLine>, idx: int)
    requires idx > |orig|
    ensures CheckLines(orig, dls, idx) == if OldSide(dls) == [] then Fits(idx) else Differs(idx)
  {
    if dls != [] && dls[0].op == Add {
      CheckBeyond(orig, dls[1..], idx);
    }
  }

  lemma BlameOneNames(orig: seq<string>, h: Hunk, i: nat, offset: int)
    requires BlameOne(orig, h, i, offset).Mismatch? && Start(h.oldStart) >= 0
    requires -MAX_INT <= offset && |orig| + offset < MAX_INT
    ensures var from, line := Start(h.oldStart), BlameOne(orig, h, i, offset).line;
            if from <= |orig| then FirstDifference(orig, OldSide(h.lines), from, line - 1 - offset - from)
            else line == Wrap(from + offset + 1)
  {
    var from := Start(h.oldStart);
    if from <= |orig| {
      CheckDiffers(orig, h.lines, from, CheckLines(orig, h.lines, from).at);
    } else {
      CheckBeyond(orig, h.lines, from);
    }
  }

  lemma MismatchNamesFirstDifference(original: string, hunks: seq<Hunk>)
    requires Placed(hunks, 0) && Held(|Lines(original)|, hunks) && ApplyResult(original, hunks).Mismatch?
    ensures var r := ApplyResult(original, hunks); NamesFirstDifference(Lines(original), hunks, r.hunk - 1, r.line)
  {
    hide BlameOne, FitsOne, FitsAll, FirstMisfit, Placed, FirstDifference, Net, OldSide, ApplyResult, Lines, Wrap;
    var orig := Lines(original);
    var k := FirstMisfit(orig, hunks);
    ApplyIsSimultaneous(original, hunks);
    MisfitIsFirst(orig, hunks);
    BlameIsFirst(orig, hunks, 0, 0);
    PlacedStarts(hunks, 0, k);
    NetSmall(hunks, k);
    CrashesExactly(original, hunks);
    BlameOneNames(orig, hunks[k], k, Net(hunks[..k]));
  }

  // ---------- the loop itself ----------

  method VerifyLines(origLines: seq<string>, lines: seq<DiffLine>, startIdx: int) returns (c: Check)
    ensures c == CheckLines(origLines, lines, startIdx)
  {
    var checkIdx := startIdx;
    for k := 0 to |lines|
      invariant CheckLines(origLines, lines, startIdx) == CheckLines(origLines, lines[k..], checkIdx)
    {
      var dl := lines[k];
      assert lines[k..][0] == dl && lines[k..][1..] == lines[k + 1..];
      if dl.op != Add {
        if checkIdx < 0 {
          return OutOfRange;
        }
        if checkIdx >= |origLines| || origLines[checkIdx] != dl.text {
          return Differs(checkIdx);
        }
        checkIdx := checkIdx + 1;
      }
    }
    return Fits(checkIdx);
  }

  lemma SidesFrom(origLines: seq<string>, lines: seq<DiffLine>, k: nat, idx: int)
    requires k < |lines| && CheckLines(origLines, lines[k..], idx).Fits?
    ensures NewSide(lines[k..]) == (if lines[k].op == Delete then [] else [lines[k].text]) + NewSide(lines[k + 1..])
    ensures CheckLines(origLines, lines[k + 1..], if lines[k].op == Add then idx else idx + 1).Fits?
    ensures lines[k].op != Add ==> 0 <= idx < |origLines| && origLines[idx] == lines[k].text
  {
    assert lines[k..][0] == lines[k] && lines[k..][1..] == lines[k + 1..];
  }

  /** The new side so far and what is left of it. */
  ghost predicate Building(origLines: seq<string>, lines: seq<DiffLine>, k: nat, idx: int, newLines: seq<string>)
    requires k <= |lines|
  {
    newLines + NewSide(lines[k..]) == NewSide(lines) && CheckLines(origLines, lines[k..], idx).Fits?
  }

  lemma BuildStep(origLines: seq<string>, lines: seq<DiffLine>, k: nat, idx: int, newLines: seq<string>)
    requires k < |lines| && Building(origLines, lines, k, idx, newLines)
    ensures lines[k].op != Add ==> 0 <= idx < |origLines| && origLines[idx] == lines[k].text
    ensures Building(origLines, lines, k + 1, if lines[k].op == Add then idx else idx + 1,
                     if lines[k].op == Delete then newLines else newLines + [lines[k].text])
  {
    SidesFrom(origLines, lines, k, idx);
    Regroup(newLines, [lines[k].text], [], NewSide(lines[k + 1..]));
    assert [lines[k].text] + [] == [lines[k].text] && newLines + [lines[k].text] + [] == newLines + [lines[k].text];
  }

  /** Context lines are copied from the text, which the check has found equal to the hunk's. */
  method BuildLines(origLines: seq<string>, lines: seq<DiffLine>, startIdx: int) returns (newLines: seq<string>)
    requires CheckLines(origLines, lines, startIdx).Fits?
    ensures newLines == NewSide(lines)
  {
    newLines := [];
    var applyIdx := startIdx;
    for k := 0 to |lines|
      invariant Building(origLines, lines, k, applyIdx, newLines)
    {
      var dl := lines[k];
      BuildStep(origLines, lines, k, applyIdx, newLines);
      match dl.op
      case Context =>
        newLines := newLines + [origLines[applyIdx]];
        applyIdx := applyIdx + 1;
      case Delete =>
        applyIdx := applyIdx + 1;
      case Add =>
        newLines := newLines + [dl.text];
    }
  }

  lemma HunkStep(text: seq<string>, hunks: seq<Hunk>, i: nat, offset: int)
    requires i < |hunks|
    ensures ApplyFrom(text, hunks[i..], i, offset)
            == match ApplyOne(text, hunks[i], i, offset)
               case Stopped(error) => Stopped(error)
               case Done(text1, offset1) => ApplyFrom(text1, hunks[i + 1..], i + 1, offset1)
  {
    assert hunks[i..][0] == hunks[i] && hunks[i..][1..] == hunks[i + 1..];
  }

  /** The loop body. */
  method ApplyHunk(origLines: seq<string>, hunk: Hunk, i: nat, offset: int) returns (r: Applied)
    ensures r == ApplyOne(origLines, hunk, i, offset)
  {
    var startIdx := Wrap(hunk.oldStart - 1 + offset);
    if hunk.oldStart == 0 {
      startIdx := Wrap(0 + offset);
    }
    var check := VerifyLines(origLines, hunk.lines, startIdx);
    match check
    case OutOfRange => return Stopped(Crashed);
    case Differs(at) => return Stopped(Mismatch(i + 1, Wrap(at + 1)));
    case Fits(checkIdx) =>
      CheckAdvances(origLines, hunk.lines, startIdx);
      var newLines := BuildLines(origLines, hunk.lines, startIdx);
      var oldLen := checkIdx - startIdx;
      if startIdx < 0 || startIdx + oldLen > |origLines| {
        return Stopped(Crashed);
      }
      return Done(origLines[..startIdx] + newLines + origLines[startIdx + oldLen..], offset + |newLines| - oldLen);
  }

  method ApplyPatch(original: string, hunks: seq<Hunk>) returns (r: Result)
    ensures r == ApplyResult(original, hunks)
  {
    var origLines: seq<string> := [];
    if original != "" {
      origLines := Split(original);
      if |origLines| > 0 && origLines[|origLines| - 1] == "" && EndsWithNewline(original) {
        origLines := origLines[..|origLines| - 1];
      }
    }
    ghost var total := ApplyFrom(origLines, hunks, 0, 0);
    assert total == ApplyFrom(Lines(original), hunks, 0, 0);
    var offset := 0;
    assert hunks[0..] == hunks;
    for i := 0 to |hunks|
      invariant total == ApplyFrom(origLines, hunks[i..], i, offset)
    {
      HunkStep(origLines, hunks, i, offset);
      var applied := ApplyHunk(origLines, hunks[i], i, offset);
      match applied
      case Stopped(error) => return error;
      case Done(text, moved) => origLines, offset := text, moved;
    }
    if |origLines| == 0 {
      return Patched("");
    }
    return Patched(Join(origLines, NEWLINE) + NEWLINE);
  }

  // ---------- inversion ----------

  function InvertLine(dl: DiffLine): DiffLine {
    match dl.op
    case Context => dl
    case Add => DiffLine(Delete, dl.text)
    case Delete => DiffLine(Add, dl.text)
  }

  function InvertLines(dls: seq<DiffLine>): seq<DiffLine> {
    if dls == [] then [] else [InvertLine(dls[0])] + InvertLines(dls[1..])
  }

  function InvertHunk(h: Hunk): Hunk {
    Hunk(h.newStart, h.newCount, h.oldStart, h.oldCount, InvertLines(h.lines))
  }

  function Invert(hunks: seq<Hunk>): seq<Hunk> {
    if hunks == [] then [] else [InvertHunk(hunks[0])] + Invert(hunks[1..])
  }

  lemma {:induction false} InvertSides(dls: seq<DiffLine>)
    ensures OldSide(InvertLines(dls)) == NewSide(dls) && NewSide(InvertLines(dls)) == OldSide(dls)
  {
    if dls != [] {
      InvertSides(dls[1..]);
    }
  }

  /** New line numbers are the old ones moved by what came before. */
  predicate Numbered(hunks: seq<Hunk>, offset: int)
    decreases |hunks|
  {
    hunks == [] || (
      hunks[0].newStart >= 0 && Start(hunks[0].newStart) == Start(hunks[0].oldStart) + offset
      && Numbered(hunks[1..], offset + Growth(hunks[0])))
  }

  /** The inverse of a hunk fits the patched text, in which its new side stands after done and gap. */
  lemma InverseFitsOne(done: seq<string>, gap: seq<string>, tail: seq<string>, h: Hunk)
    requires h.newStart >= 0 && Start(h.newStart) == |done| + |gap|
    ensures FitsOne(done + gap + NewSide(h.lines) + tail, InvertHunk(h))
    ensures (done + gap + NewSide(h.lines) + tail)[|done|..Start(h.newStart)] == gap
  {
    InvertSides(h.lines);
    var text := done + gap + NewSide(h.lines) + tail;
    var s := Start(h.newStart);
    assert text[s..s + |NewSide(h.lines)|] == NewSide(h.lines);
  }

  lemma {:induction false} InverseOnePass(orig: seq<string>, done: seq<string>, pos: nat, hunks: seq<Hunk>,
                                          text: seq<string>)
    requires pos <= |orig| && Placed(hunks, pos) && FitsAll(orig, hunks) && Numbered(hunks, |done| - pos)
    requires text == done + OnePass(orig, hunks, pos)
    ensures Placed(Invert(hunks), |done|) && FitsAll(text, Invert(hunks))
    ensures OnePass(text, Invert(hunks), |done|) == orig[pos..]
    decreases |hunks|
  {
    if hunks != [] {
      var h := hunks[0];
      var s, n, new_ := Start(h.oldStart), |OldSide(h.lines)|, NewSide(h.lines);
      var tail := OnePass(orig, hunks[1..], s + n);
      hide FitsOne, OldSide, NewSide, InvertHunk;
      Regroup(done, orig[pos..s], new_, tail);
      InverseFitsOne(done, orig[pos..s], tail, h);
      InverseOnePass(orig, done + orig[pos..s] + new_, s + n, hunks[1..], text);
      InvertCons(hunks);
      InverseCons(orig, done, pos, hunks, text, Invert(hunks));
    }
  }

  lemma Rejoin(orig: seq<string>, pos: nat, from: nat, to: nat)
    requires pos <= from <= to <= |orig|
    ensures orig[pos..from] + orig[from..to] + orig[to..] == orig[pos..]
  {
  }

  lemma InvertCons(hunks: seq<Hunk>)
    requires hunks != []
    ensures Invert(hunks) != [] && Invert(hunks)[0] == InvertHunk(hunks[0]) && Invert(hunks)[1..] == Invert(hunks[1..])
  {
  }

  /** The inverse hunks' single pass, unfolded once. */
  lemma InverseCons(orig: seq<string>, done: seq<string>, pos: nat, hunks: seq<Hunk>, text: seq<string>, inv: seq<Hunk>)
    requires pos <= |orig| && Placed(hunks, pos) && hunks != [] && FitsOne(orig, hunks[0])
    requires inv != [] && inv[0] == InvertHunk(hunks[0])
    requires var h := hunks[0];
             var s, n, new_ := Start(h.oldStart), |OldSide(h.lines)|, NewSide(h.lines);
             var s2 := Start(h.newStart);
             && h.newStart >= 0 && s2 == |done| + (s - pos)
             && FitsOne(text, inv[0]) && text[|done|..s2] == orig[pos..s]
             && Placed(inv[1..], s2 + |new_|) && FitsAll(text, inv[1..])
             && s2 + |new_| <= |text|
             && OnePass(text, inv[1..], s2 + |new_|) == orig[s + n..]
    ensures |done| <= |text| && Placed(inv, |done|) && FitsAll(text, inv)
    ensures OnePass(text, inv, |done|) == orig[pos..]
  {
    var h := hunks[0];
    InvertSides(h.lines);
    PassCons(text, inv, |done|, 0, 0);
    Rejoin(orig, pos, Start(h.oldStart), Start(h.oldStart) + |OldSide(h.lines)|);
  }

  ghost predicate PlainTexts(hunks: seq<Hunk>) {
    forall i, j :: 0 <= i < |hunks| && 0 <= j < |hunks[i].lines| ==> '\n' !in hunks[i].lines[j].text
  }

  lemma {:induction false} NewSidePlain(dls: seq<DiffLine>)
    requires forall j :: 0 <= j < |dls| ==> '\n' !in dls[j].text
    ensures NoNewlines(NewSide(dls))
  {
    if dls != [] {
      NewSidePlain(dls[1..]);
    }
  }

  lemma {:induction false} OnePassPlain(orig: seq<string>, hunks: seq<Hunk>, pos: nat)
    requires pos <= |orig| && Placed(hunks, pos) && FitsAll(orig, hunks)
    requires NoNewlines(orig) && PlainTexts(hunks)
    ensures NoNewlines(OnePass(orig, hunks, pos))
    decreases |hunks|
  {
    if hunks != [] {
      var h := hunks[0];
      assert FitsOne(orig, h);
      NewSidePlain(h.lines);
      assert forall i :: 0 <= i < |hunks[1..]| ==> hunks[1..][i] == hunks[i + 1];
      OnePassPlain(orig, hunks[1..], Start(h.oldStart) + |OldSide(h.lines)|);
    }
  }

  lemma {:induction false} OnePassLength(orig: seq<string>, hunks: seq<Hunk>, pos: nat)
    requires pos <= |orig| && Placed(hunks, pos) && FitsAll(orig, hunks)
    ensures |OnePass(orig, hunks, pos)| == |orig| - pos + Net(hunks)
    decreases |hunks|
  {
    if hunks != [] {
      OnePassLength(orig, hunks[1..], Start(hunks[0].oldStart) + |OldSide(hunks[0].lines)|);
    }
  }

  lemma {:induction false} InvertedLines(dls: seq<DiffLine>)
    ensures |InvertLines(dls)| == |dls|
  {
    if dls != [] {
      InvertedLines(dls[1..]);
    }
  }

  lemma {:induction false} InvertedCount(hunks: seq<Hunk>)
    ensures LineCount(Invert(hunks)) == LineCount(hunks)
  {
    if hunks != [] {
      InvertedLines(hunks[0].lines);
      InvertCons(hunks);
      InvertedCount(hunks[1..]);
    }
  }

  lemma InverseHeld(orig: seq<string>, hunks: seq<Hunk>)
    requires Placed(hunks, 0) && FitsAll(orig, hunks) && |orig| + 2 * LineCount(hunks) < MAX_INT
    ensures Held(|OnePass(orig, hunks, 0)|, Invert(hunks))
  {
    OnePassLength(orig, hunks, 0);
    NetSmall(hunks, |hunks|);
    assert hunks[..|hunks|] == hunks;
    InvertedCount(hunks);
  }

  /** Applying a patch and then its inverse gives the text back with its last line ended: exactly
      the text when that line was ended already. */
  lemma PatchesInvert(original: string, hunks: seq<Hunk>)
    requires Placed(hunks, 0) && Numbered(hunks, 0) && PlainTexts(hunks)
    requires |Lines(original)| + 2 * LineCount(hunks) < MAX_INT
    requires ApplyResult(original, hunks).Patched?
    ensures var patched := ApplyResult(original, hunks).text;
            && ApplyResult(patched, Invert(hunks)) == Patched(Normalize(original))
            && (ApplyResult(patched, Invert(hunks)) == Patched(original)
                <==> original == "" || EndsWithNewline(original))
  {
    var orig := Lines(original);
    ApplyIsSimultaneous(original, hunks);
    var text := OnePass(orig, hunks, 0);
    LinesHaveNoNewlines(original);
    OnePassPlain(orig, hunks, 0);
    LinesRender(text);
    assert [] + text == text;
    InverseOnePass(orig, [], 0, hunks, text);
    InverseHeld(orig, hunks);
    ApplyIsSimultaneous(Render(text), Invert(hunks));
    RenderLines(original);
    assert |Normalize(original)| > |original| || original == "" || EndsWithNewline(original);
  }
}
