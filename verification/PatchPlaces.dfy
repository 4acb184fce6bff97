/** Where hunks go, in line numbers: a hunk numbered n replaces the lines n, n + 1, .. of the text. */
module PatchPlaces {
  import opened TextLines
  import opened Patch

  // ---------- texts with the hunks between untouched stretches ----------

  /** The stretches with the hunks' context and deleted lines between them. */
  function OldText(gaps: seq<seq<string>>, hunks: seq<Hunk>): seq<string>
    requires |gaps| == |hunks| + 1
    decreases |hunks|
  {
    if hunks == [] then gaps[0] else gaps[0] + OldSide(hunks[0].lines) + OldText(gaps[1..], hunks[1..])
  }

  /** The same stretches with the hunks' context and added lines between them. */
  function NewText(gaps: seq<seq<string>>, hunks: seq<Hunk>): seq<string>
    requires |gaps| == |hunks| + 1
    decreases |hunks|
  {
    if hunks == [] then gaps[0] else gaps[0] + NewSide(hunks[0].lines) + NewText(gaps[1..], hunks[1..])
  }

  /** The line after that many lines has number n. The first line may also be called line 0. */
  predicate Names(n: int, before: nat) {
    n == before + 1 || (n == 0 && before == 0)
  }

  /** Every hunk carries the number of the line its old side begins at. */
  predicate Stated(gaps: seq<seq<string>>, hunks: seq<Hunk>, before: nat)
    requires |gaps| == |hunks| + 1
    decreases |hunks|
  {
    hunks == [] || (
      && Names(hunks[0].oldStart, before + |gaps[0]|)
      && Stated(gaps[1..], hunks[1..], before + |gaps[0]| + |OldSide(hunks[0].lines)|))
  }

  /** The text is made of the hunks' old sides, at the lines they name, and the stretches between. */
  predicate Woven(orig: seq<string>, gaps: seq<seq<string>>, hunks: seq<Hunk>) {
    |gaps| == |hunks| + 1 && orig == OldText(gaps, hunks) && Stated(gaps, hunks, 0)
  }

  /** From the line the hunk names on, the lines are its old side. Line m of the text is orig[m - 1]. */
  predicate OnItsLines(orig: seq<string>, h: Hunk) {
    var first, old_ := if h.oldStart == 0 then 1 else h.oldStart, OldSide(h.lines);
    && 1 <= first <= |orig| + 1
    && forall j :: 0 <= j < |old_| ==> first + j <= |orig| && orig[first + j - 1] == old_[j]
  }

  /** No hunk names a line among the first ones or inside an earlier hunk. */
  predicate InOrder(hunks: seq<Hunk>, before: nat)
    decreases |hunks|
  {
    hunks == [] || (
      var n, old_ := hunks[0].oldStart, OldSide(hunks[0].lines);
      if n == 0 then before == 0 && InOrder(hunks[1..], |old_|)
      else n > before && InOrder(hunks[1..], n - 1 + |old_|))
  }

  // ---------- applying, by line numbers ----------

  /** An old side that stands where its hunk says, with the rest of the text behind it. */
  lemma PlaceFits(done: seq<string>, gap: seq<string>, h: Hunk, rest: seq<string>)
    requires Names(h.oldStart, |done| + |gap|)
    ensures var orig, s, n := done + gap + OldSide(h.lines) + rest, |done| + |gap|, |OldSide(h.lines)|;
            && Start(h.oldStart) == s && FitsOne(orig, h) && orig[|done|..s] == gap
            && orig == done + (gap + OldSide(h.lines) + rest)
  {
    hide OldSide;
    var orig, s, n := done + gap + OldSide(h.lines) + rest, |done| + |gap|, |OldSide(h.lines)|;
    assert orig[s..s + n] == OldSide(h.lines);
    Regroup(done, gap, OldSide(h.lines), rest);
  }

  /** One more hunk in front of a pass. */
  lemma PlacedCons(orig: seq<string>, done: seq<string>, gap: seq<string>, hunks: seq<Hunk>, rest: seq<string>,
                   newRest: seq<string>, end: nat)
    requires hunks != [] && Names(hunks[0].oldStart, |done| + |gap|)
    requires orig == done + gap + OldSide(hunks[0].lines) + rest
    requires end == |done| + |gap| + |OldSide(hunks[0].lines)| && Placed(hunks[1..], end)
    requires FitsAll(orig, hunks[1..]) && OnePass(orig, hunks[1..], end) == newRest
    ensures Placed(hunks, |done|) && FitsAll(orig, hunks)
    ensures OnePass(orig, hunks, |done|) == gap + NewSide(hunks[0].lines) + newRest
  {
    hide OldSide, NewSide, FitsOne, Names, OnePass;
    PlaceFits(done, gap, hunks[0], rest);
    PassCons(orig, hunks, |done|, 0, 0);
  }

  lemma {:induction false} StatedPlaced(done: seq<string>, gaps: seq<seq<string>>, hunks: seq<Hunk>)
    requires |gaps| == |hunks| + 1 && Stated(gaps, hunks, |done|)
    ensures var orig := done + OldText(gaps, hunks);
            && Placed(hunks, |done|) && FitsAll(orig, hunks)
            && OnePass(orig, hunks, |done|) == NewText(gaps, hunks)
    decreases |hunks|
  {
    var orig := done + OldText(gaps, hunks);
    if hunks == [] {
      assert orig[|done|..] == gaps[0];
    } else {
      hide OldSide, NewSide, FitsOne, Names, OnePass, FitsAll, Placed;
      var old_, rest := OldSide(hunks[0].lines), OldText(gaps[1..], hunks[1..]);
      var done1 := done + gaps[0] + old_;
      Regroup(done, gaps[0], old_, rest);
      StatedPlaced(done1, gaps[1..], hunks[1..]);
      PlacedCons(orig, done, gaps[0], hunks, rest, NewText(gaps[1..], hunks[1..]), |done1|);
    }
  }

  /** Hunks whose old sides stand where they say are all replaced by their new sides, and nothing
      else changes. */
  lemma PlacesAreReplaced(original: string, gaps: seq<seq<string>>, hunks: seq<Hunk>)
    requires Woven(Lines(original), gaps, hunks) && Held(|Lines(original)|, hunks)
    ensures |gaps| == |hunks| + 1 && ApplyResult(original, hunks) == Patched(Render(NewText(gaps, hunks)))
  {
    StatedPlaced([], gaps, hunks);
    assert [] + OldText(gaps, hunks) == OldText(gaps, hunks);
    ApplyIsSimultaneous(original, hunks);
  }

  lemma {:induction false} OrderPlaces(hunks: seq<Hunk>, before: nat)
    requires InOrder(hunks, before)
    ensures Placed(hunks, before)
    decreases |hunks|
  {
    if hunks != [] {
      var n, old_ := hunks[0].oldStart, OldSide(hunks[0].lines);
      OrderPlaces(hunks[1..], (if n == 0 then 0 else n - 1) + |old_|);
    }
  }

  lemma FitIsOnItsLines(orig: seq<string>, h: Hunk)
    requires h.oldStart >= 0 && FitsOne(orig, h)
    ensures OnItsLines(orig, h)
  {
    hide OldSide;
    var s, old_ := Start(h.oldStart), OldSide(h.lines);
    assert forall j :: 0 <= j < |old_| ==> orig[s..s + |old_|][j] == old_[j];
  }

  lemma OnItsLinesFits(orig: seq<string>, h: Hunk)
    requires h.oldStart >= 0 && OnItsLines(orig, h)
    ensures FitsOne(orig, h)
  {
    hide OldSide;
    var s, old_ := Start(h.oldStart), OldSide(h.lines);
    if old_ != [] {
      assert old_[|old_| - 1] == orig[s + |old_| - 1];
    }
    assert orig[s..s + |old_|] == old_;
  }

  lemma FitsOnItsLines(orig: seq<string>, h: Hunk)
    requires h.oldStart >= 0
    ensures FitsOne(orig, h) <==> OnItsLines(orig, h)
  {
    hide FitsOne, OnItsLines;
    if FitsOne(orig, h) {
      FitIsOnItsLines(orig, h);
    }
    if OnItsLines(orig, h) {
      OnItsLinesFits(orig, h);
    }
  }

  lemma {:induction false} OrderStarts(hunks: seq<Hunk>, before: nat)
    requires InOrder(hunks, before)
    ensures forall k :: 0 <= k < |hunks| ==> hunks[k].oldStart >= 0
    decreases |hunks|
  {
    if hunks != [] {
      var n, old_ := hunks[0].oldStart, OldSide(hunks[0].lines);
      OrderStarts(hunks[1..], (if n == 0 then 0 else n - 1) + |old_|);
      assert forall k :: 1 <= k < |hunks| ==> hunks[k] == hunks[1..][k - 1];
    }
  }

  /** A patch in order applies exactly when every hunk's old side is on the lines it names. */
  lemma AppliesOnItsLines(original: string, hunks: seq<Hunk>)
    requires InOrder(hunks, 0) && Held(|Lines(original)|, hunks)
    ensures ApplyResult(original, hunks).Patched?
            <==> forall k :: 0 <= k < |hunks| ==> OnItsLines(Lines(original), hunks[k])
  {
    hide FitsOne, OnItsLines, Placed, Lines, InOrder, Render, ApplyFrom, Held, OnePass;
    OrderPlaces(hunks, 0);
    OrderStarts(hunks, 0);
    ApplyIsSimultaneous(original, hunks);
    FitsEach(Lines(original), hunks);
    forall k | 0 <= k < |hunks|
      ensures FitsOne(Lines(original), hunks[k]) <==> OnItsLines(Lines(original), hunks[k])
    {
      FitsOnItsLines(Lines(original), hunks[k]);
    }
    BlameIsError(Lines(original), hunks, 0, 0);
  }

  /** The untouched stretches of a text that the hunks fit. */
  function Gaps(orig: seq<string>, hunks: seq<Hunk>, pos: nat): (gaps: seq<seq<string>>)
    requires Placed(hunks, pos) && FitsAll(orig, hunks) && pos <= |orig|
    ensures |gaps| == |hunks| + 1
    decreases |hunks|
  {
    if hunks == [] then [orig[pos..]]
    else
      var s := Start(hunks[0].oldStart);
      [orig[pos..s]] + Gaps(orig, hunks[1..], s + |OldSide(hunks[0].lines)|)
  }

  lemma {:induction false} GapsWeave(orig: seq<string>, hunks: seq<Hunk>, pos: nat)
    requires Placed(hunks, pos) && FitsAll(orig, hunks) && pos <= |orig|
    ensures var gaps := Gaps(orig, hunks, pos); OldText(gaps, hunks) == orig[pos..] && Stated(gaps, hunks, pos)
    decreases |hunks|
  {
    if hunks != [] {
      hide OldSide;
      var gaps, s, old_ := Gaps(orig, hunks, pos), Start(hunks[0].oldStart), OldSide(hunks[0].lines);
      GapsWeave(orig, hunks[1..], s + |old_|);
      assert gaps[1..] == Gaps(orig, hunks[1..], s + |old_|);
      assert orig[pos..s] + orig[s..s + |old_|] + orig[s + |old_|..] == orig[pos..];
    }
  }

  lemma AppliedIsWoven(original: string, hunks: seq<Hunk>)
    requires InOrder(hunks, 0) && Held(|Lines(original)|, hunks) && ApplyResult(original, hunks).Patched?
    ensures exists gaps :: Woven(Lines(original), gaps, hunks)
  {
    hide Lines, InOrder, Render, ApplyFrom, Held, OnePass, ApplyResult;
    var orig := Lines(original);
    OrderPlaces(hunks, 0);
    ApplyIsSimultaneous(original, hunks);
    BlameIsError(orig, hunks, 0, 0);
    GapsWeave(orig, hunks, 0);
    assert orig[0..] == orig;
    assert Woven(orig, Gaps(orig, hunks, 0), hunks);
  }

  /** A patch in order applies exactly when the text is made of the hunks' old sides, at the lines
      they name, and stretches between them; the result has the new sides between the same stretches. */
  lemma AppliesExactlyToWoven(original: string, hunks: seq<Hunk>)
    requires InOrder(hunks, 0) && Held(|Lines(original)|, hunks)
    ensures ApplyResult(original, hunks).Patched? <==> exists gaps :: Woven(Lines(original), gaps, hunks)
    ensures forall gaps :: Woven(Lines(original), gaps, hunks) ==>
              |gaps| == |hunks| + 1 && ApplyResult(original, hunks) == Patched(Render(NewText(gaps, hunks)))
  {
    hide FitsOne, Placed, Lines, InOrder, Render, ApplyFrom, Held, OnePass, Woven, ApplyResult;
    forall gaps | Woven(Lines(original), gaps, hunks)
      ensures |gaps| == |hunks| + 1 && ApplyResult(original, hunks) == Patched(Render(NewText(gaps, hunks)))
    {
      PlacesAreReplaced(original, gaps, hunks);
    }
    if ApplyResult(original, hunks).Patched? {
      AppliedIsWoven(original, hunks);
    }
  }
}
