/** Keeping file tools within their root. A clean absolute path is its list of names; symbolic
    links are resolved by an arbitrary function from existing paths to clean absolute paths. */
module PathContainment {
  import opened Prelude

  type Path = seq<string>

  const SEPARATOR := "/"

  predicate IsName(c: string) {
    c != "" && '/' !in c && c != "." && c != ".."
  }

  ghost predicate IsClean(p: Path) {
    forall i :: 0 <= i < |p| ==> IsName(p[i])
  }

  function ShowNames(p: Path): string {
    if p == [] then "" else SEPARATOR + p[0] + ShowNames(p[1..])
  }

  function Show(p: Path): string {
    if p == [] then SEPARATOR else ShowNames(p)
  }

  /** The containment test, on the paths' text. */
  predicate IsWithinRoot(resolved: string, root: string) {
    resolved == root || HasPrefix(resolved, root + SEPARATOR)
  }

  // ---------- the test on text against the test on names ----------

  /** The end of a path's text, or the start of its next name. */
  predicate Closed(s: string) {
    s == "" || s[0] == '/'
  }

  lemma ConsPrefix(s: string, t: string)
    requires s != "" && t != ""
    ensures s <= t <==> s[0] == t[0] && s[1..] <= t[1..]
  {
    assert s == [s[0]] + s[1..] && t == [t[0]] + t[1..];
  }

  /** Names end at the first separator, so texts compare name by name. */
  lemma {:induction false} FirstNames(a: string, x: string, b: string, y: string)
    requires '/' !in a && '/' !in b && x != "" && x[0] == '/' && Closed(y)
    ensures a + x <= b + y <==> a == b && x <= y
  {
    if a == "" && b == "" {
      assert a + x == x && b + y == y;
    } else if b + y != "" {
      ConsPrefix(a + x, b + y);
      if a == "" {
        assert (a + x)[0] == '/' && (b + y)[0] == b[0] && b[0] in b;
      } else if b == "" {
        assert (a + x)[0] == a[0] && a[0] in a && (b + y)[0] == '/';
      } else {
        assert (a + x)[1..] == a[1..] + x && (b + y)[1..] == b[1..] + y;
        FirstNames(a[1..], x, b[1..], y);
        assert a == [a[0]] + a[1..] && b == [b[0]] + b[1..];
      }
    }
  }

  /** The text of r and a separator, one name taken off. */
  lemma NamesTail(r: Path, end: string)
    requires r != []
    ensures ShowNames(r) + end != "" && (ShowNames(r) + end)[0] == '/'
    ensures (ShowNames(r) + end)[1..] == r[0] + (ShowNames(r[1..]) + end)
  {
    assert ShowNames(r) + end == SEPARATOR + (r[0] + (ShowNames(r[1..]) + end));
  }

  lemma PathPrefix(r: Path, a: Path)
    requires r != [] && a != []
    ensures r <= a <==> r[0] == a[0] && r[1..] <= a[1..]
  {
    assert r == [r[0]] + r[1..] && a == [a[0]] + a[1..];
  }

  lemma {:induction false} PrefixIsProper(a: Path, r: Path)
    requires IsClean(a) && IsClean(r)
    ensures ShowNames(r) + SEPARATOR <= ShowNames(a) <==> |r| < |a| && r <= a
  {
    if r == [] {
      assert ShowNames(r) + SEPARATOR == SEPARATOR;
      if a != [] {
        NamesTail(a, "");
        assert ShowNames(a) + "" == ShowNames(a);
      }
    } else if a != [] {
      var s, t := ShowNames(r) + SEPARATOR, ShowNames(a);
      assert t + "" == t && ShowNames(a[1..]) + "" == ShowNames(a[1..]);
      NamesTail(r, SEPARATOR);
      NamesTail(a, "");
      ConsPrefix(s, t);
      assert IsName(r[0]) && IsName(a[0]);
      assert IsClean(r[1..]) && IsClean(a[1..]);
      FirstNames(r[0], ShowNames(r[1..]) + SEPARATOR, a[0], ShowNames(a[1..]));
      PrefixIsProper(a[1..], r[1..]);
      PathPrefix(r, a);
    }
  }

  /** Different clean paths have different texts. */
  lemma {:induction false} ShowInjective(a: Path, r: Path)
    requires IsClean(a) && IsClean(r) && ShowNames(a) == ShowNames(r)
    ensures a == r
  {
    if a != [] && r != [] {
      var x, y := ShowNames(a[1..]) + SEPARATOR, ShowNames(r[1..]) + SEPARATOR;
      NamesTail(a, SEPARATOR);
      NamesTail(r, SEPARATOR);
      assert IsName(a[0]) && IsName(r[0]);
      FirstNames(a[0], x, r[0], y);
      assert |x| == |y|;
      assert x == y;
      assert ShowNames(a[1..]) == x[..|x| - 1] && ShowNames(r[1..]) == y[..|y| - 1];
      assert IsClean(a[1..]) && IsClean(r[1..]);
      ShowInjective(a[1..], r[1..]);
      assert a == [a[0]] + a[1..] && r == [r[0]] + r[1..];
    }
  }

  /** The test on text is the test on names, for every root but "/", which admits only itself. */
  lemma WithinIsPrefix(a: Path, r: Path)
    requires IsClean(a) && IsClean(r)
    ensures IsWithinRoot(Show(a), Show(r)) <==> r <= a && (r != [] || a == [])
  {
    if r == [] {
      if a != [] {
        assert IsName(a[0]);
        assert Show(a)[1] == a[0][0];
        assert a[0][0] in a[0];
        assert (SEPARATOR + SEPARATOR)[1] == '/';
      }
    } else if a == [] {
      assert IsName(r[0]) && |Show(r)| > 1;
    } else {
      PrefixIsProper(a, r);
      assert r <= a && |r| == |a| ==> r == a;
      if Show(a) == Show(r) {
        ShowInjective(a, r);
      }
    }
  }

  // ---------- cleaning ----------

  function Pieces(s: string): (r: seq<string>)
    ensures r != []
    ensures forall i :: 0 <= i < |r| ==> '/' !in r[i]
  {
    if s == "" then [""]
    else
      var r := Pieces(s[1..]);
      if s[0] == '/' then [""] + r else [[s[0]] + r[0]] + r[1..]
  }

  /** One more piece of a path. */
  function Enter(absolute: bool, done: seq<string>, piece: string): seq<string> {
    if piece == "" || piece == "." then done
    else if piece == ".." then
      if done != [] && done[|done| - 1] != ".." then done[..|done| - 1]
      else if absolute then done
      else done + [".."]
    else done + [piece]
  }

  function CleanPieces(absolute: bool, pieces: seq<string>): seq<string> {
    if pieces == [] then [] else Enter(absolute, CleanPieces(absolute, pieces[..|pieces| - 1]), pieces[|pieces| - 1])
  }

  lemma {:induction false} CleanPiecesClean(pieces: seq<string>)
    requires forall i :: 0 <= i < |pieces| ==> '/' !in pieces[i]
    ensures IsClean(CleanPieces(true, pieces))
  {
    if pieces != [] {
      CleanPiecesClean(pieces[..|pieces| - 1]);
      var done := CleanPieces(true, pieces[..|pieces| - 1]);
      assert done != [] ==> IsName(done[|done| - 1]);
    }
  }

  lemma {:induction false} CleanPiecesPlain(absolute: bool, pieces: seq<string>)
    requires forall i :: 0 <= i < |pieces| ==> '/' !in pieces[i]
    ensures forall i :: 0 <= i < |CleanPieces(absolute, pieces)| ==> '/' !in CleanPieces(absolute, pieces)[i]
  {
    if pieces != [] {
      CleanPiecesPlain(absolute, pieces[..|pieces| - 1]);
    }
  }

  predicate IsAbsolute(rel: string) {
    rel != "" && rel[0] == '/'
  }

  function CleanRel(rel: string): seq<string> {
    CleanPieces(IsAbsolute(rel), Pieces(rel))
  }

  /** The root joined with the cleaned path, and cleaned again. */
  function Target(root: Path, rel: string): Path {
    CleanPieces(true, root + CleanRel(rel))
  }

  lemma TargetClean(root: Path, rel: string)
    requires IsClean(root)
    ensures IsClean(Target(root, rel))
  {
    CleanPiecesPlain(IsAbsolute(rel), Pieces(rel));
    var pieces := root + CleanRel(rel);
    assert forall i :: 0 <= i < |root| ==> IsName(root[i]);
    CleanPiecesClean(pieces);
  }

  // ---------- where a path leads ----------

  /** The directory reached by one step: up, down, or nowhere. There is nothing above the top. */
  function Step(dir: Path, piece: string): Path {
    if piece == ".." then (if dir == [] then [] else dir[..|dir| - 1])
    else if piece == "" || piece == "." then dir
    else dir + [piece]
  }

  /** The directory reached from dir by following the pieces one after another. */
  function Walk(dir: Path, pieces: seq<string>): Path {
    if pieces == [] then dir else Step(Walk(dir, pieces[..|pieces| - 1]), pieces[|pieces| - 1])
  }

  lemma WalkOne(dir: Path, pieces: seq<string>, piece: string)
    ensures Walk(dir, pieces + [piece]) == Step(Walk(dir, pieces), piece)
  {
    assert (pieces + [piece])[..|pieces|] == pieces;
  }

  lemma {:induction false} WalkOn(dir: Path, a: seq<string>, b: seq<string>)
    ensures Walk(dir, a + b) == Walk(Walk(dir, a), b)
  {
    if b == [] {
      assert a + b == a;
    } else {
      var front := b[..|b| - 1];
      WalkOn(dir, a, front);
      assert a + b == a + front + [b[|b| - 1]];
      WalkOne(dir, a + front, b[|b| - 1]);
    }
  }

  lemma {:induction false} WalkNames(dir: Path, names: Path)
    requires IsClean(names)
    ensures Walk(dir, names) == dir + names
  {
    if names != [] {
      WalkNames(dir, names[..|names| - 1]);
      assert IsName(names[|names| - 1]);
    }
  }

  /** Cleaning from the top is walking from the top. */
  lemma {:induction false} CleanFromTop(pieces: seq<string>)
    requires forall i :: 0 <= i < |pieces| ==> '/' !in pieces[i]
    ensures CleanPieces(true, pieces) == Walk([], pieces)
  {
    if pieces != [] {
      var front := pieces[..|pieces| - 1];
      CleanFromTop(front);
      CleanPiecesClean(front);
      var done := CleanPieces(true, front);
      assert done != [] ==> IsName(done[|done| - 1]);
    }
  }

  /** What cleaning leaves are names and ways up. */
  lemma {:induction false} CleanLeaves(pieces: seq<string>)
    ensures forall i :: 0 <= i < |CleanPieces(false, pieces)| ==> CleanPieces(false, pieces)[i] !in ["", "."]
  {
    if pieces != [] {
      CleanLeaves(pieces[..|pieces| - 1]);
    }
  }

  /** A name and a way up cancel out. */
  lemma UpFromName(dir: Path, done: seq<string>)
    requires done != [] && done[|done| - 1] !in ["", ".", ".."]
    ensures Step(Walk(dir, done), "..") == Walk(dir, done[..|done| - 1])
  {
  }

  lemma EnterLeadsThere(dir: Path, done: seq<string>, piece: string)
    requires forall i :: 0 <= i < |done| ==> done[i] !in ["", "."]
    ensures Walk(dir, Enter(false, done, piece)) == Step(Walk(dir, done), piece)
  {
    hide Walk;
    if piece == ".." && done != [] && done[|done| - 1] != ".." {
      UpFromName(dir, done);
    } else if piece != "" && piece != "." {
      WalkOne(dir, done, piece);
    }
  }

  /** Cleaning a relative path does not change where it leads, from any directory. */
  lemma {:induction false} CleanLeadsThere(dir: Path, pieces: seq<string>)
    ensures Walk(dir, CleanPieces(false, pieces)) == Walk(dir, pieces)
  {
    if pieces != [] {
      var front := pieces[..|pieces| - 1];
      CleanLeadsThere(dir, front);
      CleanLeaves(front);
      EnterLeadsThere(dir, CleanPieces(false, front), pieces[|pieces| - 1]);
    }
  }

  /** The pieces of a path are its text between separators. */
  lemma {:induction false} PiecesJoin(s: string)
    ensures Join(Pieces(s), "/") == s
  {
    if s != "" {
      PiecesJoin(s[1..]);
      var r := Pieces(s[1..]);
      if s[0] == '/' {
        assert ([""] + r)[1..] == r;
        assert "" + "/" + s[1..] == s;
      } else {
        assert ([[s[0]] + r[0]] + r[1..])[1..] == r[1..];
        assert s == [s[0]] + s[1..];
      }
    }
  }

  /** A path is looked up where its pieces lead: one that starts with a separator is walked from the
      top and then put under the root, any other is walked from the root, past it where it says so. */
  lemma TargetIsWalked(root: Path, rel: string)
    requires IsClean(root)
    ensures var pieces := Pieces(rel);
            && Join(pieces, "/") == rel && (forall i :: 0 <= i < |pieces| ==> '/' !in pieces[i])
            && Target(root, rel) == if IsAbsolute(rel) then root + Walk([], pieces) else Walk(root, pieces)
  {
    var pieces, names := Pieces(rel), CleanRel(rel);
    PiecesJoin(rel);
    CleanPiecesPlain(IsAbsolute(rel), pieces);
    assert forall i :: 0 <= i < |root| ==> IsName(root[i]);
    CleanFromTop(root + names);
    WalkOn([], root, names);
    WalkNames([], root);
    assert [] + root == root;
    if IsAbsolute(rel) {
      CleanPiecesClean(pieces);
      WalkNames(root, names);
      CleanFromTop(pieces);
    } else {
      CleanLeadsThere(root, pieces);
    }
  }

  // ---------- validation ----------

  datatype Verdict = Allowed(path: Path) | NullByte | Outside | NoAncestor

  /** What symbolic links make of an existing path; None when it does not exist. */
  type Links = Path -> Option<Path>

  ghost predicate LinksClean(links: Links) {
    forall p :: links(p).Some? ==> IsClean(links(p).value)
  }

  /** The longest proper prefix of target, shorter than n, that exists. */
  function Nearest(links: Links, target: Path, n: nat): (r: Option<nat>)
    requires n <= |target|
    ensures r.Some? ==>
              && r.value < n && links(target[..r.value]).Some?
              && forall k :: r.value < k < n ==> links(target[..k]).None?
    ensures r.None? ==> forall k :: 0 <= k < n ==> links(target[..k]).None?
  {
    if n == 0 then None
    else if links(target[..n - 1]).Some? then Some(n - 1)
    else Nearest(links, target, n - 1)
  }

  function Admit(root: Path, resolved: Path, remainder: Path): Verdict {
    if IsWithinRoot(Show(resolved), Show(root)) then Allowed(resolved + remainder) else Outside
  }

  function Validated(links: Links, root: Path, rel: string): Verdict {
    if 0 as char in rel then NullByte
    else if !IsAbsolute(rel) && CleanRel(rel) == [] then Allowed(root)
    else
      var target := Target(root, rel);
      if links(target).Some? then Admit(root, links(target).value, [])
      else match Nearest(links, target, |target|)
        case None => NoAncestor
        case Some(n) => Admit(root, links(target[..n]).value, target[n..])
  }

  method ValidateAncestor(links: Links, root: Path, target: Path) returns (v: Verdict)
    ensures v == match Nearest(links, target, |target|)
                 case None => NoAncestor
                 case Some(n) => Admit(root, links(target[..n]).value, target[n..])
  {
    var dir := target;
    while dir != []
      invariant dir == target[..|dir|] && |dir| <= |target|
      invariant Nearest(links, target, |target|) == Nearest(links, target, |dir|)
      decreases |dir|
    {
      dir := dir[..|dir| - 1];
      var resolved := links(dir);
      if resolved.None? {
        continue;
      }
      if !IsWithinRoot(Show(resolved.value), Show(root)) {
        return Outside;
      }
      return Allowed(resolved.value + target[|dir|..]);
    }
    return NoAncestor;
  }

  method ValidatePath(links: Links, root: Path, rel: string) returns (v: Verdict)
    ensures v == Validated(links, root, rel)
  {
    if 0 as char in rel {
      return NullByte;
    }
    var cleaned := CleanRel(rel);
    if !IsAbsolute(rel) && cleaned == [] {
      return Allowed(root);
    }
    var target := CleanPieces(true, root + cleaned);
    var resolved := links(target);
    if resolved.Some? {
      if !IsWithinRoot(Show(resolved.value), Show(root)) {
        return Outside;
      }
      assert resolved.value + [] == resolved.value;
      return Allowed(resolved.value);
    }
    v := ValidateAncestor(links, root, target);
  }

  /** What decides: the target itself if it exists, else its nearest existing ancestor. */
  ghost predicate Anchored(links: Links, target: Path, n: nat) {
    n <= |target| && links(target[..n]).Some? && forall k :: n < k <= |target| ==> links(target[..k]).None?
  }

  /** A path is allowed exactly when its anchor resolves to the root or below (to the root itself, for
      the root "/"), and what is allowed is the anchor followed by the names that do not exist yet:
      always the root or below, and a clean path. */
  lemma AllowedStaysInside(links: Links, root: Path, rel: string)
    requires IsClean(root) && LinksClean(links)
    requires 0 as char !in rel && (IsAbsolute(rel) || CleanRel(rel) != [])
    ensures var v, target := Validated(links, root, rel), Target(root, rel);
            && (v.Allowed?
                <==> exists n: nat ::
                  Anchored(links, target, n) && root <= links(target[..n]).value
                  && (root != [] || links(target[..n]).value == []))
            && (v.Allowed? ==>
                exists n: nat :: Anchored(links, target, n) && v.path == links(target[..n]).value + target[n..])
            && (v.Allowed? ==> root <= v.path && IsClean(v.path))
  {
    var target := Target(root, rel);
    TargetClean(root, rel);
    if links(target).Some? {
      var n := |target|;
      assert target[..n] == target;
      assert Anchored(links, target, n);
      AnchorDecides(links, root, target, n);
      assert target[n..] == [];
    } else {
      var near := Nearest(links, target, |target|);
      assert target[..|target|] == target;
      if near.Some? {
        assert Anchored(links, target, near.value);
        AnchorDecides(links, root, target, near.value);
      } else {
        assert forall n: nat :: n <= |target| ==> links(target[..n]).None?;
      }
    }
  }

  lemma AnchorDecides(links: Links, root: Path, target: Path, n: nat)
    requires IsClean(root) && IsClean(target) && LinksClean(links) && Anchored(links, target, n)
    ensures var resolved := links(target[..n]).value;
            && (Admit(root, resolved, target[n..]).Allowed? <==> root <= resolved && (root != [] || resolved == []))
            && IsClean(resolved + target[n..])
            && (root <= resolved ==> root <= resolved + target[n..])
            && forall m: nat :: Anchored(links, target, m) ==> m == n
  {
    var resolved := links(target[..n]).value;
    WithinIsPrefix(resolved, root);
  }
}
