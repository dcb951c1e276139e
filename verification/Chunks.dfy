/** Cutting a text into pieces does not depend on how it arrives. */
module Chunks {
  import opened Seqs
  import opened Text

  lemma CutExtends(a: string, b: string, i: nat, n: nat)
    requires i + n <= |a|
    ensures (a + b)[..i] == a[..i] && (a + b)[i + n..] == a[i + n..] + b
  {
  }

  lemma PiecesAt(s: string, sep: string, i: nat)
    requires sep != "" && Find(s, sep) == Some(i)
    ensures Pieces(s, sep).0 == [s[..i]] + Pieces(s[i + |sep|..], sep).0
    ensures Pieces(s, sep).1 == Pieces(s[i + |sep|..], sep).1
  {
  }

  lemma PiecesNone(s: string, sep: string)
    requires sep != "" && Find(s, sep).None?
    ensures Pieces(s, sep).0 == [] && Pieces(s, sep).1 == s
  {
  }

  /** A separator found in a text is found at the same place when more text follows. */
  lemma FindExtends(a: string, b: string, sep: string)
    requires Find(a, sep).Some?
    ensures Find(a + b, sep) == Find(a, sep)
  {
    var s := a + b;
    var i := Find(a, sep).value;
    forall j | 0 <= j <= i ensures At(s, j, sep) <==> At(a, j, sep) {
      assert j + |sep| <= i + |sep| <= |a|;
      assert s[j..j + |sep|] == a[j..j + |sep|];
    }
  }

  lemma PiecesHead(s: string, sep: string, i: nat, x: string, y: string)
    requires sep != "" && Find(s, sep) == Some(i) && s[..i] == x && s[i + |sep|..] == y
    ensures Pieces(s, sep).0 == [x] + Pieces(y, sep).0
    ensures Pieces(s, sep).1 == Pieces(y, sep).1
  {
    PiecesAt(s, sep, i);
  }

  /** The first piece of a text is the first piece of it with more text. */
  lemma PiecesExtend(a: string, b: string, sep: string)
    requires sep != "" && Find(a, sep).Some?
    ensures var i := Find(a, sep).value;
      && Pieces(a + b, sep).0 == [a[..i]] + Pieces(a[i + |sep|..] + b, sep).0
      && Pieces(a + b, sep).1 == Pieces(a[i + |sep|..] + b, sep).1
  {
    var i := Find(a, sep).value;
    FindExtends(a, b, sep);
    CutExtends(a, b, i, |sep|);
    PiecesHead(a + b, sep, i, a[..i], a[i + |sep|..] + b);
  }

  type Finder = string -> Option<nat>
  type Cutter = string -> (seq<string>, string)

  ghost predicate FollowsOn(cut: Cutter, find: Finder, n: nat, s: string) {
    if find(s).None? then cut(s).0 == [] && cut(s).1 == s
    else find(s).value + n <= |s| && CutOnce(cut, s, find(s).value, n)
  }

  /** A cutter that cuts, n long, wherever a finder finds something. */
  ghost predicate Follows(cut: Cutter, find: Finder, n: nat) {
    && n > 0
    && forall s: string :: FollowsOn(cut, find, n, s)
  }

  ghost predicate CutOnce(cut: Cutter, s: string, i: nat, n: nat)
    requires i + n <= |s|
  {
    cut(s).0 == [s[..i]] + cut(s[i + n..]).0 && cut(s).1 == cut(s[i + n..]).1
  }

  /** What is found is found at the same place when more text follows. */
  ghost predicate Steady(find: Finder) {
    forall a: string, b: string :: SteadyOn(find, a, b)
  }

  ghost predicate SteadyOn(find: Finder, a: string, b: string) {
    find(a).Some? ==> find(a + b) == find(a)
  }

  /** One cut, when the rest is cut in parts as it is cut whole. */
  lemma CutStep(cut: Cutter, a: string, b: string, i: nat, n: nat)
    requires i + n <= |a| && CutOnce(cut, a, i, n) && CutOnce(cut, a + b, i, n)
    requires var rest := a[i + n..];
      cut(rest + b).0 == cut(rest).0 + cut(cut(rest).1 + b).0 && cut(rest + b).1 == cut(cut(rest).1 + b).1
    ensures cut(a + b).0 == cut(a).0 + cut(cut(a).1 + b).0 && cut(a + b).1 == cut(cut(a).1 + b).1
  {
    CutExtends(a, b, i, n);
    Reassoc([a[..i]], cut(a[i + n..]).0, cut(cut(a).1 + b).0);
  }

  lemma {:induction false} CutInParts(cut: Cutter, find: Finder, n: nat, a: string, b: string)
    requires Follows(cut, find, n) && Steady(find)
    ensures cut(a + b).0 == cut(a).0 + cut(cut(a).1 + b).0 && cut(a + b).1 == cut(cut(a).1 + b).1
    decreases |a|
  {
    assert FollowsOn(cut, find, n, a) && FollowsOn(cut, find, n, a + b) && SteadyOn(find, a, b);
    if find(a).Some? {
      var i := find(a).value;
      CutInParts(cut, find, n, a[i + n..], b);
      CutStep(cut, a, b, i, n);
    }
  }

  function FinderOf(sep: string): Finder {
    s => Find(s, sep)
  }

  function CutterOf(sep: string): Cutter
    requires sep != ""
  {
    s => Pieces(s, sep)
  }

  lemma PiecesFollow(sep: string)
    requires sep != ""
    ensures Follows(CutterOf(sep), FinderOf(sep), |sep|)
  {
    forall s: string ensures FollowsOn(CutterOf(sep), FinderOf(sep), |sep|, s) {
      match Find(s, sep)
      case None => PiecesNone(s, sep);
      case Some(i) => PiecesAt(s, sep, i);
    }
  }

  lemma FinderSteady(sep: string)
    ensures Steady(FinderOf(sep))
  {
    forall a: string, b: string ensures SteadyOn(FinderOf(sep), a, b) {
      if Find(a, sep).Some? {
        FindExtends(a, b, sep);
      }
    }
  }

  /** The pieces of a text, and of what it leaves with more text, are the pieces of the whole. */
  lemma PiecesInParts(a: string, b: string, sep: string)
    requires sep != ""
    ensures Pieces(a + b, sep).0 == Pieces(a, sep).0 + Pieces(Pieces(a, sep).1 + b, sep).0
    ensures Pieces(a + b, sep).1 == Pieces(Pieces(a, sep).1 + b, sep).1
  {
    PiecesFollow(sep);
    FinderSteady(sep);
    CutInParts(CutterOf(sep), FinderOf(sep), |sep|, a, b);
  }

  // ---- lines ----

  lemma PiecesStep(x: string, rest: string)
    requires '\n' !in x
    ensures Pieces(x + "\n" + rest, "\n").0 == [x] + Pieces(rest, "\n").0
    ensures Pieces(x + "\n" + rest, "\n").1 == Pieces(rest, "\n").1
  {
    var s := x + "\n" + rest;
    FindFirst(x, '\n', rest);
    assert s[..|x|] == x && s[|x| + 1..] == rest;
  }

  lemma {:induction false} PiecesClean(s: string)
    ensures var (pieces, rest) := Pieces(s, "\n");
      (forall i :: 0 <= i < |pieces| ==> '\n' !in pieces[i]) && '\n' !in rest
    decreases |s|
  {
    FindChar(s, '\n');
    if Find(s, "\n").Some? {
      PiecesClean(s[Find(s, "\n").value + 1..]);
    }
  }
}
