/** The string operations the parsers and printers are built from. */
module Text {
  import opened Seqs

  /** Unicode white space, as Go's unicode.IsSpace lists it. */
  predicate IsSpace(c: char) {
    var n := c as int;
    9 <= n <= 13 || n == 0x20 || n == 0x85 || n == 0xA0 || n == 0x1680 || 0x2000 <= n <= 0x200A ||
    n == 0x2028 || n == 0x2029 || n == 0x202F || n == 0x205F || n == 0x3000
  }

  function TrimLeft(s: string): (r: string)
    ensures |r| <= |s| && r == s[|s| - |r|..]
    ensures r != "" ==> !IsSpace(r[0])
    ensures forall i :: 0 <= i < |s| - |r| ==> IsSpace(s[i])
  {
    if s == "" then s
    else if IsSpace(s[0]) then TrimLeft(s[1..])
    else s
  }

  function TrimRight(s: string): (r: string)
    ensures |r| <= |s| && r == s[..|r|]
    ensures r != "" ==> !IsSpace(r[|r| - 1])
    ensures forall i :: |r| <= i < |s| ==> IsSpace(s[i])
  {
    if s == "" then s
    else if IsSpace(s[|s| - 1]) then TrimRight(s[..|s| - 1])
    else s
  }

  function Trim(s: string): (r: string)
    ensures Trimmed(r)
    ensures |r| <= |s| && (|r| == |s| ==> r == s)
    ensures forall c :: c in r ==> c in s
  {
    var l := TrimLeft(s);
    var r := TrimRight(l);
    assert r != "" ==> r[0] == l[0];
    r
  }

  /** No white space at either end. */
  predicate Trimmed(s: string) {
    s == "" || (!IsSpace(s[0]) && !IsSpace(s[|s| - 1]))
  }

  /** Without the carriage returns at the end. */
  function TrimReturns(s: string): (r: string)
    ensures |r| <= |s| && r == s[..|r|]
    ensures s == "" || s[|s| - 1] != '\r' ==> r == s
    ensures r != "" ==> r[|r| - 1] != '\r'
  {
    if s != "" && s[|s| - 1] == '\r' then TrimReturns(s[..|s| - 1]) else s
  }

  /** Trimming cuts off white space at both ends and nothing else. */
  lemma TrimCuts(s: string) returns (i: nat, j: nat)
    ensures i <= j <= |s| && Trim(s) == s[i..j]
    ensures forall k :: 0 <= k < |s| && (k < i || j <= k) ==> IsSpace(s[k])
  {
    var l := TrimLeft(s);
    i, j := |s| - |l|, |s| - |l| + |TrimRight(l)|;
    forall k | j <= k < |s| ensures IsSpace(s[k]) {
      assert s[k] == l[k - i];
    }
    assert TrimRight(l) == l[..j - i] == s[i..j];
  }

  ghost predicate AllSpace(s: string) {
    forall i :: 0 <= i < |s| ==> IsSpace(s[i])
  }

  lemma BlankIsSpace(s: string)
    ensures Trim(s) == "" <==> AllSpace(s)
  {
    var i, j := TrimCuts(s);
    assert Trim(s) != "" ==> Trim(s)[0] == s[i];
  }

  lemma TrimOfTrimmed(s: string)
    requires Trimmed(s)
    ensures Trim(s) == s
  {
  }

  predicate HasPrefix(s: string, p: string) {
    p <= s
  }

  predicate At(s: string, i: int, sep: string) {
    0 <= i <= |s| - |sep| && s[i..i + |sep|] == sep
  }

  lemma AtTail(s: string, i: int, sep: string)
    requires 0 < i <= |s|
    ensures At(s, i, sep) <==> At(s[1..], i - 1, sep)
  {
    if i <= |s| - |sep| {
      assert s[i..i + |sep|] == s[1..][i - 1..i - 1 + |sep|];
    }
  }

  /** The leftmost place where sep occurs in s. */
  function Find(s: string, sep: string): (r: Option<nat>)
    ensures r.Some? ==> At(s, r.value, sep) && forall i :: 0 <= i < r.value ==> !At(s, i, sep)
    ensures r.None? ==> forall i :: 0 <= i <= |s| ==> !At(s, i, sep)
  {
    if |s| < |sep| then None
    else if s[..|sep|] == sep then Some(0)
    else
      assert !At(s, 0, sep);
      assert forall i :: 0 < i <= |s| ==> (At(s, i, sep) <==> At(s[1..], i - 1, sep)) by {
        forall i | 0 < i <= |s| { AtTail(s, i, sep); }
      }
      match Find(s[1..], sep)
      case None => None
      case Some(i) => Some(i + 1)
  }

  lemma FindChar(s: string, c: char)
    ensures Find(s, [c]).Some? <==> c in s
    ensures Find(s, [c]).Some? ==> s[Find(s, [c]).value] == c && c !in s[..Find(s, [c]).value]
  {
    forall i | 0 <= i < |s| ensures At(s, i, [c]) <==> s[i] == c {
      assert s[i..i + 1] == [s[i]];
    }
  }

  lemma FindFirst(x: string, c: char, rest: string)
    requires c !in x
    ensures Find(x + [c] + rest, [c]) == Some(|x|)
  {
    var s := x + [c] + rest;
    assert At(s, |x|, [c]) by {
      assert s[|x|..|x| + 1] == [c];
    }
    forall i | 0 <= i < |x| ensures !At(s, i, [c]) {
      assert s[i..i + 1][0] == x[i];
    }
  }

  predicate Contains(s: string, sep: string) {
    Find(s, sep).Some?
  }

  /** The pieces of s that a separator ends, and what is left after the last one. */
  function Pieces(s: string, sep: string): (r: (seq<string>, string))
    requires sep != ""
    ensures Find(r.1, sep).None?
    decreases |s|
  {
    match Find(s, sep)
    case None => ([], s)
    case Some(i) =>
      var (more, rest) := Pieces(s[i + |sep|..], sep);
      ([s[..i]] + more, rest)
  }

  function Split(s: string, sep: string): (r: seq<string>)
    requires sep != ""
    ensures r != []
  {
    var (pieces, rest) := Pieces(s, sep);
    pieces + [rest]
  }

  function Join(parts: seq<string>, sep: string): string {
    if parts == [] then ""
    else if |parts| == 1 then parts[0]
    else parts[0] + sep + Join(parts[1..], sep)
  }

  lemma JoinNonempty(parts: seq<string>, sep: string)
    requires forall i :: 0 <= i < |parts| ==> parts[i] != ""
    ensures Join(parts, sep) == "" <==> parts == []
  {
  }
}
