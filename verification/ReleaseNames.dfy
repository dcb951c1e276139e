/** Names of release directories and the order they sort in. */
module ReleaseNames {
  import opened Seqs
  import opened Text
  import opened Lexical

  const TmpPrefix := ".incoming-"
  const KeepReleases: nat := 5
  const StampLength: nat := 16

  predicate Incoming(name: string) {
    HasPrefix(name, TmpPrefix)
  }

  /** Where the release of a run is put together. */
  function Staging(runId: string): string {
    TmpPrefix + SanitizeSegment(runId)
  }

  function SanitizeSegment(s: string): string {
    var clean := seq(|s|, i requires 0 <= i < |s| => if IdChar(s[i]) then s[i] else '-');
    if clean == "" then "run" else clean
  }

  predicate IdChar(c: char) {
    'a' <= c <= 'z' || 'A' <= c <= 'Z' || '0' <= c <= '9' || c == '-' || c == '_'
  }

  /** The first seven characters of a commit. */
  function Short(sha: string): string {
    if sha == "" then "unknown" else if |sha| > 7 then sha[..7] else sha
  }

  /** A run id as part of a path: letters, digits, - and _, those it has where they were, and never empty. */
  lemma SafeSegment(s: string)
    ensures Staging(s) == ".incoming-" + SanitizeSegment(s)
    ensures var r := SanitizeSegment(s);
      && r != "" && (s == "" ==> r == "run")
      && (s != "" ==> |r| == |s| && forall i :: 0 <= i < |s| ==> r[i] == if Plain(s[i]) then s[i] else '-')
  {
  }

  predicate Plain(c: char) {
    || 'a' as int <= c as int < 'a' as int + 26 || 'A' as int <= c as int < 'A' as int + 26
    || '0' as int <= c as int < '0' as int + 10 || c in {'-', '_'}
  }

  /** A commit is named by its first seven characters, one that is not known by a word. */
  lemma ShortIs(sha: string)
    ensures sha != "" ==> |Short(sha)| == Min(|sha|, 7) && Short(sha) <= sha
    ensures sha == "" ==> Short(sha) == "unknown"
  {
  }

  function ReleaseName(stamp: string, sha: string): string {
    stamp + "-" + Short(sha)
  }

  function Decimal(n: nat): (s: string)
    ensures s != ""
  {
    var digit := [('0' as int + n % 10) as char];
    if n < 10 then digit else Decimal(n / 10) + digit
  }

  /** What tells the name tried after i taken ones from them. */
  function Suffix(i: nat): string {
    if i == 0 then "" else "." + Decimal(i)
  }

  function NameOf(stamp: string, sha: string, i: nat): string {
    ReleaseName(stamp, sha) + Suffix(i)
  }

  /** The name Promote tries at its i-th reading of the clock. */
  function Candidate(clock: nat -> string, sha: string, i: nat): string {
    NameOf(clock(i), sha, i)
  }

  /** A formatted UTC time: fixed width, starting with a digit. */
  ghost predicate Stamps(clock: nat -> string) {
    forall i: nat :: |clock(i)| == StampLength && clock(i)[0] != '.'
  }

  lemma {:induction false} DecimalInjective(m: nat, n: nat)
    ensures Decimal(m) == Decimal(n) ==> m == n
  {
    if Decimal(m) == Decimal(n) {
      var s := Decimal(m);
      assert s[|s| - 1] == ('0' as int + m % 10) as char == ('0' as int + n % 10) as char;
      if m >= 10 && n >= 10 {
        assert s[..|s| - 1] == Decimal(m / 10) == Decimal(n / 10);
        DecimalInjective(m / 10, n / 10);
      }
    }
  }

  lemma SuffixesDiffer(i: nat, j: nat)
    requires i < j
    ensures Suffix(i) != Suffix(j)
  {
    if i > 0 {
      DecimalInjective(i, j);
      assert Suffix(i)[1..] == Decimal(i) && Suffix(j)[1..] == Decimal(j);
    }
  }

  /** Whatever the clock does in between, no two readings give the same candidate. */
  lemma CandidatesDiffer(clock: nat -> string, sha: string, i: nat, j: nat)
    requires Stamps(clock) && i < j
    ensures Candidate(clock, sha, i) != Candidate(clock, sha, j)
  {
    var a, b := ReleaseName(clock(i), sha), ReleaseName(clock(j), sha);
    assert |a| == |b|;
    SuffixesDiffer(i, j);
    assert (a + Suffix(i))[|a|..] == Suffix(i) && (b + Suffix(j))[|b|..] == Suffix(j);
  }

  /** The first n candidates. */
  ghost function Candidates(clock: nat -> string, sha: string, n: nat): set<string> {
    if n == 0 then {} else Candidates(clock, sha, n - 1) + {Candidate(clock, sha, n - 1)}
  }

  lemma {:induction false} CandidateMember(clock: nat -> string, sha: string, n: nat, c: string)
    ensures c in Candidates(clock, sha, n) <==> exists i :: 0 <= i < n && c == Candidate(clock, sha, i)
  {
    if n == 0 {
    } else {
      CandidateMember(clock, sha, n - 1, c);
    }
  }

  /** So n candidates are n names, and not all of them can be among fewer names. */
  lemma {:induction false} CandidateCount(clock: nat -> string, sha: string, n: nat)
    requires Stamps(clock)
    ensures |Candidates(clock, sha, n)| == n
  {
    if n == 0 {
    } else {
      CandidateCount(clock, sha, n - 1);
      var c := Candidate(clock, sha, n - 1);
      CandidateMember(clock, sha, n - 1, c);
      forall i | 0 <= i < n - 1 ensures Candidate(clock, sha, i) != c {
        CandidatesDiffer(clock, sha, i, n - 1);
      }
    }
  }

  lemma CandidateIsRelease(clock: nat -> string, sha: string, i: nat)
    requires Stamps(clock)
    ensures !Incoming(Candidate(clock, sha, i))
  {
    assert Candidate(clock, sha, i)[0] == clock(i)[0];
    assert TmpPrefix[0] == '.';
  }

  // ---- the order of names ----

  function Code(c: char): int {
    c as int
  }

  predicate Lt(a: string, b: string) {
    Before(a, b, Code)
  }

  lemma LtOrders(a: string, b: string)
    ensures !(Lt(a, b) && Lt(b, a))
    ensures Lt(a, b) || Lt(b, a) || a == b
    ensures !Lt(a, a)
  {
    BeforeOrders(a, b, Code);
  }

  lemma LtTransitive(a: string, b: string, c: string)
    requires Lt(a, b) && Lt(b, c)
    ensures Lt(a, c)
  {
    BeforeTransitive(a, b, c, Code);
  }

  lemma LtSamePrefix(p: string, a: string, b: string)
    ensures Lt(p + a, p + b) <==> Lt(a, b)
  {
    BeforeConcat(p, p, a, b, Code);
    BeforeOrders(p, p, Code);
  }

  /** Names made at different seconds sort by time, whatever follows the stamp. */
  lemma NamesSortByStamp(a: string, b: string, x: string, y: string)
    requires |a| == |b| && Lt(a, b)
    ensures Lt(a + x, b + y)
  {
    BeforeConcat(a, b, x, y, Code);
  }

  // ---- numbers, as text ----

  lemma {:induction false} DecimalOrder(m: nat, n: nat)
    requires |Decimal(m)| == |Decimal(n)|
    ensures Lt(Decimal(m), Decimal(n)) <==> m < n
  {
    var c, d := ('0' as int + m % 10) as char, ('0' as int + n % 10) as char;
    if m < 10 {
      BeforeAppend("", "", c, d, Code);
      assert "" + [c] == [c] && "" + [d] == [d];
    } else {
      DecimalInjective(m / 10, n / 10);
      DecimalOrder(m / 10, n / 10);
      BeforeAppend(Decimal(m / 10), Decimal(n / 10), c, d, Code);
    }
  }

  lemma {:induction false} DecimalLength(m: nat, n: nat)
    requires m <= n
    ensures |Decimal(m)| <= |Decimal(n)|
  {
    if m < 10 {
    } else {
      DecimalLength(m / 10, n / 10);
    }
  }

  function Pow10(k: nat): (p: nat)
    ensures p > 0
  {
    if k == 0 then 1 else 10 * Pow10(k - 1)
  }

  lemma MultipleBelow(p: nat, m: nat, n: nat)
    requires m < n
    ensures p * m + p <= p * n
  {
    assert p * n == p * m + p * (n - m);
    assert p * (n - m) == p + p * (n - m - 1);
  }

  lemma QuotientUnique(n: nat, p: nat, q: nat, r: nat)
    requires r < p && n == p * q + r
    ensures n / p == q
  {
    var d := n / p;
    assert n == p * d + n % p;
    if d < q {
      MultipleBelow(p, d, q);
    } else if q < d {
      MultipleBelow(p, q, d);
    }
  }

  lemma DivideTwice(n: nat, p: nat)
    requires p > 0
    ensures n / 10 / p == n / (10 * p)
  {
    var q, s := n / 10 / p, n / 10 % p;
    assert n / 10 == p * q + s;
    QuotientUnique(n, 10 * p, q, 10 * s + n % 10);
  }

  /** n without its last k digits. */
  function Cut(n: nat, k: nat): nat {
    if k == 0 then n else Cut(n / 10, k - 1)
  }

  lemma {:induction false} CutDivides(n: nat, k: nat)
    ensures Cut(n, k) == n / Pow10(k)
  {
    if k == 0 {
    } else {
      CutDivides(n / 10, k - 1);
      DivideTwice(n, Pow10(k - 1));
    }
  }

  lemma {:induction false} DecimalPrefix(n: nat, k: nat)
    requires k < |Decimal(n)|
    ensures Decimal(n)[..|Decimal(n)| - k] == Decimal(Cut(n, k))
  {
    if k == 0 {
      assert Decimal(n)[..|Decimal(n)|] == Decimal(n);
    } else {
      var d := Decimal(n / 10);
      DecimalPrefix(n / 10, k - 1);
      assert Decimal(n)[..|Decimal(n)| - k] == d[..|d| - (k - 1)];
    }
  }

  /** Whether suffix i sorts before the later suffix j: j, cut to as many digits as i has, must not be below i. */
  predicate SortsUp(i: nat, j: nat)
    requires i < j
  {
    DecimalLength(i, j);
    i == 0 || i <= j / Pow10(|Decimal(j)| - |Decimal(i)|)
  }

  lemma DecimalBefore(i: nat, j: nat, k: nat)
    requires i < j && |Decimal(j)| == |Decimal(i)| + k
    ensures Lt(Decimal(i), Decimal(j)) <==> i <= Cut(j, k)
  {
    BeforeLonger(Decimal(i), Decimal(j), Code);
    DecimalPrefix(j, k);
    DecimalOrder(i, Cut(j, k));
    DecimalInjective(i, Cut(j, k));
  }

  lemma SuffixOrder(i: nat, j: nat)
    requires i < j
    ensures Lt(Suffix(i), Suffix(j)) <==> SortsUp(i, j)
  {
    if i > 0 {
      DecimalLength(i, j);
      var k := |Decimal(j)| - |Decimal(i)|;
      LtSamePrefix(".", Decimal(i), Decimal(j));
      DecimalBefore(i, j, k);
      CutDivides(j, k);
    }
  }

  /** Within one second, two tries of one commit sort in order exactly when their numbers do as text. */
  lemma SameSecondOrder(clock: nat -> string, sha: string, i: nat, j: nat)
    requires clock(i) == clock(j) && i < j
    ensures Lt(Candidate(clock, sha, i), Candidate(clock, sha, j)) <==> SortsUp(i, j)
  {
    LtSamePrefix(ReleaseName(clock(i), sha), Suffix(i), Suffix(j));
    SuffixOrder(i, j);
  }

  /** The tenth redeploy within one second sorts before the second. */
  lemma TenBeforeTwo(clock: nat -> string, sha: string)
    requires clock(2) == clock(10)
    ensures Lt(Candidate(clock, sha, 10), Candidate(clock, sha, 2))
  {
    assert Decimal(2) == "2" && Decimal(10) == Decimal(1) + "0";
    LtOrders(Candidate(clock, sha, 10), Candidate(clock, sha, 2));
    assert NameOf(clock(2), sha, 2) != NameOf(clock(2), sha, 10) by {
      SuffixesDiffer(2, 10);
    }
    SameSecondOrder(clock, sha, 2, 10);
  }

  // ---- any two names ----

  /** Made of letters and digits, as commit ids are. */
  predicate Alphanumeric(s: string) {
    forall c :: c in s ==> c > '.'
  }

  predicate SuffixBelow(i: nat, j: nat) {
    (i < j && SortsUp(i, j)) || (j < i && !SortsUp(j, i))
  }

  lemma SuffixBelowExact(i: nat, j: nat)
    ensures Lt(Suffix(i), Suffix(j)) <==> SuffixBelow(i, j)
  {
    LtOrders(Suffix(i), Suffix(j));
    if i < j {
      SuffixOrder(i, j);
    } else if j < i {
      SuffixOrder(j, i);
      SuffixesDiffer(j, i);
    }
  }

  lemma ShortAlphanumeric(sha: string)
    requires Alphanumeric(sha)
    ensures Alphanumeric(Short(sha))
  {
    var unknown := "unknown";
    assert forall i :: 0 <= i < |unknown| ==> unknown[i] > '.';
    forall c | c in Short(sha) ensures c > '.' {
      assert sha == "" ==> c in unknown;
      assert sha != "" ==> c in sha;
    }
  }

  /** A suffix starts with a dot, below every letter and digit. */
  lemma SuffixUnder(i: nat, s: string)
    requires Alphanumeric(s)
    ensures Under(Suffix(i), s, Code)
  {
  }

  lemma CommitOrder(x: string, y: string, i: nat, j: nat)
    requires Alphanumeric(x) && Alphanumeric(y)
    ensures Lt(x + Suffix(i), y + Suffix(j)) <==> Lt(x, y) || (x == y && SuffixBelow(i, j))
  {
    SuffixUnder(i, y);
    SuffixUnder(j, x);
    BeforeSplit(x, y, Suffix(i), Suffix(j), Code);
    SuffixBelowExact(i, j);
  }

  /**
   * Which of two release names is the greater: the one of the later second; within one second the
   * one whose short commit is greater as text; for one commit the one whose number is.
   */
  lemma GreaterName(s: string, t: string, x: string, y: string, i: nat, j: nat)
    requires |s| == |t| && Alphanumeric(x) && Alphanumeric(y)
    ensures Lt(NameOf(s, x, i), NameOf(t, y, j)) <==>
            Lt(s, t) || (s == t && (Lt(Short(x), Short(y)) || (Short(x) == Short(y) && SuffixBelow(i, j))))
  {
    ShortAlphanumeric(x);
    ShortAlphanumeric(y);
    CommitOrder(Short(x), Short(y), i, j);
    NameOrder(s, t, Short(x) + Suffix(i), Short(y) + Suffix(j));
    Glue(s, Short(x), Suffix(i));
    Glue(t, Short(y), Suffix(j));
  }

  lemma Glue(s: string, short: string, suffix: string)
    ensures s + "-" + short + suffix == s + ("-" + (short + suffix))
  {
  }

  lemma NameOrder(s: string, t: string, a: string, b: string)
    requires |s| == |t|
    ensures Lt(s + ("-" + a), t + ("-" + b)) <==> Lt(s, t) || (s == t && Lt(a, b))
  {
    LtSamePrefix("-", a, b);
    BeforeConcat(s, t, "-" + a, "-" + b, Code);
  }

  /** So of two commits deployed in one second the one with the greater text sorts last, whichever came later. */
  lemma LaterCommitFirst(stamp: string)
    ensures Lt(NameOf(stamp, "aaaaaaa", 0), NameOf(stamp, "bbbbbbb", 0))
  {
    GreaterName(stamp, stamp, "aaaaaaa", "bbbbbbb", 0, 0);
  }

  // ---- newest first ----

  ghost predicate Descending(names: seq<string>) {
    forall i, j :: 0 <= i < j < |names| ==> Lt(names[j], names[i])
  }

  /** How many of a set of names are newer than one name. */
  ghost function Newer(all: set<string>, name: string): nat {
    |set m | m in all && Lt(name, m)|
  }

  function InsertDescending(names: seq<string>, n: string): seq<string> {
    if names == [] then [n]
    else if Lt(names[0], n) then [n] + names
    else [names[0]] + InsertDescending(names[1..], n)
  }

  lemma {:induction false} InsertMembers(names: seq<string>, n: string)
    ensures Elems(InsertDescending(names, n)) == Elems(names) + {n}
  {
    if names == [] {
    } else if Lt(names[0], n) {
    } else {
      InsertMembers(names[1..], n);
      assert names == [names[0]] + names[1..];
      assert forall x :: x in InsertDescending(names[1..], n) <==> x in Elems(InsertDescending(names[1..], n));
    }
  }

  lemma AllBelow(names: seq<string>)
    requires names != [] && Descending(names)
    ensures Descending(names[1..]) && forall x :: x in names[1..] ==> Lt(x, names[0])
  {
  }

  lemma AllBelowCons(n: string, names: seq<string>)
    requires Descending(names) && forall x :: x in names ==> Lt(x, n)
    ensures Descending([n] + names)
  {
  }

  lemma {:induction false} InsertKeepsOrder(names: seq<string>, n: string)
    requires Descending(names) && n !in names
    ensures Descending(InsertDescending(names, n))
  {
    if names == [] {
    } else {
      AllBelow(names);
      LtOrders(names[0], n);
      if Lt(names[0], n) {
        forall x | x in names ensures Lt(x, n) {
          if x != names[0] {
            LtTransitive(x, names[0], n);
          }
        }
        AllBelowCons(n, names);
      } else {
        InsertKeepsOrder(names[1..], n);
        InsertMembers(names[1..], n);
        forall x | x in InsertDescending(names[1..], n) ensures Lt(x, names[0]) {
          assert x in Elems(InsertDescending(names[1..], n));
        }
        AllBelowCons(names[0], InsertDescending(names[1..], n));
      }
    }
  }

  lemma {:induction false} DescendingSize(names: seq<string>)
    requires Descending(names)
    ensures |Elems(names)| == |names|
  {
    if names == [] {
    } else {
      AllBelow(names);
      DescendingSize(names[1..]);
      LtOrders(names[0], names[0]);
      assert Elems(names) == {names[0]} + Elems(names[1..]);
    }
  }

  /** Newest first, a name's index is the number of newer names. */
  lemma NewerIsIndex(names: seq<string>, k: nat)
    requires Descending(names) && k < |names|
    ensures Newer(Elems(names), names[k]) == k
  {
    forall m ensures m in Elems(names) && Lt(names[k], m) <==> m in Elems(names[..k]) {
      if m in Elems(names) && Lt(names[k], m) {
        var i :| 0 <= i < |names| && names[i] == m;
        LtOrders(names[k], names[i]);
        assert i < k;
        assert names[..k][i] == m;
      }
      if m in Elems(names[..k]) {
        var i :| 0 <= i < k && names[..k][i] == m;
        assert names[i] == m;
      }
    }
    assert (set m | m in Elems(names) && Lt(names[k], m)) == Elems(names[..k]);
    DescendingSize(names[..k]);
  }
}
