/** The release layout of one project: directories under releases/ and the `current` link. */
module Release {
  import opened Seqs
  import opened Text
  import opened ReleaseNames

  /** The release directories: every directory but the incoming ones. */
  function Releases(dirs: map<string, string>): set<string> {
    set n | n in dirs && !Incoming(n)
  }

  /** The commit recorded in a directory; a directory without a marker file maps to "". */
  function ShaOf(dirs: map<string, string>, n: string): string
    requires n in dirs
  {
    Trim(dirs[n])
  }

  /** What Prune must not delete: the live release and those with fewer than five newer ones. */
  ghost predicate Protected(dirs: map<string, string>, live: Option<string>, n: string) {
    live == Some(n) || Newer(Releases(dirs), n) < 5
  }

  ghost predicate Greatest(dirs: map<string, string>, sha: string, n: string) {
    && n in Releases(dirs) && ShaOf(dirs, n) == sha
    && (forall m :: m in Releases(dirs) && ShaOf(dirs, m) == sha && m != n ==> Lt(m, n))
  }

  lemma GreatestMatch(dirs: map<string, string>, sha: string, names: seq<string>, k: nat)
    requires Descending(names) && Elems(names) == Releases(dirs) && k < |names|
    requires forall i :: 0 <= i < |names| ==> names[i] in dirs
    requires forall i :: 0 <= i < k ==> ShaOf(dirs, names[i]) != sha
    requires ShaOf(dirs, names[k]) == sha
    ensures Greatest(dirs, sha, names[k])
  {
    assert names[k] in Elems(names);
    forall m | m in Releases(dirs) && ShaOf(dirs, m) == sha && m != names[k] ensures Lt(m, names[k]) {
      assert m in Elems(names);
      var i :| 0 <= i < |names| && names[i] == m;
      assert i > k;
    }
  }

  /** Newest first, the protected names are the front of the list. */
  lemma TailIsOld(names: seq<string>, all: set<string>)
    requires Descending(names) && Elems(names) == all && |names| >= KeepReleases
    ensures forall n :: n in names[KeepReleases..] <==> n in all && Newer(all, n) >= KeepReleases
  {
    forall k | 0 <= k < |names| ensures Newer(all, names[k]) == k {
      NewerIsIndex(names, k);
    }
    forall n | n in all && Newer(all, n) >= KeepReleases ensures n in names[KeepReleases..] {
      assert n in Elems(names);
      var k :| 0 <= k < |names| && names[k] == n;
      assert names[KeepReleases..][k - KeepReleases] == n;
    }
    forall n | n in names[KeepReleases..] ensures n in all && Newer(all, n) >= KeepReleases {
      var k :| 0 <= k < |names[KeepReleases..]| && names[KeepReleases..][k] == n;
      assert names[k + KeepReleases] == n && n in Elems(names);
    }
  }

  lemma FewAreOld(names: seq<string>, all: set<string>)
    requires Descending(names) && Elems(names) == all && |names| <= KeepReleases
    ensures |all| <= KeepReleases && forall n :: n in all ==> Newer(all, n) < KeepReleases
  {
    DescendingSize(names);
    forall n | n in all ensures Newer(all, n) < KeepReleases {
      assert n in Elems(names);
      var k :| 0 <= k < |names| && names[k] == n;
      NewerIsIndex(names, k);
    }
  }

  lemma AtMostSix(names: seq<string>, left: set<string>, live: Option<string>)
    requires Descending(names) && |names| >= KeepReleases
    requires forall n :: n in left ==> n in names[..KeepReleases] || live == Some(n)
    ensures |left| <= KeepReleases + 1
  {
    var front := Elems(names[..KeepReleases]);
    DescendingSize(names[..KeepReleases]);
    if live.Some? {
      SubsetSize(left, front + {live.value});
    } else {
      SubsetSize(left, front);
    }
  }

  lemma SixLeft(names: seq<string>, before: map<string, string>, after: map<string, string>, live: Option<string>)
    requires Descending(names) && Elems(names) == Releases(before) && |names| >= KeepReleases
    requires forall n :: n in after ==> n in before && (n in names[KeepReleases..] ==> live == Some(n))
    ensures |Releases(after)| <= KeepReleases + 1
  {
    forall n | n in Releases(after) ensures n in names[..KeepReleases] || live == Some(n) {
      assert n in Elems(names) && names == names[..KeepReleases] + names[KeepReleases..];
    }
    AtMostSix(names, Releases(after), live);
  }

  lemma OneMoreRelease(all: set<string>, fresher: string, n: string)
    ensures Newer(all + {fresher}, n) <= Newer(all, n) + 1
  {
    SubsetSize(set m | m in all + {fresher} && Lt(n, m), (set m | m in all && Lt(n, m)) + {fresher});
  }

  /** What was protected before other releases went is protected after. */
  lemma ProtectedStays(before: map<string, string>, after: map<string, string>, live: Option<string>)
    requires Releases(after) <= Releases(before)
    ensures forall n :: Protected(before, live, n) ==> Protected(after, live, n)
  {
    forall n ensures Newer(Releases(after), n) <= Newer(Releases(before), n) {
      SubsetSize(set m | m in Releases(after) && Lt(n, m), set m | m in Releases(before) && Lt(n, m));
    }
  }

  /** What the disk, git and the flow do during one deploy. */
  datatype Faults = Faults(
    clears: bool, makes: bool, copies: bool, tidies: bool, renames: bool, marks: bool,
    activates: bool, finishes: bool, removes: string -> bool)

  /** Whether a new release comes about: every step works, recording the commit included if there is one. */
  predicate Made(f: Faults, sha: string) {
    f.clears && f.makes && f.copies && f.renames && (f.marks || sha == "")
  }

  /** What reading a marker file gives back. */
  lemma MarkerReads(sha: string)
    requires sha != "" && Trimmed(sha)
    ensures Trim(sha + "\n") == sha
  {
    var s := sha + "\n";
    assert s[0] == sha[0] && TrimLeft(s) == s;
    assert s[..|sha|] == sha && TrimRight(s) == TrimRight(sha);
  }

  class Layout {
    /** Each directory under releases/ with the content of its marker file. */
    var dirs: map<string, string>
    /** Other names taken under releases/. */
    var files: set<string>
    /** The directory `current` points at. */
    var current: Option<string>

    /** The link, once set, names an existing release. */
    ghost predicate Valid()
      reads this
    {
      current.Some? ==> current.value in Releases(dirs)
    }

    constructor (files: set<string>)
      ensures Valid() && dirs == map[] && current == None && this.files == files
    {
      dirs, current := map[], None;
      this.files := files;
    }

    /** Makes an empty directory for an incoming release, clearing what an earlier run left there. */
    method Prepare(runId: string, clears: bool, makes: bool) returns (dir: Option<string>)
      requires Valid()
      modifies this`dirs, this`files
      ensures Valid() && Releases(dirs) == old(Releases(dirs))
      ensures forall n :: n in Releases(dirs) ==> dirs[n] == old(dirs)[n]
      ensures dir == if clears && makes then Some(Staging(runId)) else None
      ensures Incoming(Staging(runId)) && files == if clears then old(files) - {Staging(runId)} else old(files)
      ensures dirs == if dir.Some? then old(dirs)[Staging(runId) := ""]
                      else if clears then old(dirs) - {Staging(runId)}
                      else old(dirs)
    {
      var name := Staging(runId);
      assert Incoming(name);
      if !clears {
        return None;
      }
      dirs, files := dirs - {name}, files - {name};
      if !makes {
        return None;
      }
      dirs := dirs[name := ""];
      dir := Some(name);
    }

    predicate Taken(name: string)
      reads this`dirs, this`files
    {
      name in dirs || name in files
    }

    /** The first candidate name nothing has yet: with finitely many names taken there is one. */
    method FirstFree(sha: string, clock: nat -> string) returns (name: string, tries: nat)
      requires Stamps(clock)
      ensures name == Candidate(clock, sha, tries) && !Taken(name) && !Incoming(name)
      ensures forall i :: 0 <= i < tries ==> Taken(Candidate(clock, sha, i))
    {
      tries := 0;
      name := Candidate(clock, sha, 0);
      while Taken(name)
        invariant name == Candidate(clock, sha, tries)
        invariant Candidates(clock, sha, tries) <= dirs.Keys + files
        decreases |dirs.Keys + files| - tries
      {
        CandidateCount(clock, sha, tries + 1);
        SubsetSize(Candidates(clock, sha, tries + 1), dirs.Keys + files);
        tries := tries + 1;
        name := Candidate(clock, sha, tries);
      }
      forall i | 0 <= i < tries ensures Taken(Candidate(clock, sha, i)) {
        CandidateMember(clock, sha, tries, Candidate(clock, sha, i));
      }
      CandidateIsRelease(clock, sha, tries);
    }

    /**
     * Renames a prepared directory to the first free name and records the commit in it; every other directory
     * stays.
     */
    method Promote(tmp: string, sha: string, clock: nat -> string, renames: bool, marks: bool)
      returns (dest: Option<string>, tries: nat)
      requires Valid() && Stamps(clock) && tmp in dirs && Incoming(tmp)
      modifies this`dirs
      ensures Valid()
      ensures !old(Taken(Candidate(clock, sha, tries))) && !Incoming(Candidate(clock, sha, tries))
      ensures forall i :: 0 <= i < tries ==> old(Taken(Candidate(clock, sha, i)))
      ensures dest == if renames && (marks || sha == "") then Some(Candidate(clock, sha, tries)) else None
      ensures !renames ==> dirs == old(dirs)
      ensures renames ==> dirs.Keys == old(dirs).Keys - {tmp} + {Candidate(clock, sha, tries)}
      ensures forall n :: n in old(dirs) && n != tmp ==> n in dirs && dirs[n] == old(dirs)[n]
      ensures dest.Some? ==> dirs[dest.value] == if sha == "" then old(dirs)[tmp] else sha + "\n"
    {
      var name: string;
      name, tries := FirstFree(sha, clock);
      if !renames {
        return None, tries;
      }
      dirs := (dirs - {tmp})[name := dirs[tmp]];
      if sha != "" {
        if !marks {
          return None, tries;
        }
        dirs := dirs[name := sha + "\n"];
      }
      dest := Some(name);
    }

    /** Points the link at a release, or leaves it as it was. */
    method Swap(release: string, swaps: bool) returns (ok: bool)
      requires Valid() && release in Releases(dirs)
      modifies this`current
      ensures Valid() && ok == swaps && current == if swaps then Some(release) else old(current)
    {
      ok := swaps;
      if swaps {
        current := Some(release);
      }
    }

    function CurrentRelease(): Option<string>
      reads this
    {
      if current.Some? && current.value in dirs then current else None
    }

    /** The release directories, greatest name first. */
    method NewestFirst() returns (names: seq<string>)
      ensures Descending(names) && Elems(names) == Releases(dirs)
      ensures forall k :: 0 <= k < |names| ==> names[k] in Releases(dirs)
    {
      names := [];
      var rest := Releases(dirs);
      while rest != {}
        invariant Descending(names) && Elems(names) !! rest && Elems(names) + rest == Releases(dirs)
        decreases |rest|
      {
        var n :| n in rest;
        rest := rest - {n};
        InsertKeepsOrder(names, n);
        InsertMembers(names, n);
        names := InsertDescending(names, n);
      }
      assert forall k :: 0 <= k < |names| ==> names[k] in Elems(names);
    }

    /** The greatest release name recorded with a commit; nothing exactly when no release holds it. */
    method FindRelease(sha: string) returns (found: Option<string>)
      ensures found.Some? ==> Greatest(dirs, sha, found.value)
      ensures found.None? <==> sha == "" || forall n :: n in Releases(dirs) ==> ShaOf(dirs, n) != sha
    {
      if sha == "" {
        return None;
      }
      var names := NewestFirst();
      for k := 0 to |names|
        invariant forall i :: 0 <= i < k ==> ShaOf(dirs, names[i]) != sha
      {
        if ShaOf(dirs, names[k]) == sha {
          GreatestMatch(dirs, sha, names, k);
          return Some(names[k]);
        }
      }
      assert forall n :: n in Releases(dirs) ==> n in Elems(names);
      return None;
    }

    method RemoveAll(names: seq<string>, live: Option<string>, removes: string -> bool) returns (removed: seq<string>)
      requires forall n :: n in names ==> n in dirs
      modifies this`dirs
      ensures forall n :: n in removed <==> n in names && live != Some(n) && removes(n)
      ensures dirs == old(dirs) - Elems(removed)
    {
      removed := [];
      for k := 0 to |names|
        invariant forall n :: n in removed <==> n in names[..k] && live != Some(n) && removes(n)
        invariant dirs == old(dirs) - Elems(removed)
      {
        var n := names[k];
        if live != Some(n) && removes(n) {
          dirs := dirs - {n};
          assert Elems(removed + [n]) == Elems(removed) + {n};
          removed := removed + [n];
        }
      }
    }

    /** Deletes exactly the unprotected releases it manages to delete; at most six stay if it manages all. */
    method Prune(removes: string -> bool) returns (removed: seq<string>)
      requires Valid()
      modifies this`dirs
      ensures Valid()
      ensures forall n :: n in dirs <==>
        n in old(dirs) && (n in Releases(old(dirs)) && !Protected(old(dirs), old(current), n) ==> !removes(n))
      ensures forall n :: n in dirs ==> dirs[n] == old(dirs)[n]
      ensures Elems(removed) == old(dirs).Keys - dirs.Keys
      ensures (forall n :: removes(n)) ==> |Releases(dirs)| <= 6
    {
      var names := NewestFirst();
      removed := [];
      ghost var before := dirs;
      if |names| <= KeepReleases {
        FewAreOld(names, Releases(dirs));
        return;
      }
      TailIsOld(names, Releases(dirs));
      var live := CurrentRelease();
      removed := RemoveAll(names[KeepReleases..], live, removes);
      if forall n :: removes(n) {
        SixLeft(names, before, dirs, live);
      }
    }

    /** Clones are copied into a staging directory which becomes a release, or is dropped. */
    method Materialize(runId: string, sha: string, clock: nat -> string, f: Faults) returns (dest: Option<string>)
      requires Valid() && Stamps(clock)
      modifies this`dirs, this`files
      ensures Valid()
      ensures forall n :: n in Releases(old(dirs)) ==> n in dirs && dirs[n] == old(dirs)[n]
      ensures dest.Some? <==> Made(f, sha)
      ensures dest.Some? ==> dest.value !in Releases(old(dirs)) && Releases(dirs) == Releases(old(dirs)) + {dest.value}
      ensures dest.Some? ==> exists tries: nat :: dest.value == Candidate(clock, sha, tries)
      ensures dest.Some? || (f.clears && f.tidies) ==> Staging(runId) !in dirs
      ensures dest.Some? && sha != "" ==> dirs[dest.value] == sha + "\n"
    {
      var staging := Prepare(runId, f.clears, f.makes);
      if staging.None? {
        return None;
      }
      if !f.copies {
        dirs := if f.tidies then dirs - {staging.value} else dirs;
        return None;
      }
      ghost var prepared := dirs;
      var tries;
      dest, tries := Promote(staging.value, sha, clock, f.renames, f.marks);
      assert dest.Some? ==> dest.value !in prepared;
      if dest.None? && f.tidies {
        dirs := dirs - {staging.value};
      }
    }

    /**
     * A deploy of what the remote has. It serves a directory that did not exist before or what it
     * served before, and only a finished one deletes releases.
     */
    method DeployFresh(runId: string, sha: string, clock: nat -> string, f: Faults) returns (ok: bool)
      requires Valid() && Stamps(clock)
      modifies this
      ensures Valid()
      ensures !ok ==> forall n :: n in Releases(old(dirs)) ==> n in dirs && dirs[n] == old(dirs)[n]
      ensures ok <==> Made(f, sha) && f.activates && f.finishes
      ensures if Made(f, sha) && f.activates then current.Some? && current.value !in Releases(old(dirs))
              else current == old(current)
      ensures forall n :: n in Releases(old(dirs)) && n !in dirs ==>
              ok && Newer(Releases(old(dirs)), n) >= 4
      ensures ok && sha != "" && Trimmed(sha) ==> current.Some? && ShaOf(dirs, current.value) == sha
      ensures ok ==> forall n :: n in Releases(dirs) ==> Protected(dirs, current, n) || !f.removes(n)
      ensures ok && (forall n :: f.removes(n)) ==> |Releases(dirs)| <= 6
    {
      var release := Materialize(runId, sha, clock, f);
      if release.None? || !f.activates {
        return false;
      }
      var swapped := Swap(release.value, true);
      if !f.finishes {
        return false;
      }
      ghost var full := dirs;
      var removed := Prune(f.removes);
      ProtectedStays(full, dirs, current);
      forall n | n in Releases(old(dirs)) && n !in dirs ensures Newer(Releases(old(dirs)), n) >= 4 {
        OneMoreRelease(Releases(old(dirs)), release.value, n);
      }
      if sha != "" && Trimmed(sha) {
        MarkerReads(sha);
      }
      return true;
    }

    /**
     * One deploy, or a rollback when the pinned commit is on disk. A failed one loses no release; a
     * rollback changes no directory; a deploy serves either what it served before or a directory
     * that did not exist before; and only a finished one deletes releases, never any of
     * the four newest there were.
     */
    method Deploy(pin: string, runId: string, sha: string, clock: nat -> string, f: Faults) returns (ok: bool)
      requires Valid() && Stamps(clock)
      modifies this
      ensures Valid()
      ensures !ok ==> forall n :: n in Releases(old(dirs)) ==> n in dirs && dirs[n] == old(dirs)[n]
      ensures (exists n :: Greatest(old(dirs), pin, n)) && pin != "" ==>
        && dirs == old(dirs)
        && (if f.activates then current.Some? && Greatest(dirs, pin, current.value) else current == old(current))
        && (ok <==> f.activates && f.finishes)
      ensures current == old(current) || (current.Some? &&
        (current.value !in Releases(old(dirs)) || (pin != "" && Greatest(old(dirs), pin, current.value))))
      ensures forall n :: n in Releases(old(dirs)) && n !in dirs ==>
              ok && Newer(Releases(old(dirs)), n) >= 4
      ensures ok && pin == "" && sha != "" && Trimmed(sha) ==> current.Some? && ShaOf(dirs, current.value) == sha
      ensures pin == "" || (forall n :: n in Releases(old(dirs)) ==> ShaOf(old(dirs), n) != pin) ==>
        && (ok <==> Made(f, sha) && f.activates && f.finishes)
        && if Made(f, sha) && f.activates then current.Some? && current.value !in Releases(old(dirs))
           else current == old(current)
      ensures ok && (pin == "" || forall n :: n in Releases(old(dirs)) ==> ShaOf(old(dirs), n) != pin) ==>
        && (forall n :: n in Releases(dirs) ==> Protected(dirs, current, n) || !f.removes(n))
        && ((forall n :: f.removes(n)) ==> |Releases(dirs)| <= 6)
    {
      if pin != "" {
        var found := FindRelease(pin);
        if found.Some? {
          var swapped := Swap(found.value, f.activates);
          return swapped && f.finishes;
        }
      }
      ok := DeployFresh(runId, sha, clock, f);
    }
  }
}
