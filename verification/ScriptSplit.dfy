/**
 * Splitting an install script into dependency and build commands: once by the agent, once
 * by the editor. Which commands install, build or do neither is a parameter.
 */
module ScriptSplit {
  import opened Seqs
  import opened Text

  datatype Kind = InstallKind | BuildKind | CommandKind

  const And := " && "

  function TrimAll(parts: seq<string>): (r: seq<string>)
    ensures forall i :: 0 <= i < |r| ==> r[i] != ""
  {
    if parts == [] then []
    else (if Trim(parts[0]) != "" then [Trim(parts[0])] else []) + TrimAll(parts[1..])
  }

  /** The commands of a script: its && parts, or its lines when it has no &&. */
  function Commands(script: string): (r: seq<string>)
    ensures forall i :: 0 <= i < |r| ==> r[i] != ""
  {
    var trimmed := Trim(script);
    if trimmed == "" then []
    else if Contains(trimmed, "&&") then TrimAll(Split(trimmed, "&&"))
    else TrimAll(Split(trimmed, "\n"))
  }

  // ---- the agent's split ----

  /** Loose commands go with the build once there is something to install, else with the install. */
  function AgentHalves(cmds: seq<string>, kind: string -> Kind, haveInstall: bool): (seq<string>, seq<string>) {
    if cmds == [] then ([], [])
    else
      var toInstall := match kind(cmds[0])
                       case InstallKind => true
                       case BuildKind => false
                       case CommandKind => !haveInstall;
      var (install, build) := AgentHalves(cmds[1..], kind, haveInstall || toInstall);
      if toInstall then ([cmds[0]] + install, build) else (install, [cmds[0]] + build)
  }

  /** `kind` is the agent's classification of one command (the language plays no part in it). */
  method SplitInstallBuild(script: string, kind: string -> Kind) returns (install: string, build: string)
    ensures install == Join(AgentHalves(Commands(script), kind, false).0, And)
    ensures build == Join(AgentHalves(Commands(script), kind, false).1, And)
  {
    var installParts, buildParts := SplitCommands(Commands(script), kind);
    return Join(installParts, And), Join(buildParts, And);
  }

  /** What is split so far and what is left to split make up the halves. */
  ghost predicate SplitTo(parts: seq<string>, kind: string -> Kind, install: seq<string>, build: seq<string>, i: nat)
    requires i <= |parts|
  {
    var (left, right) := AgentHalves(parts[i..], kind, install != []);
    AgentHalves(parts, kind, false).0 == install + left && AgentHalves(parts, kind, false).1 == build + right
  }

  lemma SplitInstall(parts: seq<string>, kind: string -> Kind, install: seq<string>, build: seq<string>, i: nat)
    requires i < |parts| && SplitTo(parts, kind, install, build, i)
    requires kind(parts[i]).InstallKind? || (kind(parts[i]).CommandKind? && install == [])
    ensures SplitTo(parts, kind, install + [parts[i]], build, i + 1)
  {
    AgentStep(parts, i, kind, install != []);
    Reassoc(install, [parts[i]], AgentHalves(parts[i + 1..], kind, true).0);
  }

  lemma SplitBuild(parts: seq<string>, kind: string -> Kind, install: seq<string>, build: seq<string>, i: nat)
    requires i < |parts| && SplitTo(parts, kind, install, build, i)
    requires kind(parts[i]).BuildKind? || (kind(parts[i]).CommandKind? && install != [])
    ensures SplitTo(parts, kind, install, build + [parts[i]], i + 1)
  {
    AgentStep(parts, i, kind, install != []);
    Reassoc(build, [parts[i]], AgentHalves(parts[i + 1..], kind, install != []).1);
  }

  method SplitCommands(parts: seq<string>, kind: string -> Kind) returns (install: seq<string>, build: seq<string>)
    ensures install == AgentHalves(parts, kind, false).0 && build == AgentHalves(parts, kind, false).1
  {
    install, build := [], [];
    assert parts[0..] == parts;
    for i := 0 to |parts|
      invariant SplitTo(parts, kind, install, build, i)
    {
      match kind(parts[i])
      case InstallKind =>
        SplitInstall(parts, kind, install, build, i);
        install := install + [parts[i]];
      case BuildKind =>
        SplitBuild(parts, kind, install, build, i);
        build := build + [parts[i]];
      case CommandKind =>
        if install != [] {
          SplitBuild(parts, kind, install, build, i);
          build := build + [parts[i]];
        } else {
          SplitInstall(parts, kind, install, build, i);
          install := install + [parts[i]];
        }
    }
    assert parts[|parts|..] == [];
  }

  lemma AgentStep(parts: seq<string>, i: nat, kind: string -> Kind, have: bool)
    requires i < |parts|
    ensures var (k, c) := (kind(parts[i]), [parts[i]]);
      if k.InstallKind? || (k.CommandKind? && !have) then
        && AgentHalves(parts[i..], kind, have).0 == c + AgentHalves(parts[i + 1..], kind, true).0
        && AgentHalves(parts[i..], kind, have).1 == AgentHalves(parts[i + 1..], kind, true).1
      else
        && AgentHalves(parts[i..], kind, have).0 == AgentHalves(parts[i + 1..], kind, have).0
        && AgentHalves(parts[i..], kind, have).1 == c + AgentHalves(parts[i + 1..], kind, have).1
  {
    assert parts[i..][1..] == parts[i + 1..];
  }

  // ---- the editor's split ----

  function EditorHalves(cmds: seq<string>, kind: string -> Kind): (seq<string>, seq<string>) {
    if cmds == [] then ([], [])
    else
      var (install, build) := EditorHalves(cmds[1..], kind);
      if kind(cmds[0]).InstallKind? then ([cmds[0]] + install, build) else (install, [cmds[0]] + build)
  }

  method EditorSplit(script: string, kind: string -> Kind) returns (install: string, build: string)
    ensures install == Join(EditorHalves(Commands(script), kind).0, And)
    ensures build == Join(EditorHalves(Commands(script), kind).1, And)
  {
    var installParts, buildParts := EditorSplitCommands(Commands(script), kind);
    return Join(installParts, And), Join(buildParts, And);
  }

  method EditorSplitCommands(parts: seq<string>, kind: string -> Kind)
      returns (install: seq<string>, build: seq<string>)
    ensures install == EditorHalves(parts, kind).0 && build == EditorHalves(parts, kind).1
  {
    install, build := [], [];
    for i := 0 to |parts|
      invariant EditorHalves(parts, kind).0 == install + EditorHalves(parts[i..], kind).0
      invariant EditorHalves(parts, kind).1 == build + EditorHalves(parts[i..], kind).1
    {
      assert parts[i..][1..] == parts[i + 1..];
      if kind(parts[i]).InstallKind? {
        install := install + [parts[i]];
      } else {
        build := build + [parts[i]];
      }
    }
    assert parts[|parts|..] == [];
  }

  // ---- conservation ----

  /** s is a shuffle of xs and ys: every element of both, each list in its own order, nothing else. */
  ghost predicate Shuffle<T>(xs: seq<T>, ys: seq<T>, s: seq<T>) {
    if s == [] then xs == [] && ys == []
    else
      || (xs != [] && xs[0] == s[0] && Shuffle(xs[1..], ys, s[1..]))
      || (ys != [] && ys[0] == s[0] && Shuffle(xs, ys[1..], s[1..]))
  }

  lemma {:induction false} AgentShuffles(cmds: seq<string>, kind: string -> Kind, have: bool)
    ensures Shuffle(AgentHalves(cmds, kind, have).0, AgentHalves(cmds, kind, have).1, cmds)
  {
    if cmds == [] {
    } else {
      var toInstall := kind(cmds[0]).InstallKind? || (kind(cmds[0]).CommandKind? && !have);
      AgentShuffles(cmds[1..], kind, have || toInstall);
      var (install, build) := AgentHalves(cmds[1..], kind, have || toInstall);
      assert ([cmds[0]] + install)[1..] == install && ([cmds[0]] + build)[1..] == build;
    }
  }

  lemma {:induction false} EditorShuffles(cmds: seq<string>, kind: string -> Kind)
    ensures Shuffle(EditorHalves(cmds, kind).0, EditorHalves(cmds, kind).1, cmds)
  {
    if cmds == [] {
    } else {
      EditorShuffles(cmds[1..], kind);
      var (install, build) := EditorHalves(cmds[1..], kind);
      assert ([cmds[0]] + install)[1..] == install && ([cmds[0]] + build)[1..] == build;
    }
  }

  // ---- agreement ----

  /** Every unclassified command comes after an install command. */
  ghost predicate Settled(cmds: seq<string>, kind: string -> Kind, have: bool) {
    || have
    || forall i :: 0 <= i < |cmds| && kind(cmds[i]).CommandKind? ==>
         exists j :: 0 <= j < i && kind(cmds[j]).InstallKind?
  }

  lemma {:induction false} HalvesAgreeFrom(cmds: seq<string>, kind: string -> Kind, have: bool)
    ensures AgentHalves(cmds, kind, have) == EditorHalves(cmds, kind) <==> Settled(cmds, kind, have)
  {
    if cmds == [] {
    } else {
      var c, rest := cmds[0], cmds[1..];
      HalvesAgreeFrom(rest, kind, have || !kind(c).BuildKind?);
      HalvesAgreeFrom(rest, kind, have);
      SettledStep(cmds, kind, have);
      var (i, b) := AgentHalves(rest, kind, have);
      var (i', b') := EditorHalves(rest, kind);
      match kind(c)
      case InstallKind =>
        var (i1, b1) := AgentHalves(rest, kind, true);
        assert [c] + i1 == [c] + i' ==> ([c] + i1)[1..] == ([c] + i')[1..];
      case BuildKind =>
        assert [c] + b == [c] + b' ==> ([c] + b)[1..] == ([c] + b')[1..];
      case CommandKind =>
        assert [c] + b == [c] + b' ==> ([c] + b)[1..] == ([c] + b')[1..];
        if !have {
          assert c in AgentHalves(cmds, kind, have).0;
        }
    }
  }

  lemma SettledStep(cmds: seq<string>, kind: string -> Kind, have: bool)
    requires cmds != []
    ensures Settled(cmds, kind, have) <==>
      match kind(cmds[0])
      case InstallKind => true
      case BuildKind => Settled(cmds[1..], kind, have)
      case CommandKind => have
  {
    var rest := cmds[1..];
    if kind(cmds[0]).BuildKind? && Settled(rest, kind, false) {
      forall i | 0 <= i < |cmds| && kind(cmds[i]).CommandKind?
        ensures exists j :: 0 <= j < i && kind(cmds[j]).InstallKind?
      {
        assert rest[i - 1] == cmds[i];
        var j :| 0 <= j < i - 1 && kind(rest[j]).InstallKind?;
        assert cmds[j + 1] == rest[j];
      }
    }
    if kind(cmds[0]).BuildKind? && Settled(cmds, kind, false) {
      forall i | 0 <= i < |rest| && kind(rest[i]).CommandKind?
        ensures exists j :: 0 <= j < i && kind(rest[j]).InstallKind?
      {
        assert rest[i] == cmds[i + 1];
        var j :| 0 <= j < i + 1 && kind(cmds[j]).InstallKind?;
        assert rest[j - 1] == cmds[j];
      }
    }
  }

  /** Agent and editor split a script alike exactly when no unclassified command comes before every install command. */
  lemma HalvesAgree(cmds: seq<string>, kind: string -> Kind)
    ensures AgentHalves(cmds, kind, false) == EditorHalves(cmds, kind) <==>
      forall i :: 0 <= i < |cmds| && kind(cmds[i]).CommandKind? ==> exists j :: 0 <= j < i && kind(cmds[j]).InstallKind?
  {
    HalvesAgreeFrom(cmds, kind, false);
  }

  // ---- coverage ----

  /** What the agent runs when the editor derived the phases: a half runs only if the editor saw one. */
  function Covered(cmds: seq<string>, kind: string -> Kind): seq<string> {
    var (install, build) := AgentHalves(cmds, kind, false);
    var (uiInstall, uiBuild) := EditorHalves(cmds, kind);
    (if uiInstall != [] then install else []) + (if uiBuild != [] then build else [])
  }

  predicate HasKind(cmds: seq<string>, kind: string -> Kind, k: Kind) {
    exists i :: 0 <= i < |cmds| && kind(cmds[i]) == k
  }

  lemma {:induction false} ShuffleBag<T>(xs: seq<T>, ys: seq<T>, s: seq<T>)
    requires Shuffle(xs, ys, s)
    ensures multiset(xs) + multiset(ys) == multiset(s)
  {
    if s == [] {
    } else {
      assert s == [s[0]] + s[1..];
      if xs != [] && xs[0] == s[0] && Shuffle(xs[1..], ys, s[1..]) {
        ShuffleBag(xs[1..], ys, s[1..]);
        assert xs == [xs[0]] + xs[1..];
      } else {
        ShuffleBag(xs, ys[1..], s[1..]);
        assert ys == [ys[0]] + ys[1..];
      }
    }
  }

  /** Which halves are empty, for either splitter. */
  lemma {:induction false} EmptyHalves(cmds: seq<string>, kind: string -> Kind, have: bool)
    ensures EditorHalves(cmds, kind).0 != [] <==> HasKind(cmds, kind, InstallKind)
    ensures AgentHalves(cmds, kind, have).1 != [] ==> EditorHalves(cmds, kind).1 != []
    ensures AgentHalves(cmds, kind, false).0 != [] <==>
            HasKind(cmds, kind, InstallKind) || HasKind(cmds, kind, CommandKind)
  {
    if cmds == [] {
    } else {
      EmptyHalves(cmds[1..], kind, have);
      EmptyHalves(cmds[1..], kind, true);
      forall k ensures HasKind(cmds, kind, k) <==> kind(cmds[0]) == k || HasKind(cmds[1..], kind, k) {
        if kind(cmds[0]) != k && HasKind(cmds, kind, k) {
          var i :| 0 <= i < |cmds| && kind(cmds[i]) == k;
          assert cmds[1..][i - 1] == cmds[i];
        }
      }
    }
  }

  /** The agent runs the whole script exactly when it has an install command or no unclassified one. */
  lemma CoverageExact(cmds: seq<string>, kind: string -> Kind)
    ensures multiset(Covered(cmds, kind)) == multiset(cmds) <==>
      HasKind(cmds, kind, InstallKind) || !HasKind(cmds, kind, CommandKind)
  {
    var (install, build) := AgentHalves(cmds, kind, false);
    AgentShuffles(cmds, kind, false);
    ShuffleBag(install, build, cmds);
    EmptyHalves(cmds, kind, false);
    if HasKind(cmds, kind, InstallKind) || !HasKind(cmds, kind, CommandKind) {
      assert EditorHalves(cmds, kind).0 == [] ==> install == [];
      assert EditorHalves(cmds, kind).1 == [] ==> build == [];
    } else {
      assert |Covered(cmds, kind)| <= |build| < |multiset(cmds)|;
      assert |multiset(Covered(cmds, kind))| == |Covered(cmds, kind)|;
    }
  }

  // ---- where they differ ----

  /** Only `npm ci` installs; anything else is unclassified. */
  function NpmInstalls(c: string): Kind {
    if c == "npm ci" then InstallKind else CommandKind
  }

  lemma OneCommand(have: bool)
    ensures AgentHalves(["npm ci"], NpmInstalls, have) == (["npm ci"], [])
    ensures EditorHalves(["npm ci"], NpmInstalls) == (["npm ci"], [])
    ensures AgentHalves(["make"], NpmInstalls, false) == (["make"], [])
    ensures EditorHalves(["make"], NpmInstalls) == ([], ["make"])
  {
    assert ["npm ci"][1..] == [] && ["make"][1..] == [];
    assert |"make"| != |"npm ci"|;
    assert ["npm ci"] + [] == ["npm ci"] && ["make"] + [] == ["make"];
  }

  /** An unclassified command before the install goes with it on the agent, and with the build in the editor. */
  lemma SplittersDiffer()
    ensures AgentHalves(["make", "npm ci"], NpmInstalls, false) == (["make", "npm ci"], [])
    ensures EditorHalves(["make", "npm ci"], NpmInstalls) == (["npm ci"], ["make"])
  {
    var cmds := ["make", "npm ci"];
    OneCommand(true);
    assert cmds[1..] == ["npm ci"] && |"make"| != |"npm ci"|;
    assert ["make"] + ["npm ci"] == cmds && ["make"] + [] == ["make"];
  }

  /** A script of one unclassified command: the editor asks for a build only, and the agent's build is empty. */
  lemma NothingCovered()
    ensures Covered(["make"], NpmInstalls) == []
  {
    OneCommand(false);
  }
}
