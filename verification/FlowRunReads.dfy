/** What the agent reads out of a command: its failure policy, its phases, and what each task is to run. */
module FlowRunReads {
  import opened Seqs
  import opened Text
  import opened ScriptSplit
  import opened FlowModel
  import opened FlowWire
  import opened FlowRun

  // ---- the failure policy ----

  /** The word "continue", each letter in either case. */
  predicate SpellsContinue(s: string) {
    && |s| == 8
    && (s[0] == 'c' || s[0] == 'C') && (s[1] == 'o' || s[1] == 'O') && (s[2] == 'n' || s[2] == 'N')
    && (s[3] == 't' || s[3] == 'T') && (s[4] == 'i' || s[4] == 'I') && (s[5] == 'n' || s[5] == 'N')
    && (s[6] == 'u' || s[6] == 'U') && (s[7] == 'e' || s[7] == 'E')
  }

  lemma FoldIs(c: char, d: char)
    requires 'a' <= d <= 'z' && d != 'k' && d != 's'
    ensures FoldChar(c) == FoldChar(d) <==> c == d || (c as int) == (d as int) - 32
  {
  }

  lemma FoldsTo(s: string, word: string)
    requires |s| == |word| && forall i :: 0 <= i < |word| ==> 'a' <= word[i] <= 'z' && word[i] != 'k' && word[i] != 's'
    ensures EqualFold(s, word) <==>
            forall i :: 0 <= i < |s| ==> s[i] == word[i] || (s[i] as int) == (word[i] as int) - 32
  {
    forall i | 0 <= i < |s|
      ensures FoldChar(s[i]) == FoldChar(word[i]) <==> s[i] == word[i] || (s[i] as int) == (word[i] as int) - 32
    {
      FoldIs(s[i], word[i]);
    }
  }

  lemma FoldsToContinue(s: string)
    ensures EqualFold(s, "continue") <==> SpellsContinue(s)
  {
    var word := "continue";
    assert word[0] == 'c' && word[1] == 'o' && word[2] == 'n' && word[3] == 't' && word[4] == 'i' && word[5] == 'n' &&
           word[6] == 'u' && word[7] == 'e';
    if |s| == 8 {
      FoldsTo(s, word);
    }
  }

  /** White space around the policy and its case do not matter; nothing else reads as "continue". */
  lemma PolicyText(cmd: Command)
    ensures ContinueOnFail(cmd) <==> SpellsContinue(Trim(cmd.onWaveFailure))
  {
    FoldsToContinue(Trim(cmd.onWaveFailure));
  }

  // ---- phases ----

  ghost predicate Plain(s: string) {
    forall i :: 0 <= i < |s| ==> 'a' <= s[i] <= 'z' || s[i] == '_'
  }

  lemma {:induction false} LowerPlain(s: string)
    requires Plain(s)
    ensures Lower(s) == s
  {
    if s == "" {
    } else {
      assert 'a' <= s[0] <= 'z' || s[0] == '_';
      LowerPlain(s[1..]);
    }
  }

  /** The agent reads back every phase name the editor writes. */
  lemma PhaseOfName(app: string, p: Phase)
    ensures PhaseOf(SpecTask(app, PhaseName(p))) == Some(p)
  {
    var s := PhaseName(p);
    PhaseNamePlain(p);
    assert 'a' <= s[0] <= 'z' && ('a' <= s[|s| - 1] <= 'z');
    TrimOfTrimmed(s);
    LowerPlain(s);
    PhaseRoundTrip(p);
  }

  /** c reads as the small letter d: as that letter, its capital, or a sign whose small form it is. */
  predicate ReadsAs(c: char, d: char) {
    c == d || ('a' <= d <= 'z' && (c as int) == (d as int) - 32) || (c == '\U{0130}' && d == 'i') ||
    (c == '\U{212A}' && d == 'k')
  }

  lemma LowerReads(c: char, d: char)
    requires 'a' <= d <= 'z' || d == '_'
    ensures LowerChar(c) == d <==> ReadsAs(c, d)
  {
  }

  lemma {:induction false} LowerAt(s: string)
    ensures |Lower(s)| == |s| && forall i :: 0 <= i < |s| ==> Lower(s)[i] == LowerChar(s[i])
  {
    if s != "" {
      LowerAt(s[1..]);
    }
  }

  lemma LowersTo(s: string, name: string)
    requires Plain(name)
    ensures Lower(s) == name <==> |s| == |name| && forall i :: 0 <= i < |s| ==> ReadsAs(s[i], name[i])
  {
    LowerAt(s);
    forall i | 0 <= i < |s| && i < |name| ensures LowerChar(s[i]) == name[i] <==> ReadsAs(s[i], name[i]) {
      LowerReads(s[i], name[i]);
    }
  }

  /** The agent reads a phase exactly where the text, white space around it aside, is its name in any case. */
  lemma PhaseOfText(app: string, text: string, p: Phase)
    ensures PhaseOf(SpecTask(app, text)) == Some(p) <==>
            var (s, name) := (Trim(text), PhaseName(p));
            |s| == |name| && forall i :: 0 <= i < |s| ==> ReadsAs(s[i], name[i])
  {
    PhaseNamePlain(p);
    LowersTo(Trim(text), PhaseName(p));
    ParsesNames(Lower(Trim(text)));
    ParsesTo(Lower(Trim(text)), p);
  }

  lemma ParsesTo(s: string, p: Phase)
    ensures ParsePhase(s) == Some(p) <==> s == PhaseName(p)
  {
    ParsesNames(s);
    if ParsePhase(s) == Some(p) {
      var q :| PhaseName(q) == s;
    }
  }

  lemma PhaseNamePlain(p: Phase)
    ensures Plain(PhaseName(p)) && PhaseName(p) != ""
  {
  }

  // ---- what a task runs ----

  /** An app without an install script of its own has the command's; one with its own has nothing from the command. */
  lemma InstallScript(host: Host, cmd: Command, app: App, p: Phase, other: string)
    ensures app.install == "" ==> Body(host, cmd, app, p) == Body(host, cmd, app.(install := cmd.install), p)
    ensures app.install != "" ==> Body(host, cmd, app, p) == Body(host, cmd.(install := other), app, p)
  {
  }

  /** Install and build run the two halves of that script, as the splitter gives them. */
  lemma InstallAndBuildBodies(host: Host, cmd: Command, app: App)
    requires app.install != ""
    ensures var (install, build) := AgentHalves(Commands(app.install), host.kind, false);
      Body(host, cmd, app, Install) == Join(install, And) && Body(host, cmd, app, Build) == Join(build, And)
  {
  }

  /** The app's own cleanup and pre-start text, trimmed; a blank cleanup means the one for the app's language. */
  lemma OtherBodies(host: Host, cmd: Command, app: App)
    ensures Body(host, cmd, app, Cleanup) ==
            if Trim(app.cleanup) == "" then host.defaultCleanup(app.language) else Trim(app.cleanup)
    ensures Body(host, cmd, app, PreStart) == Trim(app.preStart)
  {
  }

  /** A task is taken up unless it is a script with nothing to run. */
  lemma TaskTaken(host: Host, cmd: Command, app: App, c: Chip, work: Work)
    ensures var w := AddTask(host, cmd, app, c, work);
      && w.runs == work.runs + (if c.phase == Run then [c] else [])
      && w.starts == work.starts + (if c.phase == Start then [c] else [])
      && w.healths == work.healths + (if c.phase == Health then [c] else [])
      && w.scripts == work.scripts + (if IsScript(c.phase) && Body(host, cmd, app, c.phase) != "" then [c] else [])
  {
  }
}
