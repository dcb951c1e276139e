/** From process blocks to flows: which tasks a block contributes, and the default flow. */
module FlowBlocks {
  import opened Seqs
  import opened Text
  import opened ScriptSplit
  import opened FlowModel
  import opened RepairOrder

  /** The fields of a process block the flow depends on; startGroup is None when it is not a finite number. */
  datatype Block = Block(id: string, name: string, install: string, cleanup: string, preStart: string, run: string,
                         processManager: string, healthPath: string, startGroup: Option<real>)

  type Kinds = string -> Kind

  predicate Managed(b: Block) {
    b.processManager == "pm2" || b.processManager == "systemd" || b.processManager == "docker"
  }

  function When(want: bool, c: Chip): seq<Chip> {
    if want then [c] else []
  }

  /** Which tasks are pushed; `whole` is the install task of a script with no command in it. */
  datatype Wants = Wants(install: bool, build: bool, whole: bool, cleanup: bool, preStart: bool, run: bool,
                         start: bool, health: bool)

  /** The tasks a block contributes, pushed one after the other; `kind` classifies install commands. */
  function TasksForBlock(b: Block, kind: Kinds): seq<Chip> {
    var (installParts, buildParts) := EditorHalves(Commands(b.install), kind);
    TaskList(b.id, WantsOf(b, Join(installParts, And), Join(buildParts, And)))
  }

  function WantsOf(b: Block, install: string, build: string): Wants {
    Wants(install != "", build != "", install == "" && build == "" && Trim(b.install) != "", Trim(b.cleanup) != "",
          Trim(b.preStart) != "", Trim(b.run) != "" || Managed(b), Managed(b), Trim(b.healthPath) != "")
  }

  function TaskList(id: string, w: Wants): seq<Chip> {
    When(w.install, Chip(id, Install)) + (When(w.build, Chip(id, Build)) + (When(w.whole, Chip(id, Install)) +
    LateTasks(id, w)))
  }

  function LateTasks(id: string, w: Wants): seq<Chip> {
    When(w.cleanup, Chip(id, Cleanup)) + (When(w.preStart, Chip(id, PreStart)) + (When(w.run, Chip(id, Run)) +
    (When(w.start, Chip(id, Start)) + When(w.health, Chip(id, Health)))))
  }

  /** Distinct phases of app id in rank order, none ranked below r. */
  ghost predicate From(tasks: seq<Chip>, id: string, r: nat) {
    Agenda(tasks) && forall c :: c in tasks ==> c.owner == id && Rank(c.phase) >= r
  }

  lemma PushFront(want: bool, id: string, p: Phase, rest: seq<Chip>, r: nat)
    requires From(rest, id, r) && Rank(p) < r
    ensures From(When(want, Chip(id, p)) + rest, id, Rank(p))
  {
    if !want {
      assert When(want, Chip(id, p)) + rest == rest;
    }
  }

  /** Every block asks for distinct phases of its own app, in rank order. */
  lemma TasksAgenda(b: Block, kind: Kinds)
    ensures Agenda(TasksForBlock(b, kind))
    ensures forall c :: c in TasksForBlock(b, kind) ==> c.owner == b.id
  {
    var (installParts, buildParts) := EditorHalves(Commands(b.install), kind);
    TaskListAgenda(b.id, WantsOf(b, Join(installParts, And), Join(buildParts, And)));
  }

  lemma LateAgenda(id: string, w: Wants)
    ensures From(LateTasks(id, w), id, Rank(Cleanup))
  {
    var t6 := When(w.health, Chip(id, Health));
    var t5 := When(w.start, Chip(id, Start)) + t6;
    var t4 := When(w.run, Chip(id, Run)) + t5;
    var t3 := When(w.preStart, Chip(id, PreStart)) + t4;
    PushFront(w.start, id, Start, t6, Rank(Health));
    PushFront(w.run, id, Run, t5, Rank(Start));
    PushFront(w.preStart, id, PreStart, t4, Rank(Run));
    PushFront(w.cleanup, id, Cleanup, t3, Rank(PreStart));
  }

  lemma EarlyAgenda(id: string, install: bool, build: bool, whole: bool, late: seq<Chip>)
    requires From(late, id, Rank(Cleanup)) && (whole ==> !install && !build)
    ensures From(When(install, Chip(id, Install)) + (When(build, Chip(id, Build)) +
                 (When(whole, Chip(id, Install)) + late)), id, 0)
  {
    if whole {
      PushFront(whole, id, Install, late, Rank(Cleanup));
      var t1 := When(whole, Chip(id, Install)) + late;
      assert When(install, Chip(id, Install)) + (When(build, Chip(id, Build)) + t1) == t1;
    } else {
      assert When(whole, Chip(id, Install)) + late == late;
      PushFront(build, id, Build, late, Rank(Cleanup));
      PushFront(install, id, Install, When(build, Chip(id, Build)) + late, Rank(Build));
    }
  }

  lemma TaskListAgenda(id: string, w: Wants)
    requires w.whole ==> !w.install && !w.build
    ensures From(TaskList(id, w), id, 0)
  {
    LateAgenda(id, w);
    EarlyAgenda(id, w.install, w.build, w.whole, LateTasks(id, w));
  }

  // ---- install and build ----

  lemma {:induction false} EditorMembers(cmds: seq<string>, kind: Kinds, c: string)
    ensures c in EditorHalves(cmds, kind).0 <==> c in cmds && kind(c).InstallKind?
    ensures c in EditorHalves(cmds, kind).1 <==> c in cmds && !kind(c).InstallKind?
  {
    if cmds == [] {
    } else {
      EditorMembers(cmds[1..], kind, c);
    }
  }

  lemma JoinedMembers(parts: seq<string>, cmds: seq<string>, want: string -> bool)
    requires forall c :: c in parts <==> c in cmds && want(c)
    requires forall c :: c in cmds ==> c != ""
    ensures Join(parts, And) != "" <==> exists c :: c in cmds && want(c)
  {
    HasMember(parts);
    forall i | 0 <= i < |parts| ensures parts[i] != "" {
      assert parts[i] in parts;
    }
    JoinNonempty(parts, And);
  }

  lemma EditorHalvesNonempty(script: string, kind: Kinds)
    ensures var (install, build) := EditorHalves(Commands(script), kind);
      && (Join(install, And) != "" <==> exists c :: c in Commands(script) && kind(c).InstallKind?)
      && (Join(build, And) != "" <==> exists c :: c in Commands(script) && !kind(c).InstallKind?)
  {
    var cmds := Commands(script);
    var (install, build) := EditorHalves(cmds, kind);
    forall c ensures (c in install <==> c in cmds && kind(c).InstallKind?) &&
                     (c in build <==> c in cmds && !kind(c).InstallKind?)
    {
      EditorMembers(cmds, kind, c);
    }
    JoinedMembers(install, cmds, c => kind(c).InstallKind?);
    JoinedMembers(build, cmds, c => !kind(c).InstallKind?);
  }

  lemma WhenHas(want: bool, c: Chip, rest: seq<Chip>, x: Chip)
    ensures x in When(want, c) + rest <==> (want && x == c) || x in rest
  {
  }

  /** Whether a phase is among the tasks pushed. */
  predicate Pushed(w: Wants, p: Phase) {
    match p
    case Install => w.install || w.whole
    case Build => w.build
    case Cleanup => w.cleanup
    case PreStart => w.preStart
    case Run => w.run
    case Start => w.start
    case Health => w.health
  }

  lemma LateHas(id: string, w: Wants, p: Phase)
    ensures Chip(id, p) in LateTasks(id, w) <==> Pushed(w, p) && p != Install && p != Build
  {
    var x, t6 := Chip(id, p), When(w.health, Chip(id, Health));
    var t5 := When(w.start, Chip(id, Start)) + t6;
    var t4 := When(w.run, Chip(id, Run)) + t5;
    var t3 := When(w.preStart, Chip(id, PreStart)) + t4;
    WhenHas(w.start, Chip(id, Start), t6, x);
    WhenHas(w.run, Chip(id, Run), t5, x);
    WhenHas(w.preStart, Chip(id, PreStart), t4, x);
    WhenHas(w.cleanup, Chip(id, Cleanup), t3, x);
  }

  lemma EarlyHas(id: string, install: bool, build: bool, whole: bool, late: seq<Chip>, x: Chip)
    ensures x in When(install, Chip(id, Install)) + (When(build, Chip(id, Build)) +
                 (When(whole, Chip(id, Install)) + late)) <==>
            ((install || whole) && x == Chip(id, Install)) || (build && x == Chip(id, Build)) || x in late
  {
    var t1 := When(whole, Chip(id, Install)) + late;
    WhenHas(whole, Chip(id, Install), late, x);
    WhenHas(build, Chip(id, Build), t1, x);
    WhenHas(install, Chip(id, Install), When(build, Chip(id, Build)) + t1, x);
  }

  lemma TaskListHas(id: string, w: Wants, p: Phase)
    ensures Chip(id, p) in TaskList(id, w) <==> Pushed(w, p)
  {
    LateHas(id, w, p);
    EarlyHas(id, w.install, w.build, w.whole, LateTasks(id, w), Chip(id, p));
  }

  lemma TaskHas(b: Block, kind: Kinds, p: Phase)
    ensures var (install, build) := EditorHalves(Commands(b.install), kind);
      Chip(b.id, p) in TasksForBlock(b, kind) <==> Pushed(WantsOf(b, Join(install, And), Join(build, And)), p)
  {
    var (install, build) := EditorHalves(Commands(b.install), kind);
    TaskListHas(b.id, WantsOf(b, Join(install, And), Join(build, And)), p);
  }

  /**
   * A block gets a build task if some command of its script does not install, and an install task
   * if some command does, or if a script that is not blank holds no command at all.
   */
  lemma InstallAndBuild(b: Block, kind: Kinds)
    ensures Chip(b.id, Build) in TasksForBlock(b, kind) <==>
            exists c :: c in Commands(b.install) && !kind(c).InstallKind?
    ensures Chip(b.id, Install) in TasksForBlock(b, kind) <==>
            || (exists c :: c in Commands(b.install) && kind(c).InstallKind?)
            || (Commands(b.install) == [] && !AllSpace(b.install))
  {
    EditorHalvesNonempty(b.install, kind);
    HasMember(Commands(b.install));
    BlankIsSpace(b.install);
    TaskHas(b, kind, Install);
    TaskHas(b, kind, Build);
  }

  /**
   * The other phases are asked for by the block's fields: cleanup, pre-start and health exactly when
   * their text is not blank, start exactly under one of the three process managers, and run exactly
   * when there is a run command or such a manager.
   */
  lemma LaterPhases(b: Block, kind: Kinds, p: Phase)
    requires p != Install && p != Build
    ensures Chip(b.id, p) in TasksForBlock(b, kind) <==>
            var managed := b.processManager == "pm2" || b.processManager == "systemd" || b.processManager == "docker";
            match p
            case Cleanup => !AllSpace(b.cleanup)
            case PreStart => !AllSpace(b.preStart)
            case Run => !AllSpace(b.run) || managed
            case Start => managed
            case Health => !AllSpace(b.healthPath)
  {
    TaskHas(b, kind, p);
    match p
    case Cleanup => BlankIsSpace(b.cleanup);
    case PreStart => BlankIsSpace(b.preStart);
    case Run => BlankIsSpace(b.run);
    case Start =>
    case Health => BlankIsSpace(b.healthPath);
  }
}
