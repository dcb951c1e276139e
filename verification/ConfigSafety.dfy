/** Applying a config is a transaction, for one apply and over any history of applies. */
module ConfigSafety {
  import opened Seqs
  import opened ConfigApply

  /**
   * Success means the new bytes are on disk, were the last thing activated, and the service came
   * back healthy. Failure means the old bytes are on disk, unless the result itself reports a
   * failed rollback, and then the rejected bytes are. A dry run touches nothing.
   */
  lemma ApplyIsTransaction(file: File, cmd: Command, world: World, sum: Sum)
    ensures var o := Apply(file, cmd, world, sum);
      && (o.result.status == Succeeded <==> o.result.message.Applied? || o.result.message.Validated?)
      && (o.result.message.Applied? ==>
            && o.file == Some(cmd.content) && world.healthy && o.result.checksum == Some(sum(cmd.content))
            && o.activations == [Activation(Some(cmd.content), true)])
      && (o.result.message.RollbackFailed? ==> o.file == Some(cmd.content))
      && (!o.result.message.Applied? && !o.result.message.RollbackFailed? ==> o.file == file)
      && (cmd.dryRun ==> o.file == file && o.activations == [])
  {
  }

  /** Past the write, what went wrong and with which status it is reported if the undo works. */
  predicate Blames(world: World, status: Status, cause: Cause) {
    if world.live != Succeeded then status == Invalid && cause == InvalidInContext
    else if world.activate != Succeeded then status == world.activate && cause == ActivateFailed
    else !world.healthy && status == Failed && cause == Unhealthy
  }

  /**
   * What the result says: why an apply was refused before anything was written, in the order of the
   * checks; otherwise the first stage that went wrong, with its own status if the earlier state is
   * back and as failed if it is not.
   */
  lemma ResultTells(file: File, cmd: Command, world: World, sum: Sum)
    ensures var r := Apply(file, cmd, world, sum).result;
      var stale := cmd.baseChecksum != "" && file.Some? && sum(file.value) != cmd.baseChecksum;
      var err := WriteOutcome(world.write, |cmd.content|);
      if world.readError then r.status == Failed && r.message == Because(Unreadable)
      else if stale then r.status == Invalid && r.message == Because(Changed)
      else if world.validate != Succeeded then r.status == world.validate && r.message == Because(Rejected)
      else if cmd.dryRun then r.status == Succeeded && r.message == Validated
      else if err == Some(NoPrivilege) then r.status == Unauthorized && r.message == Because(WriteFailed)
      else if err == Some(IOError) then r.status == Failed && r.message == Because(WriteFailed)
      else if r.message == Applied then
        r.status == Succeeded && world.live == Succeeded && world.activate == Succeeded && world.healthy
      else
        exists status, cause :: Blames(world, status, cause) &&
          if UndoOutcome(file, cmd.content, world).Some? then r.status == Failed && r.message == RollbackFailed(cause)
          else r.status == status && r.message == RolledBack(cause)
  {
    if world.live != Succeeded {
      assert Blames(world, Invalid, InvalidInContext);
    } else if world.activate != Succeeded {
      assert Blames(world, world.activate, ActivateFailed);
    } else if !world.healthy {
      assert Blames(world, Failed, Unhealthy);
    }
  }

  /** A write goes through exactly when every step of its way works, and lacks privileges only on the helper's. */
  lemma WriteTells(w: WriteWorld, n: nat)
    ensures WriteOutcome(w, n) == None <==>
            && w.create && w.written >= n && w.close && w.place
            && if w.direct then w.sync && w.chmod else w.helperRan
    ensures WriteOutcome(w, n) == Some(NoPrivilege) <==>
            !w.direct && w.create && w.written >= n && w.close && !w.helperRan
  {
  }

  // ---- the step list ----

  /** What may follow a step: the next stage after a pass, only a rollback after a failure past the write. */
  predicate Follows(a: Step, b: Step) {
    if a.ok then
      match a.name
      case Backup => b.name == Precheck || b.name == Validate
      case Precheck => b.name == Validate
      case Validate => b.name == Write
      case Write => b.name == ValidateLive
      case ValidateLive => b.name == Activate
      case Activate => b.name == Health
      case Health => false
      case Rollback => b.name == RollbackActivate
      case RollbackActivate => false
    else
      (a.name == ValidateLive || a.name == Activate || a.name == Health) && b.name == Rollback
  }

  /** Where a step list may end. */
  predicate Ends(s: Step) {
    if s.ok then s.name == Validate || s.name == Health || s.name == RollbackActivate
    else s.name in {Backup, Precheck, Validate, Write, Rollback, RollbackActivate}
  }

  ghost predicate Chained(steps: seq<Step>) {
    && steps != [] && steps[0].name == Backup
    && forall i :: 0 <= i < |steps| - 1 ==> Follows(steps[i], steps[i + 1])
  }

  function Last(steps: seq<Step>): Step
    requires steps != []
  {
    steps[|steps| - 1]
  }

  lemma ChainOn(steps: seq<Step>, s: Step)
    requires Chained(steps) && Follows(Last(steps), s)
    ensures Chained(steps + [s]) && Last(steps + [s]) == s
  {
  }

  lemma UndoChains(before: File, rejected: Bytes, world: World, status: Status, cause: Cause, acts: seq<Activation>,
                   steps: seq<Step>)
    requires Chained(steps) && Follows(Last(steps), Pass(Rollback)) && Follows(Last(steps), Fail(Rollback))
    ensures var r := Undo(before, rejected, world, status, cause, acts, steps).result;
      && Chained(r.steps) && Ends(Last(r.steps))
      && (if r.message.RollbackFailed? then Last(r.steps) == Fail(Rollback)
          else r.message.RolledBack? && Last(r.steps).name == RollbackActivate)
  {
    ChainOn(steps, Fail(Rollback));
    ChainOn(steps, Pass(Rollback));
    ChainOn(steps + [Pass(Rollback)], Step(RollbackActivate, world.reactivate == Succeeded));
  }

  lemma WriteChains(file: File, cmd: Command, world: World, sum: Sum, steps: seq<Step>)
    requires Chained(steps) && Last(steps) == Pass(Validate)
    ensures var r := WriteAndActivate(file, cmd, world, sum, steps).result;
      && Chained(r.steps) && Ends(Last(r.steps)) && !r.message.Validated? && Last(r.steps) != Pass(Validate)
      && (r.message.Applied? <==> Last(r.steps) == Pass(Health))
      && (r.message.RollbackFailed? <==> Last(r.steps) == Fail(Rollback))
      && (r.message.RolledBack? <==> Last(r.steps).name == RollbackActivate)
  {
    var written := steps + [Pass(Write)];
    var lived := written + [Pass(ValidateLive)];
    var acts := [Activation(Some(cmd.content), world.activate == Succeeded)];
    ChainOn(steps, Fail(Write));
    ChainOn(steps, Pass(Write));
    ChainOn(written, Fail(ValidateLive));
    ChainOn(written, Pass(ValidateLive));
    ChainOn(lived, Fail(Activate));
    ChainOn(lived, Pass(Activate));
    ChainOn(lived + [Pass(Activate)], Fail(Health));
    ChainOn(lived + [Pass(Activate)], Pass(Health));
    if WriteOutcome(world.write, |cmd.content|).Some? {
    } else if world.live != Succeeded {
      UndoChains(file, cmd.content, world, Invalid, InvalidInContext, [], written + [Fail(ValidateLive)]);
    } else if world.activate != Succeeded {
      UndoChains(file, cmd.content, world, world.activate, ActivateFailed, acts, lived + [Fail(Activate)]);
    } else if !world.healthy {
      UndoChains(file, cmd.content, world, Failed, Unhealthy, acts, lived + [Pass(Activate)] + [Fail(Health)]);
    }
  }

  /** Every result lists its steps in pipeline order; the last one tells which of the outcomes it was. */
  lemma StepsFollowPipeline(file: File, cmd: Command, world: World, sum: Sum)
    ensures var r := Apply(file, cmd, world, sum).result;
      && Chained(r.steps) && Ends(Last(r.steps))
      && (r.message.Applied? <==> Last(r.steps) == Pass(Health))
      && (r.message.Validated? <==> Last(r.steps) == Pass(Validate))
      && (r.message.RollbackFailed? <==> Last(r.steps) == Fail(Rollback))
      && (r.message.RolledBack? <==> Last(r.steps).name == RollbackActivate)
  {
    var checked := Checked(file, cmd);
    assert Chained(checked) && Last(checked).ok && Last(checked).name in {Backup, Precheck};
    ChainOn(checked, Fail(Validate));
    ChainOn(checked, Pass(Validate));
    WriteChains(file, cmd, world, sum, checked + [Pass(Validate)]);
  }

  // ---- what the service runs ----

  /** The config the service last loaded successfully. */
  function Serving(before: File, activations: seq<Activation>): File {
    if activations == [] then before
    else
      var last := activations[|activations| - 1];
      if last.ok then last.content else Serving(before, activations[..|activations| - 1])
  }

  /** Everything up to and including the write goes well. */
  predicate Replaces(file: File, cmd: Command, world: World, sum: Sum) {
    !world.readError && !Stale(file, cmd, sum) && world.validate == Succeeded && !cmd.dryRun &&
    WriteOutcome(world.write, |cmd.content|).None?
  }

  predicate UndoFails(file: File, cmd: Command, world: World) {
    UndoOutcome(file, cmd.content, world).Some?
  }

  /** When disk and service disagree after an apply that found them in agreement. */
  predicate Diverges(file: File, cmd: Command, world: World, sum: Sum) {
    file != Some(cmd.content) && Replaces(file, cmd, world, sum) &&
    if world.live != Succeeded || world.activate != Succeeded then UndoFails(file, cmd, world)
    else !world.healthy && !UndoFails(file, cmd, world) && world.reactivate != Succeeded
  }

  lemma ServingOne(file: File, a: Activation)
    ensures Serving(file, [a]) == if a.ok then a.content else file
  {
    assert [a][..0] == [];
  }

  lemma ServingTwo(file: File, a: Activation, b: Activation)
    ensures Serving(file, [a] + [b]) == if b.ok then b.content else if a.ok then a.content else file
  {
    ServingOne(file, a);
    assert ([a] + [b])[..1] == [a];
  }

  /** Starting in agreement, disk and service agree after an apply exactly if it does not diverge. */
  lemma ServingFollowsDisk(file: File, cmd: Command, world: World, sum: Sum)
    ensures var o := Apply(file, cmd, world, sum);
      Serving(file, o.activations) == o.file <==> !Diverges(file, cmd, world, sum)
  {
    var first := Activation(Some(cmd.content), world.activate == Succeeded);
    var again := Activation(file, world.reactivate == Succeeded);
    ServingOne(file, first);
    ServingOne(file, again);
    ServingTwo(file, first, again);
    assert [] + [again] == [again];
  }

  /** A rejected config outlives its apply exactly if a stage past the write and then the undo fails. */
  lemma RejectedStays(file: File, cmd: Command, world: World, sum: Sum)
    requires file != Some(cmd.content)
    ensures var o := Apply(file, cmd, world, sum);
      o.result.status != Succeeded && o.file == Some(cmd.content) <==>
      && Replaces(file, cmd, world, sum) && UndoFails(file, cmd, world)
      && (world.live != Succeeded || world.activate != Succeeded || !world.healthy)
  {
    ApplyIsTransaction(file, cmd, world, sum);
  }

  /** A disk that fills up during the apply: the candidate is not activated, and there is no room to undo it. */
  lemma RejectedOutlives(sum: Sum) returns (cmd: Command, world: World)
    ensures var o := Apply(Some("old"), cmd, world, sum);
      && o.result.status == Failed && o.file == Some("x") && Serving(Some("old"), o.activations) == Some("old")
  {
    var write := WriteWorld(true, true, 1, true, true, true, true, true);
    cmd := Command("x", "", false);
    world := World(false, Succeeded, write, Succeeded, Failed, true, write, RemoveWorld(true, true, true), Succeeded);
    ServingOne(Some("old"), Activation(Some("x"), false));
  }

  // ---- histories ----

  datatype Attempt = Attempt(cmd: Command, world: World)

  function Replay(file: File, attempts: seq<Attempt>, sum: Sum): File {
    if attempts == [] then file
    else
      var last := |attempts| - 1;
      Apply(Replay(file, attempts[..last], sum), attempts[last].cmd, attempts[last].world, sum).file
  }

  function ResultOf(file: File, attempts: seq<Attempt>, sum: Sum, i: nat): Result
    requires i < |attempts|
  {
    Apply(Replay(file, attempts[..i], sum), attempts[i].cmd, attempts[i].world, sum).result
  }

  /** The content of the last attempt that reported success, or what was there at first. */
  function LastApplied(file: File, attempts: seq<Attempt>, sum: Sum): File {
    if attempts == [] then file
    else
      var last := |attempts| - 1;
      if ResultOf(file, attempts, sum, last).message.Applied? then Some(attempts[last].cmd.content)
      else LastApplied(file, attempts[..last], sum)
  }

  /** Over any history in which no rollback failed, the disk holds the last config that was reported applied. */
  lemma {:induction false} DiskHoldsLastApplied(file: File, attempts: seq<Attempt>, sum: Sum)
    requires forall i :: 0 <= i < |attempts| ==> !ResultOf(file, attempts, sum, i).message.RollbackFailed?
    ensures Replay(file, attempts, sum) == LastApplied(file, attempts, sum)
  {
    if attempts == [] {
    } else {
      var last := |attempts| - 1;
      var earlier := attempts[..last];
      forall i | 0 <= i < last ensures !ResultOf(file, earlier, sum, i).message.RollbackFailed? {
        assert earlier[..i] == attempts[..i];
        assert !ResultOf(file, attempts, sum, i).message.RollbackFailed?;
      }
      DiskHoldsLastApplied(file, earlier, sum);
      ApplyIsTransaction(Replay(file, earlier, sum), attempts[last].cmd, attempts[last].world, sum);
      assert !ResultOf(file, attempts, sum, last).message.RollbackFailed?;
    }
  }

  /** Two operators who read the same bytes cannot both win: with injective checksums the second is refused. */
  lemma StaleEditRefused(file: File, first: Command, second: Command, w1: World, w2: World, sum: Sum)
    requires forall a, b :: sum(a) == sum(b) ==> a == b
    requires file.Some? && first.baseChecksum == sum(file.value) && second.baseChecksum == sum(file.value) &&
             sum(file.value) != ""
    requires Apply(file, first, w1, sum).result.message.Applied? && first.content != file.value && !w2.readError
    ensures var o := Apply(Apply(file, first, w1, sum).file, second, w2, sum);
      o.result.message == Because(Changed) && o.file == Some(first.content)
  {
    ApplyIsTransaction(file, first, w1, sum);
  }
}
