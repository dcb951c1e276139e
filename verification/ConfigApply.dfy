/**
 * The write pipeline every config connector goes through: back up, check, validate, write,
 * activate, confirm health, and undo everything when a later step fails.
 */
module ConfigApply {
  import opened Seqs

  type Bytes = string
  type File = Option<Bytes>

  datatype Status = Succeeded | Failed | Invalid | Unauthorized | Unsupported
  datatype StepName =
    Backup | Precheck | Validate | Write | ValidateLive | Activate | Health | Rollback | RollbackActivate
  datatype Step = Step(name: StepName, ok: bool)

  datatype Cause = Unreadable | Changed | Rejected | WriteFailed | InvalidInContext | ActivateFailed | Unhealthy
  datatype Message =
    Applied | Validated | Because(cause: Cause) | RolledBack(cause: Cause) | RollbackFailed(cause: Cause)

  datatype Result = Result(status: Status, message: Message, checksum: Option<string>, steps: seq<Step>)

  datatype Command = Command(content: Bytes, baseChecksum: string, dryRun: bool)

  datatype WriteError = NoPrivilege | IOError

  /** How one atomic write goes: the direct way if the path is writable, else through a root helper. */
  datatype WriteWorld = WriteWorld(direct: bool, create: bool, written: nat, sync: bool, close: bool, chmod: bool,
                                   place: bool, helperRan: bool)

  datatype RemoveWorld = RemoveWorld(removed: bool, helperRan: bool, moved: bool)

  /** Everything the host and the connector decide during one apply. */
  datatype World = World(readError: bool, validate: Status, write: WriteWorld, live: Status, activate: Status,
                         healthy: bool, rewrite: WriteWorld, remove: RemoveWorld, reactivate: Status)

  /** One call of the connector's activation: what was on disk, and whether it succeeded. */
  datatype Activation = Activation(content: File, ok: bool)

  type Sum = Bytes -> string

  // ---- one atomic write ----

  /** How a write of n bytes ends; a short write is an error. */
  function WriteOutcome(w: WriteWorld, n: nat): Option<WriteError> {
    if w.direct then
      if w.create && w.written >= n && w.sync && w.close && w.chmod && w.place then None else Some(IOError)
    else if !w.create || w.written < n || !w.close then Some(IOError)
    else if !w.helperRan then Some(NoPrivilege)
    else if w.place then None
    else Some(IOError)
  }

  function RemoveOutcome(w: RemoveWorld, file: File): Option<WriteError> {
    if w.removed || file.None? then None
    else if !w.helperRan then Some(NoPrivilege)
    else if w.moved then None
    else Some(IOError)
  }

  // ---- the pipeline as a function ----

  datatype Outcome = Outcome(file: File, activations: seq<Activation>, result: Result)

  function Pass(name: StepName): Step { Step(name, true) }
  function Fail(name: StepName): Step { Step(name, false) }

  /** How putting the earlier file back ends, when the candidate has replaced it. */
  function UndoOutcome(before: File, rejected: Bytes, world: World): Option<WriteError> {
    match before
    case Some(bytes) => WriteOutcome(world.rewrite, |bytes|)
    case None => RemoveOutcome(world.remove, Some(rejected))
  }

  /** Undoing an apply that has activated `done` so far. */
  function Undo(before: File, rejected: Bytes, world: World, status: Status, cause: Cause,
                done: seq<Activation>, steps: seq<Step>): Outcome {
    if UndoOutcome(before, rejected, world).Some? then
      Outcome(Some(rejected), done, Result(Failed, RollbackFailed(cause), None, steps + [Fail(Rollback)]))
    else
      var ok := world.reactivate == Succeeded;
      Outcome(before, done + [Activation(before, ok)],
              Result(status, RolledBack(cause), None, steps + [Pass(Rollback)] + [Step(RollbackActivate, ok)]))
  }

  function Refused(file: File, status: Status, cause: Cause, steps: seq<Step>): Outcome {
    Outcome(file, [], Result(status, Because(cause), None, steps))
  }

  predicate Stale(file: File, cmd: Command, sum: Sum) {
    cmd.baseChecksum != "" && file.Some? && sum(file.value) != cmd.baseChecksum
  }

  function Checked(file: File, cmd: Command): seq<Step> {
    if cmd.baseChecksum != "" && file.Some? then [Pass(Backup), Pass(Precheck)] else [Pass(Backup)]
  }

  function Apply(file: File, cmd: Command, world: World, sum: Sum): Outcome {
    if world.readError then Refused(file, Failed, Unreadable, [Fail(Backup)])
    else if Stale(file, cmd, sum) then Refused(file, Invalid, Changed, [Pass(Backup), Fail(Precheck)])
    else if world.validate != Succeeded then
      Refused(file, world.validate, Rejected, Checked(file, cmd) + [Fail(Validate)])
    else if cmd.dryRun then
      Outcome(file, [], Result(Succeeded, Validated, None, Checked(file, cmd) + [Pass(Validate)]))
    else
      WriteAndActivate(file, cmd, world, sum, Checked(file, cmd) + [Pass(Validate)])
  }

  /** From the write on: every failure past it is undone. */
  function WriteAndActivate(file: File, cmd: Command, world: World, sum: Sum, steps: seq<Step>): Outcome {
    var err := WriteOutcome(world.write, |cmd.content|);
    if err.Some? then
      Refused(file, if err.value.NoPrivilege? then Unauthorized else Failed, WriteFailed, steps + [Fail(Write)])
    else if world.live != Succeeded then
      Undo(file, cmd.content, world, Invalid, InvalidInContext, [], steps + [Pass(Write)] + [Fail(ValidateLive)])
    else
      ActivateAndWatch(file, cmd, world, sum, steps + [Pass(Write)] + [Pass(ValidateLive)])
  }

  /** From the activation on, with the candidate in place. */
  function ActivateAndWatch(file: File, cmd: Command, world: World, sum: Sum, steps: seq<Step>): Outcome {
    var acts := [Activation(Some(cmd.content), world.activate == Succeeded)];
    if world.activate != Succeeded then
      Undo(file, cmd.content, world, world.activate, ActivateFailed, acts, steps + [Fail(Activate)])
    else if !world.healthy then
      Undo(file, cmd.content, world, Failed, Unhealthy, acts, steps + [Pass(Activate)] + [Fail(Health)])
    else
      Outcome(Some(cmd.content), acts,
              Result(Succeeded, Applied, Some(sum(cmd.content)), steps + [Pass(Activate)] + [Pass(Health)]))
  }

  // ---- the pipeline as it runs ----

  function Shown(files: map<string, Bytes>, path: string): File {
    if path in files then Some(files[path]) else None
  }

  /**
   * What an apply may do to the rest of the disk: nothing, except that a file that did not exist
   * before may end up beside its path with the rejected bytes.
   */
  ghost predicate OnlyTouches(path: string, aside: string, was: map<string, Bytes>, now: map<string, Bytes>,
                              existed: bool, rejected: Bytes)
  {
    && now - {path, aside} == was - {path, aside}
    && (existed ==> now - {path} == was - {path})
    && (Shown(now, aside) == Shown(was, aside) || Shown(now, aside) == Some(rejected))
  }

  lemma WriteTouches(path: string, aside: string, was: map<string, Bytes>, now: map<string, Bytes>,
                     existed: bool, rejected: Bytes)
    requires path != aside && OnlyTouches(path, aside, was[path := rejected], now, existed, rejected)
    ensures OnlyTouches(path, aside, was, now, existed, rejected)
  {
    var written := was[path := rejected];
    assert written - {path} == was - {path};
    assert written - {path, aside} == was - {path, aside};
  }

  class Box {
    var files: map<string, Bytes>
    var activations: seq<Activation>
    /** Every state the disk has gone through, one per file operation. */
    ghost var views: seq<map<string, Bytes>>

    constructor (files: map<string, Bytes>)
      ensures this.files == files && activations == [] && views == []
    {
      this.files, activations, views := files, [], [];
    }

    function Read(path: string): File
      reads this`files
    {
      Shown(files, path)
    }

    method Put(path: string, bytes: Bytes)
      modifies this`files, this`views
      ensures files == old(files)[path := bytes] && views == old(views) + [files]
    {
      files := files[path := bytes];
      views := views + [files];
    }

    method Delete(path: string)
      modifies this`files, this`views
      ensures files == old(files) - {path} && views == old(views) + [files]
    {
      files := files - {path};
      views := views + [files];
    }

    method Rename(from: string, to: string)
      requires from in files && from != to
      modifies this`files, this`views
      ensures files == (old(files) - {from})[to := old(files)[from]] && views == old(views) + [files]
    {
      files := (files - {from})[to := files[from]];
      views := views + [files];
    }

    /** No reader ever finds anything at path but its old or its new content. */
    ghost predicate NeverTorn(path: string, from: nat, before: File, after: File)
      reads this`views
    {
      forall k :: from <= k < |views| ==> Shown(views[k], path) == before || Shown(views[k], path) == after
    }

    /** Fills a temporary file; a short write leaves nothing behind. */
    method Stage(tmp: string, content: Bytes, written: nat) returns (ok: bool)
      requires tmp !in files
      modifies this`files, this`views
      ensures ok == (written >= |content|)
      ensures files == if ok then old(files)[tmp := content] else old(files)
      ensures old(views) <= views
      ensures forall k :: |old(views)| <= k < |views| ==> views[k] - {tmp} == old(files)
      ensures ok ==> views == old(views) + [old(files)[tmp := ""], files]
      ensures !ok ==> views == old(views) + [old(files)[tmp := ""], old(files)[tmp := content[..written]], files]
    {
      Put(tmp, "");
      ok := written >= |content|;
      if ok {
        Put(tmp, content);
        assert files == old(files)[tmp := content];
      } else {
        Put(tmp, content[..written]);
        assert files == old(files)[tmp := content[..written]];
        Delete(tmp);
        assert files == old(files);
      }
    }

    /**
     * Replaces a file through a temporary one: all or nothing at every point where it can fail,
     * the temporary file gone either way, and no torn content visible in between.
     */
    method WriteFileAtomic(path: string, content: Bytes, tmp: string, w: WriteWorld) returns (err: Option<WriteError>)
      requires tmp != path && tmp !in files
      modifies this`files, this`views
      ensures err == WriteOutcome(w, |content|)
      ensures files == if err.None? then old(files)[path := content] else old(files)
      ensures old(views) <= views && NeverTorn(path, |old(views)|, old(Read(path)), Some(content))
    {
      if !w.create {
        return Some(IOError);
      }
      var ok := Stage(tmp, content, w.written);
      if !ok {
        return Some(IOError);
      }
      var ready := if w.direct then w.sync && w.close && w.chmod && w.place else w.close && w.helperRan && w.place;
      if !ready {
        Delete(tmp);
        return if !w.direct && w.close && !w.helperRan then Some(NoPrivilege) else Some(IOError);
      }
      if w.direct {
        Rename(tmp, path);
      } else {
        Put(path, files[tmp]);
        Delete(tmp);
      }
      return None;
    }

    /** Removes a file the apply created; the root helper moves it aside instead. */
    method RemoveFile(path: string, aside: string, w: RemoveWorld) returns (err: Option<WriteError>)
      requires aside != path
      modifies this`files, this`views
      ensures err == RemoveOutcome(w, old(Read(path)))
      ensures err.None? ==> Read(path) == None
      ensures err.Some? ==> files == old(files)
      ensures files - {path, aside} == old(files) - {path, aside}
      ensures Read(aside) == old(Read(aside)) || Read(aside) == old(Read(path))
      ensures old(views) <= views && NeverTorn(path, |old(views)|, old(Read(path)), None)
    {
      if w.removed || path !in files {
        Delete(path);
        return None;
      }
      if !w.helperRan {
        return Some(NoPrivilege);
      }
      if !w.moved {
        return Some(IOError);
      }
      Rename(path, aside);
      return None;
    }

    method ActivateService(path: string, ok: bool)
      modifies this`activations
      ensures activations == old(activations) + [Activation(Read(path), ok)]
    {
      activations := activations + [Activation(Read(path), ok)];
    }

    /** Puts the pre-apply bytes back (or the file away) and activates again. */
    method RollbackTo(before: File, path: string, tmp: string, aside: string, world: World, status: Status,
                      cause: Cause, steps: seq<Step>)
        returns (result: Result)
      requires tmp != path && aside != path && path in files && tmp !in files
      modifies this
      ensures var undone := Undo(before, old(files)[path], world, status, cause, old(activations), steps);
        Read(path) == undone.file && activations == undone.activations && result == undone.result
      ensures OnlyTouches(path, aside, old(files), files, before.Some?, old(files)[path])
      ensures old(views) <= views && NeverTorn(path, |old(views)|, old(Read(path)), before)
    {
      var err;
      match before {
        case Some(bytes) =>
          err := WriteFileAtomic(path, bytes, tmp, world.rewrite);
        case None =>
          err := RemoveFile(path, aside, world.remove);
      }
      if err.Some? {
        return Result(Failed, RollbackFailed(cause), None, steps + [Fail(Rollback)]);
      }
      var ok := world.reactivate == Succeeded;
      ActivateService(path, ok);
      return Result(status, RolledBack(cause), None, steps + [Pass(Rollback)] + [Step(RollbackActivate, ok)]);
    }

    method ApplyConfig(path: string, tmp: string, aside: string, cmd: Command, world: World, sum: Sum)
        returns (result: Result)
      requires tmp != path && aside != path && tmp !in files
      modifies this
      ensures var applied := Apply(old(Read(path)), cmd, world, sum);
        && Read(path) == applied.file && result == applied.result
        && activations == old(activations) + applied.activations
      ensures OnlyTouches(path, aside, old(files), files, path in old(files), cmd.content)
      ensures old(views) <= views && NeverTorn(path, |old(views)|, old(Read(path)), Some(cmd.content))
    {
      var before := Read(path);
      var stopped, steps := CheckCandidate(before, cmd, world, sum);
      if stopped.Some? {
        return stopped.value;
      }
      result := WriteThenActivate(before, path, tmp, aside, cmd, world, sum, steps);
    }

    /** The steps before anything is written; a result here ends the apply. */
    method CheckCandidate(before: File, cmd: Command, world: World, sum: Sum)
        returns (stopped: Option<Result>, steps: seq<Step>)
      ensures stopped.Some? ==> Apply(before, cmd, world, sum) == Outcome(before, [], stopped.value)
      ensures stopped.None? ==> Apply(before, cmd, world, sum) == WriteAndActivate(before, cmd, world, sum, steps)
    {
      steps := [];
      if world.readError {
        return Some(Result(Failed, Because(Unreadable), None, [Fail(Backup)])), steps;
      }
      steps := [Pass(Backup)];
      if cmd.baseChecksum != "" && before.Some? {
        if sum(before.value) != cmd.baseChecksum {
          return Some(Result(Invalid, Because(Changed), None, [Pass(Backup), Fail(Precheck)])), steps;
        }
        steps := [Pass(Backup), Pass(Precheck)];
      }
      steps := steps + [Step(Validate, world.validate == Succeeded)];
      if world.validate != Succeeded {
        return Some(Result(world.validate, Because(Rejected), None, steps)), steps;
      }
      if cmd.dryRun {
        return Some(Result(Succeeded, Validated, None, steps)), steps;
      }
      stopped := None;
    }

    /** From the write on. Whatever is undone, nothing but the old and the new bytes is ever seen. */
    method WriteThenActivate(before: File, path: string, tmp: string, aside: string, cmd: Command, world: World,
                             sum: Sum, checked: seq<Step>)
        returns (result: Result)
      requires tmp != path && aside != path && tmp !in files && before == Read(path)
      modifies this
      ensures var applied := WriteAndActivate(before, cmd, world, sum, checked);
        && Read(path) == applied.file && result == applied.result
        && activations == old(activations) + applied.activations
      ensures OnlyTouches(path, aside, old(files), files, path in old(files), cmd.content)
      ensures old(views) <= views && NeverTorn(path, |old(views)|, before, Some(cmd.content))
    {
      var steps := checked;
      var err := WriteFileAtomic(path, cmd.content, tmp, world.write);
      if err.Some? {
        var status := if err.value.NoPrivilege? then Unauthorized else Failed;
        return Result(status, Because(WriteFailed), None, steps + [Fail(Write)]);
      }
      steps := steps + [Pass(Write)] + [Step(ValidateLive, world.live == Succeeded)];
      if world.live != Succeeded {
        result := RollbackTo(before, path, tmp, aside, world, Invalid, InvalidInContext, steps);
        WriteTouches(path, aside, old(files), files, path in old(files), cmd.content);
        return;
      }
      result := ActivateThenWatch(before, path, tmp, aside, cmd, world, sum, steps);
      WriteTouches(path, aside, old(files), files, path in old(files), cmd.content);
    }

    /** The service picks the candidate up and has to come back healthy, or the earlier bytes are put back. */
    method ActivateThenWatch(before: File, path: string, tmp: string, aside: string, cmd: Command, world: World,
                             sum: Sum, lived: seq<Step>)
        returns (result: Result)
      requires tmp != path && aside != path && tmp !in files && Read(path) == Some(cmd.content)
      modifies this
      ensures var applied := ActivateAndWatch(before, cmd, world, sum, lived);
        && Read(path) == applied.file && result == applied.result
        && activations == old(activations) + applied.activations
      ensures OnlyTouches(path, aside, old(files), files, before.Some?, cmd.content)
      ensures old(views) <= views && NeverTorn(path, |old(views)|, before, Some(cmd.content))
    {
      ActivateService(path, world.activate == Succeeded);
      var steps := lived + [Step(Activate, world.activate == Succeeded)];
      if world.activate != Succeeded {
        result := RollbackTo(before, path, tmp, aside, world, world.activate, ActivateFailed, steps);
        return;
      }
      steps := steps + [Step(Health, world.healthy)];
      if !world.healthy {
        result := RollbackTo(before, path, tmp, aside, world, Failed, Unhealthy, steps);
        return;
      }
      return Result(Succeeded, Applied, Some(sum(cmd.content)), steps);
    }
  }
}
