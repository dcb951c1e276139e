/** The scheduler's index of jobs against the callbacks registered in its per-timezone crons. */
module Scheduler {

  datatype JobDef = JobDef(id: string, schedule: string, tz: string, enabled: bool)

  /** A registered callback fires one job on one schedule. */
  datatype Callback = Callback(job: string, schedule: string)

  /** A cron: its callbacks by entry id, the next entry id, and whether its loop runs. */
  datatype Cron = Cron(callbacks: map<nat, Callback>, next: nat, started: bool)

  datatype Entry = Entry(tz: string, id: nat)

  type Crons = map<string, Cron>
  type Entries = map<string, Entry>

  /** The job set by id; of two jobs with one id the later counts. */
  function Wanted(jobs: seq<JobDef>): (r: map<string, JobDef>)
    ensures forall id :: id in r ==> r[id] in jobs && r[id].id == id
  {
    if jobs == [] then map[]
    else
      var last := jobs[|jobs| - 1];
      Wanted(jobs[..|jobs| - 1])[last.id := last]
  }

  ghost predicate Registered(entries: Entries, crons: Crons, job: string) {
    job in entries && var e := entries[job];
    e.tz in crons && e.id in crons[e.tz].callbacks && crons[e.tz].callbacks[e.id].job == job
  }

  ghost predicate Known(entries: Entries, crons: Crons, tz: string, id: nat) {
    tz in crons && id in crons[tz].callbacks && var job := crons[tz].callbacks[id].job;
    job in entries && entries[job] == Entry(tz, id)
  }

  /** Jobs and callbacks correspond one to one: an entry's callback fires its job, and every callback has its entry. */
  ghost predicate Agree(entries: Entries, crons: Crons) {
    && (forall job {:trigger Registered(entries, crons, job)} :: job in entries ==> Registered(entries, crons, job))
    && (forall tz, id {:trigger Known(entries, crons, tz, id)} :: tz in crons && id in crons[tz].callbacks ==>
          id < crons[tz].next && Known(entries, crons, tz, id))
  }

  /** The callback a job has. */
  ghost function CallbackOf(entries: Entries, crons: Crons, job: string): Callback
    requires Registered(entries, crons, job)
  {
    crons[entries[job].tz].callbacks[entries[job].id]
  }

  ghost predicate Matches(entries: Entries, crons: Crons, j: JobDef) {
    Registered(entries, crons, j.id) && entries[j.id].tz == j.tz &&
        CallbackOf(entries, crons, j.id).schedule == j.schedule
  }

  ghost predicate Unplaceable(want: map<string, JobDef>, parses: string -> bool, id: string) {
    id in want && want[id].enabled && !parses(want[id].schedule)
  }

  /** A wanted job that has its place: its entry as wanted when enabled, none otherwise. */
  ghost predicate Placed(want: map<string, JobDef>, parses: string -> bool, entries: Entries, crons: Crons,
                         id: string) {
    && id in want && !Unplaceable(want, parses, id)
    && (id in entries <==> want[id].enabled)
    && (id in entries ==> Matches(entries, crons, want[id]))
  }

  lemma PlacedStays(want: map<string, JobDef>, parses: string -> bool, entries: Entries, crons: Crons,
                    after: Entries, registered: Crons, id: string)
    requires Placed(want, parses, entries, crons, id) && (id in after <==> id in entries)
    requires Matches(after, registered, want[id]) <==> Matches(entries, crons, want[id])
    ensures Placed(want, parses, after, registered, id)
  {
  }

  /** Timezones only come, and a cron made later is not running. */
  ghost predicate SameLoops(before: Crons, after: Crons) {
    && before.Keys <= after.Keys
    && (forall tz :: tz in after ==> after[tz].started == (tz in before && before[tz].started))
  }

  function Unregister(crons: Crons, e: Entry): Crons {
    if e.tz in crons then crons[e.tz := crons[e.tz].(callbacks := crons[e.tz].callbacks - {e.id})] else crons
  }

  function WithCron(crons: Crons, tz: string): Crons {
    if tz in crons then crons else crons[tz := Cron(map[], 1, false)]
  }

  function Register(crons: Crons, j: JobDef): Crons
    requires j.tz in crons
  {
    var c := crons[j.tz];
    crons[j.tz := c.(callbacks := c.callbacks[c.next := Callback(j.id, j.schedule)], next := c.next + 1)]
  }

  /** Removing a job's callback and its entry keeps the correspondence and every other job's callback. */
  lemma RemoveKeeps(entries: Entries, crons: Crons, job: string)
    requires Agree(entries, crons) && job in entries
    ensures Agree(entries - {job}, Unregister(crons, entries[job]))
    ensures forall j: JobDef :: j.id != job ==>
              (Matches(entries - {job}, Unregister(crons, entries[job]), j) <==> Matches(entries, crons, j))
  {
    var e := entries[job];
    var after := Unregister(crons, e);
    forall other | other in entries && other != job ensures Registered(entries - {job}, after, other) {
      assert Registered(entries, crons, other) && Registered(entries, crons, job);
    }
    forall tz, id | tz in after && id in after[tz].callbacks
      ensures id < after[tz].next && Known(entries - {job}, after, tz, id)
    {
      assert Known(entries, crons, tz, id);
    }
    forall j: JobDef | j.id != job ensures Matches(entries - {job}, after, j) <==> Matches(entries, crons, j) {
      if j.id in entries {
        assert Registered(entries, crons, j.id) && Registered(entries, crons, job);
      }
    }
  }

  lemma NewCronKeeps(entries: Entries, crons: Crons, tz: string)
    requires Agree(entries, crons)
    ensures Agree(entries, WithCron(crons, tz))
    ensures forall j: JobDef :: Matches(entries, WithCron(crons, tz), j) <==> Matches(entries, crons, j)
  {
    var after := WithCron(crons, tz);
    forall job | job in entries ensures Registered(entries, after, job) {
      assert Registered(entries, crons, job);
    }
    forall z, id | z in after && id in after[z].callbacks ensures id < after[z].next && Known(entries, after, z, id) {
      assert Known(entries, crons, z, id);
    }
    forall j: JobDef ensures Matches(entries, after, j) <==> Matches(entries, crons, j) {
      if j.id in entries {
        assert Registered(entries, crons, j.id);
      }
    }
  }

  lemma AddKeeps(entries: Entries, crons: Crons, j: JobDef)
    requires Agree(entries, crons) && j.tz in crons && j.id !in entries
    ensures Agree(entries[j.id := Entry(j.tz, crons[j.tz].next)], Register(crons, j))
    ensures Matches(entries[j.id := Entry(j.tz, crons[j.tz].next)], Register(crons, j), j)
    ensures forall o: JobDef :: o.id != j.id ==>
      (Matches(entries[j.id := Entry(j.tz, crons[j.tz].next)], Register(crons, j), o) <==> Matches(entries, crons, o))
  {
    var after, index := Register(crons, j), entries[j.id := Entry(j.tz, crons[j.tz].next)];
    forall job | job in index ensures Registered(index, after, job) {
      if job != j.id {
        assert Registered(entries, crons, job) && Known(entries, crons, entries[job].tz, entries[job].id);
      }
    }
    forall z, id | z in after && id in after[z].callbacks ensures id < after[z].next && Known(index, after, z, id) {
      if !(z == j.tz && id == crons[j.tz].next) {
        assert Known(entries, crons, z, id);
      }
    }
    forall o: JobDef | o.id != j.id ensures Matches(index, after, o) <==> Matches(entries, crons, o) {
      if o.id in entries {
        assert Registered(entries, crons, o.id);
      }
    }
  }

  class Scheduler {
    var crons: Crons
    var entries: Entries

    ghost predicate Valid()
      reads this
    {
      Agree(entries, crons)
    }

    constructor ()
      ensures Valid() && crons == map[] && entries == map[]
    {
      crons, entries := map[], map[];
    }

    method Forget(job: string)
      requires Valid() && job in entries
      modifies this
      ensures Valid() && entries.Keys == old(entries).Keys - {job}
      ensures SameLoops(old(crons), crons)
      ensures forall j: JobDef :: j.id != job ==> (Matches(entries, crons, j) <==> Matches(old(entries), old(crons), j))
    {
      RemoveKeeps(entries, crons, job);
      crons := Unregister(crons, entries[job]);
      entries := entries - {job};
    }

    /**
     * Registers a job that has no entry, making its timezone's cron on first use; a schedule that does not
     * parse adds nothing.
     */
    method Add(j: JobDef, parses: bool) returns (ok: bool)
      requires Valid() && j.id !in entries
      modifies this
      ensures Valid() && ok == parses && SameLoops(old(crons), crons)
      ensures entries.Keys == old(entries).Keys + (if ok then {j.id} else {})
      ensures ok ==> Matches(entries, crons, j)
      ensures forall o: JobDef :: o.id != j.id ==>
              (Matches(entries, crons, o) <==> Matches(old(entries), old(crons), o))
    {
      NewCronKeeps(entries, crons, j.tz);
      crons := WithCron(crons, j.tz);
      ok := parses;
      if ok {
        AddKeeps(entries, crons, j);
        var id := crons[j.tz].next;
        crons := Register(crons, j);
        entries := entries[j.id := Entry(j.tz, id)];
      }
    }

    method RemoveAbsent(want: map<string, JobDef>)
      requires Valid()
      modifies this
      ensures Valid() && SameLoops(old(crons), crons) && entries.Keys == old(entries).Keys * want.Keys
      ensures forall o: JobDef :: o.id in want ==>
              (Matches(entries, crons, o) <==> Matches(old(entries), old(crons), o))
    {
      var rest := entries.Keys;
      while rest != {}
        invariant Valid() && SameLoops(old(crons), crons)
        invariant rest <= entries.Keys <= old(entries).Keys
        invariant forall id :: id in old(entries) && id !in rest ==> (id in entries <==> id in want)
        invariant forall o: JobDef :: o.id in want ==>
                  (Matches(entries, crons, o) <==> Matches(old(entries), old(crons), o))
        decreases |rest|
      {
        var id :| id in rest;
        rest := rest - {id};
        if id !in want {
          Forget(id);
        }
      }
    }

    /** Replaces whatever a wanted job had, unless it is disabled, in which case it ends with nothing. */
    method Place(j: JobDef, parses: bool) returns (ok: bool)
      requires Valid()
      modifies this
      ensures Valid() && SameLoops(old(crons), crons) && ok == (parses || !j.enabled)
      ensures entries.Keys == old(entries).Keys - {j.id} + (if j.enabled && ok then {j.id} else {})
      ensures j.enabled && ok ==> Matches(entries, crons, j)
      ensures forall o: JobDef :: o.id != j.id ==>
              (Matches(entries, crons, o) <==> Matches(old(entries), old(crons), o))
    {
      if j.id in entries {
        Forget(j.id);
      }
      if !j.enabled {
        return true;
      }
      ok := Add(j, parses);
    }

    /** Gives every wanted job its place, in any order, up to the first one that cannot have it. */
    method PlaceAll(want: map<string, JobDef>, parses: string -> bool) returns (ok: bool)
      requires Valid() && entries.Keys <= want.Keys && forall id :: id in want ==> want[id].id == id
      modifies this
      ensures Valid() && SameLoops(old(crons), crons) && entries.Keys <= want.Keys
      ensures ok <==> forall id :: !Unplaceable(want, parses, id)
      ensures ok ==> forall id :: id in entries <==> id in want && want[id].enabled
      ensures ok ==> forall id :: id in entries ==> Matches(entries, crons, want[id])
      ensures forall o: JobDef :: o.id in entries ==>
        Matches(entries, crons, want[o.id]) || (Matches(entries, crons, o) <==> Matches(old(entries), old(crons), o))
    {
      var todo: set<string> := want.Keys;
      ok := true;
      while todo != {}
        invariant Valid() && SameLoops(old(crons), crons) && todo <= want.Keys && entries.Keys <= want.Keys && ok
        invariant forall id :: id in want && id !in todo ==> Placed(want, parses, entries, crons, id)
        invariant forall o: JobDef :: o.id in todo ==>
                  (Matches(entries, crons, o) <==> Matches(old(entries), old(crons), o))
        decreases |todo|
      {
        var id :| id in todo;
        ghost var before, registered, done := entries, crons, want.Keys - todo;
        todo := todo - {id};
        ok := Place(want[id], parses(want[id].schedule));
        if !ok {
          assert Unplaceable(want, parses, id);
          return;
        }
        assert Placed(want, parses, entries, crons, id);
        forall i | i in done ensures Placed(want, parses, entries, crons, i) {
          PlacedStays(want, parses, before, registered, entries, crons, i);
        }
      }
      assert forall id :: id in want ==> Placed(want, parses, entries, crons, id);
    }

    /**
     * Syncs to a job set. It succeeds exactly when every enabled job's schedule parses, and then the
     * entries are exactly the enabled jobs, each with its timezone and schedule. Stopping early it
     * leaves only wanted jobs, each either as wanted or as it was.
     */
    method Apply(jobs: seq<JobDef>, parses: string -> bool) returns (ok: bool)
      requires Valid()
      modifies this
      ensures Valid() && SameLoops(old(crons), crons) && entries.Keys <= Wanted(jobs).Keys
      ensures ok <==> forall id :: !Unplaceable(Wanted(jobs), parses, id)
      ensures ok ==> forall id :: id in entries <==> id in Wanted(jobs) && Wanted(jobs)[id].enabled
      ensures ok ==> forall id :: id in entries ==> Matches(entries, crons, Wanted(jobs)[id])
      ensures forall o: JobDef :: o.id in entries ==>
        Matches(entries, crons, Wanted(jobs)[o.id]) ||
            (Matches(entries, crons, o) <==> Matches(old(entries), old(crons), o))
    {
      var want: map<string, JobDef> := map[];
      for i := 0 to |jobs|
        invariant want == Wanted(jobs[..i])
      {
        assert jobs[..i + 1][..i] == jobs[..i];
        want := want[jobs[i].id := jobs[i]];
      }
      assert jobs[..|jobs|] == jobs;
      RemoveAbsent(want);
      ok := PlaceAll(want, parses);
    }

    method Start()
      requires Valid()
      modifies this`crons
      ensures Valid() && crons.Keys == old(crons).Keys
      ensures forall tz :: tz in crons ==> crons[tz] == old(crons)[tz].(started := true)
    {
      crons := map tz | tz in crons :: crons[tz].(started := true);
      forall tz, id | tz in crons && id in crons[tz].callbacks
        ensures id < crons[tz].next && Known(entries, crons, tz, id)
      {
        assert Known(entries, old(crons), tz, id);
      }
      forall job | job in entries ensures Registered(entries, crons, job) {
        assert Registered(entries, old(crons), job);
      }
    }

    /** After a start, exactly the timezones known at that moment run: a timezone first applied later never does. */
    method StartThenApply(jobs: seq<JobDef>, parses: string -> bool) returns (ok: bool)
      requires Valid()
      modifies this
      ensures Valid() && old(crons).Keys <= crons.Keys
      ensures forall tz :: tz in crons ==> (crons[tz].started <==> tz in old(crons))
      ensures ok <==> forall id :: !Unplaceable(Wanted(jobs), parses, id)
      ensures ok ==> forall id :: id in entries <==> id in Wanted(jobs) && Wanted(jobs)[id].enabled
      ensures ok ==> forall id :: id in entries ==> Matches(entries, crons, Wanted(jobs)[id])
    {
      Start();
      ok := Apply(jobs, parses);
    }
  }

  lemma OneWanted(job: JobDef)
    ensures Wanted([job]) == map[job.id := job]
  {
    assert [job][..0] == [];
  }

  /** Started before its first job arrives, the scheduler registers the job and never runs it. */
  method FirstJobNeverRuns() returns (s: Scheduler)
    ensures fresh(s) && s.Valid() && "backup" in s.entries
    ensures s.entries["backup"].tz == "UTC" && "UTC" in s.crons && !s.crons["UTC"].started
  {
    s := new Scheduler();
    var job := JobDef("backup", "0 3 * * *", "UTC", true);
    OneWanted(job);
    var ok := s.StartThenApply([job], _ => true);
    assert "backup" in s.entries && Matches(s.entries, s.crons, job);
  }
}
