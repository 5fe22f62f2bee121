/**
 purge_backups as a run of the protocol: listing, deletions and sweeps one after the other, with any
 choice of backups, running ones included, while other backups go on.
 */
module PurgeCalls {
  import opened Text
  import opened IndexNames
  import opened ObjectStorage
  import opened Layout
  import opened NodeListing
  import opened Purge
  import opened Protocol
  import opened Invariant
  import opened ProtocolSafety

  // ---------------------------------------------------------------- runs one after the other

  lemma {:induction false} RunsJoin(s: Site, w: World, a: seq<Action>, b: seq<Action>)
    requires ValidRun(s, w, a) && ValidRun(s, After(s, w, a), b)
    ensures ValidRun(s, w, a + b) && After(s, w, a + b) == After(s, After(s, w, a), b)
    decreases |a|
  {
    hide Allowed, Apply;
    if a == [] {
      assert a + b == b;
    } else {
      assert (a + b)[0] == a[0] && (a + b)[1..] == a[1..] + b;
      AllowedEnabled(s, w, a[0]);
      RunsJoin(s, Apply(s, w, a[0]), a[1..], b);
    }
  }

  lemma AllowedEnabled(s: Site, w: World, a: Action)
    requires Allowed(s, w, a)
    ensures Enabled(s, w, a)
  {
    hide Enabled, Protected, OutOfTheWay;
  }

  lemma OneStep(s: Site, w: World, a: Action)
    requires Allowed(s, w, a)
    ensures ValidRun(s, w, [a]) && Enabled(s, w, a) && After(s, w, [a]) == Apply(s, w, a)
  {
    AllowedEnabled(s, w, a);
    hide Allowed, Apply, Enabled;
    assert [a][1..] == [];
    assert ValidRun(s, Apply(s, w, a), [a][1..]);
  }

  lemma NoStep(s: Site, w: World)
    ensures ValidRun(s, w, []) && After(s, w, []) == w
  {
  }

  /** No sweep begins in it. */
  ghost predicate NoSweep(actions: seq<Action>) { forall a :: a in actions ==> !a.SweepList? }

  lemma SweepFree(a: seq<Action>, b: seq<Action>)
    ensures NoSweep(a + b) <==> NoSweep(a) && NoSweep(b)
  {
    assert forall x :: x in a ==> x in a + b;
    assert forall x :: x in b ==> x in a + b;
  }

  lemma NoSweepOne(a: Action)
    ensures NoSweep([a]) <==> !a.SweepList?
    ensures NoSweep([])
  {
    assert a in [a];
  }

  // ---------------------------------------------------------------- one purge

  function WithTodo(job: PurgeJob, todo: set<string>): PurgeJob {
    match job
    case Deleting(id, _, quiet) => Deleting(id, todo, quiet)
    case Unlisting(id, _, quiet) => Unlisting(id, todo, quiet)
  }

  lemma DeleteOne(s: Site, w: World, job: nat, k: string)
    requires job in w.purges && k in w.purges[job].todo
    ensures Allowed(s, w, PurgeDelete(job, k))
    ensures Apply(s, w, PurgeDelete(job, k))
            == w.(store := w.store - {k}, purges := w.purges[job := WithTodo(w.purges[job], w.purges[job].todo - {k})])
  {
  }

  lemma TodoTwice(job: PurgeJob, a: set<string>, b: set<string>)
    ensures WithTodo(WithTodo(job, a), b) == WithTodo(job, b) && WithTodo(job, job.todo) == job
  {
  }

  /** What deleting all of a purge's names does. */
  function Emptied(w: World, job: nat): World
    requires job in w.purges
  {
    w.(store := w.store - w.purges[job].todo, purges := w.purges[job := WithTodo(w.purges[job], {})])
  }

  lemma EmptiedNothing(w: World, job: nat)
    requires job in w.purges && w.purges[job].todo == {}
    ensures Emptied(w, job) == w
  {
    TodoTwice(w.purges[job], {}, {});
    assert w.store - {} == w.store;
  }

  lemma EmptiedStep(w: World, job: nat, k: string)
    requires job in w.purges && k in w.purges[job].todo
    ensures var w1 := w.(store := w.store - {k}, purges := w.purges[job := WithTodo(w.purges[job], w.purges[job].todo - {k})]);
            w1.purges[job].todo == w.purges[job].todo - {k} && Emptied(w1, job) == Emptied(w, job)
  {
    var todo := w.purges[job].todo;
    TodoFields(w.purges[job], todo - {k});
    TodoTwice(w.purges[job], todo - {k}, {});
    hide WithTodo;
    assert (w.store - {k}) - (todo - {k}) == w.store - todo;
  }

  lemma {:induction false} DeleteAll(s: Site, w: World, job: nat) returns (run: seq<Action>)
    requires job in w.purges
    ensures ValidRun(s, w, run) && After(s, w, run) == Emptied(w, job) && NoSweep(run)
    decreases |w.purges[job].todo|
  {
    hide *;
    if w.purges[job].todo == {} {
      NoStep(s, w);
      EmptiedNothing(w, job);
      NoSweepOne(PurgeEnd(job));
      run := [];
    } else {
      var k :| k in w.purges[job].todo;
      DeleteOne(s, w, job, k);
      EmptiedStep(w, job, k);
      OneStep(s, w, PurgeDelete(job, k));
      var rest := DeleteAll(s, Apply(s, w, PurgeDelete(job, k)), job);
      RunsJoin(s, w, [PurgeDelete(job, k)], rest);
      NoSweepOne(PurgeDelete(job, k));
      SweepFree([PurgeDelete(job, k)], rest);
      run := [PurgeDelete(job, k)] + rest;
    }
  }

  /** The backups a purge has disturbed by the time it is through. */
  ghost predicate DisturbsAtMost(w: World, id: BackupId, disturbed: set<BackupId>) {
    && (forall o :: o != id ==> (o in disturbed <==> o in w.disturbed))
    && (id in w.running ==> id in disturbed)
  }

  lemma ListOne(s: Site, w: World, job: nat, id: BackupId)
    requires InSite(s, id) && job !in w.purges
    ensures Allowed(s, w, PurgeList(job, id))
    ensures Apply(s, w, PurgeList(job, id))
            == w.(purges := w.purges[job := Deleting(id, ListObjects(w.store, BackupPath(s.p, id)), id !in w.running)],
                  live := w.live - {id}, disturbed := w.disturbed + {id}, stale := w.stale - {id})
  {
    hide ListObjects, BackupPath, InSite;
  }

  lemma EntriesOne(s: Site, w: World, job: nat)
    requires job in w.purges && w.purges[job].Deleting? && w.purges[job].todo == {}
    ensures Allowed(s, w, PurgeEntries(job))
    ensures Apply(s, w, PurgeEntries(job))
            == w.(purges := w.purges[job := Unlisting(w.purges[job].id, EntryNames(w.store, s.p, w.purges[job].id), w.purges[job].quiet)])
  {
    hide EntryNames;
  }

  lemma EndOne(s: Site, w: World, job: nat)
    requires job in w.purges
    ensures Allowed(s, w, PurgeEnd(job))
    ensures Apply(s, w, PurgeEnd(job))
            == w.(purges := w.purges - {job}, disturbed := if Undisturbed(w, job) then w.disturbed - {w.purges[job].id} else w.disturbed)
  {
    hide Undisturbed;
  }

  lemma CleanedStore(st: Store, p: string, id: BackupId)
    ensures var middle := st - ListObjects(st, BackupPath(p, id)); middle - EntryNames(middle, p, id) == PurgeOne(st, p, id)
  {
    hide ListObjects, Contains, BackupPath, IndexDir;
  }

  /** Purging one backup, deletion by deletion, gives the store of purge_backup. */
  lemma PurgeOneRun(s: Site, w: World, job: nat, id: BackupId) returns (run: seq<Action>)
    requires InSite(s, id) && job !in w.purges
    ensures ValidRun(s, w, run) && NoSweep(run)
    ensures var w' := After(s, w, run);
            && w' == w.(store := PurgeOne(w.store, s.p, id), live := w.live - {id}, disturbed := w'.disturbed, stale := w.stale - {id})
            && DisturbsAtMost(w, id, w'.disturbed)
  {
    hide *;
    ListOne(s, w, job, id);
    OneStep(s, w, PurgeList(job, id));
    var w1 := Apply(s, w, PurgeList(job, id));
    var run1 := DeleteAll(s, w1, job);
    var w2 := After(s, w1, run1);
    RunsJoin(s, w, [PurgeList(job, id)], run1);
    TodoFields(w1.purges[job], {});
    EmptiedFields(w1, job);
    EntriesOne(s, w2, job);
    OneStep(s, w2, PurgeEntries(job));
    var w3 := Apply(s, w2, PurgeEntries(job));
    RunsJoin(s, w, [PurgeList(job, id)] + run1, [PurgeEntries(job)]);
    var run2 := DeleteAll(s, w3, job);
    var w4 := After(s, w3, run2);
    RunsJoin(s, w, [PurgeList(job, id)] + run1 + [PurgeEntries(job)], run2);
    TodoFields(w3.purges[job], {});
    EmptiedFields(w3, job);
    EndOne(s, w4, job);
    OneStep(s, w4, PurgeEnd(job));
    RunsJoin(s, w, [PurgeList(job, id)] + run1 + [PurgeEntries(job)] + run2, [PurgeEnd(job)]);
    run := [PurgeList(job, id)] + run1 + [PurgeEntries(job)] + run2 + [PurgeEnd(job)];
    NoSweepOne(PurgeList(job, id));
    NoSweepOne(PurgeEntries(job));
    NoSweepOne(PurgeEnd(job));
    SweepFree([PurgeList(job, id)], run1);
    SweepFree([PurgeList(job, id)] + run1, [PurgeEntries(job)]);
    SweepFree([PurgeList(job, id)] + run1 + [PurgeEntries(job)], run2);
    SweepFree([PurgeList(job, id)] + run1 + [PurgeEntries(job)] + run2, [PurgeEnd(job)]);
    CleanedStore(w.store, s.p, id);
    EndedDisturbs(w, id, w4, job);
    assert w4.purges - {job} == w.purges;
  }

  lemma EmptiedFields(w: World, job: nat)
    requires job in w.purges
    ensures Emptied(w, job) == w.(store := w.store - w.purges[job].todo, purges := w.purges[job := WithTodo(w.purges[job], {})])
  {
    hide WithTodo;
  }

  lemma TodoFields(job: PurgeJob, todo: set<string>)
    ensures WithTodo(job, todo).id == job.id && WithTodo(job, todo).todo == todo && WithTodo(job, todo).quiet == job.quiet
    ensures WithTodo(job, todo).Deleting? == job.Deleting?
  {
  }

  lemma EndedDisturbs(w: World, id: BackupId, w4: World, job: nat)
    requires job in w4.purges && w4.disturbed == w.disturbed + {id} && w4.purges[job].id == id && w4.purges[job].quiet == (id !in w.running)
    ensures DisturbsAtMost(w, id, if Undisturbed(w4, job) then w4.disturbed - {id} else w4.disturbed)
  {
    if Undisturbed(w4, job) { UndisturbedUse(w4, job); }
    hide Undisturbed;
  }

  function IdSet(ids: seq<BackupId>): set<BackupId> { set id | id in ids }

  /** What a series of purges leaves: nothing changes but the store, and the purged backups are no longer live. */
  ghost predicate AfterPurges(s: Site, w: World, ids: seq<BackupId>, w': World) {
    && w' == w.(store := PurgeEach(w.store, s.p, ids), live := w.live - IdSet(ids), disturbed := w'.disturbed,
               stale := w.stale - IdSet(ids))
    && (forall o :: o in w.running && (o in w.disturbed || o in IdSet(ids)) ==> o in w'.disturbed)
  }

  lemma {:induction false} PurgeEachRun(s: Site, w: World, job: nat, ids: seq<BackupId>) returns (run: seq<Action>)
    requires (forall i :: 0 <= i < |ids| ==> InSite(s, ids[i])) && job !in w.purges
    ensures ValidRun(s, w, run) && AfterPurges(s, w, ids, After(s, w, run))
    decreases |ids|
  {
    hide PurgeOne, ValidRun, After, InSite;
    if ids == [] {
      NoStep(s, w);
      run := [];
      assert w.live - IdSet(ids) == w.live && w.stale - IdSet(ids) == w.stale;
    } else {
      var run1 := PurgeOneRun(s, w, job, ids[0]);
      var w1 := After(s, w, run1);
      var run2 := PurgeEachRun(s, w1, job, ids[1..]);
      RunsJoin(s, w, run1, run2);
      run := run1 + run2;
      assert w1.live - IdSet(ids[1..]) == w.live - IdSet(ids) && w1.stale - IdSet(ids[1..]) == w.stale - IdSet(ids);
    }
  }

  // ---------------------------------------------------------------- one sweep

  lemma SweepDeleteOne(s: Site, w: World, job: nat, k: string)
    requires job in w.sweeps && k in w.sweeps[job].todo
    ensures Allowed(s, w, SweepDelete(job, k))
    ensures Apply(s, w, SweepDelete(job, k))
            == w.(store := w.store - {k}, sweeps := w.sweeps[job := SweepJob(w.sweeps[job].fqdn, w.sweeps[job].todo - {k})])
  {
  }

  /** What deleting all a sweep has selected does. */
  function Swept(w: World, job: nat): World
    requires job in w.sweeps
  {
    w.(store := w.store - w.sweeps[job].todo, sweeps := w.sweeps[job := SweepJob(w.sweeps[job].fqdn, {})])
  }

  lemma SweptNothing(w: World, job: nat)
    requires job in w.sweeps && w.sweeps[job].todo == {}
    ensures Swept(w, job) == w
  {
    assert w.store - {} == w.store && w.sweeps[job := SweepJob(w.sweeps[job].fqdn, {})] == w.sweeps;
  }

  lemma SweptStep(w: World, job: nat, k: string)
    requires job in w.sweeps && k in w.sweeps[job].todo
    ensures var w1 := w.(store := w.store - {k}, sweeps := w.sweeps[job := SweepJob(w.sweeps[job].fqdn, w.sweeps[job].todo - {k})]);
            w1.sweeps[job].todo == w.sweeps[job].todo - {k} && Swept(w1, job) == Swept(w, job)
  {
    var todo := w.sweeps[job].todo;
    assert (w.store - {k}) - (todo - {k}) == w.store - todo;
  }

  lemma SweptFields(w: World, job: nat)
    requires job in w.sweeps
    ensures Swept(w, job) == w.(store := w.store - w.sweeps[job].todo, sweeps := w.sweeps[job := SweepJob(w.sweeps[job].fqdn, {})])
  {
  }

  lemma {:induction false} SweepAway(s: Site, w: World, job: nat) returns (run: seq<Action>)
    requires job in w.sweeps
    ensures ValidRun(s, w, run) && After(s, w, run) == Swept(w, job)
    decreases |w.sweeps[job].todo|
  {
    hide *;
    if w.sweeps[job].todo == {} {
      NoStep(s, w);
      SweptNothing(w, job);
      run := [];
    } else {
      var k :| k in w.sweeps[job].todo;
      SweepDeleteOne(s, w, job, k);
      SweptStep(w, job, k);
      OneStep(s, w, SweepDelete(job, k));
      var rest := SweepAway(s, Apply(s, w, SweepDelete(job, k)), job);
      RunsJoin(s, w, [SweepDelete(job, k)], rest);
      run := [SweepDelete(job, k)] + rest;
    }
  }

  ghost predicate Quiet(w: World, h: string) { forall id :: !UploadingOn(w, h, id) }

  lemma SweepListOne(s: Site, w: World, job: nat, pass: Pass, days: nat)
    requires job !in w.sweeps && pass.fqdn in s.hosts && Enumerates(pass.order, ListObjects(w.store, IndexRoot(s.p))) && Quiet(w, pass.fqdn)
    ensures var a := SweepList(job, pass.fqdn, pass.order, days); Enabled(s, w, a) && Allowed(s, w, a)
  {
    var a := SweepList(job, pass.fqdn, pass.order, days);
    assert Enabled(s, w, a) && NotOverlapping(w, a) by { hide Enumerates, ListObjects, UploadingOn; }
    hide *;
    SequentialAllowed(s, w, a);
  }

  lemma SweepEndOne(s: Site, w: World, job: nat)
    requires job in w.sweeps
    ensures Allowed(s, w, SweepEnd(job)) && Apply(s, w, SweepEnd(job)) == w.(sweeps := w.sweeps - {job})
  {
  }

  /** Sweeping one host, deletion by deletion, gives the store of cleanup_obsolete_files. */
  lemma SweepOneRun(s: Site, w: World, job: nat, pass: Pass, days: nat) returns (run: seq<Action>)
    requires GoodSite(s) && Inv(s, w) && job !in w.sweeps && pass.fqdn in s.hosts && Quiet(w, pass.fqdn)
    requires Enumerates(pass.order, ListObjects(w.store, IndexRoot(s.p)))
    ensures ValidRun(s, w, run)
    ensures var c := CleanupObsolete(w.store, s.p, pass.order, pass.fqdn, Cutoff(w.clock, days));
            c.Cleaned? && After(s, w, run) == w.(store := c.store)
  {
    hide *;
    var a := SweepList(job, pass.fqdn, pass.order, days);
    var cutoff := Cutoff(w.clock, days);
    SweepListOne(s, w, job, pass, days);
    SweepMarksLive(s, w, pass.order, pass.fqdn, cutoff);
    SweepListed(s, w, a);
    OneStep(s, w, a);
    var w1 := Apply(s, w, a);
    var run1 := SweepAway(s, w1, job);
    SweptFields(w1, job);
    RunsJoin(s, w, [a], run1);
    var w2 := After(s, w1, run1);
    SweepEndOne(s, w2, job);
    OneStep(s, w2, SweepEnd(job));
    RunsJoin(s, w, [a] + run1, [SweepEnd(job)]);
    run := [a] + run1 + [SweepEnd(job)];
    assert w2.sweeps - {job} == w.sweeps;
  }

  lemma HostsOfPasses(passes: seq<Pass>)
    ensures PassHosts(passes) == if passes == [] then {} else {passes[0].fqdn} + PassHosts(passes[1..])
  {
    if passes != [] {
      assert forall x :: x in passes <==> x == passes[0] || x in passes[1..];
    }
  }

  lemma AllUnfolds(st: Store, p: string, passes: seq<Pass>, cutoff: int)
    ensures passes == [] ==> SweepAll(st, p, passes, cutoff) == Cleaned(st, st, {})
    ensures passes != [] ==>
              var c := CleanupObsolete(st, p, passes[0].order, passes[0].fqdn, cutoff);
              && (c.Cleaned? ==> SweepAll(st, p, passes, cutoff) == SweepAll(c.store, p, passes[1..], cutoff))
              && (Enumerated(st, p, passes, cutoff) ==>
                    Enumerates(passes[0].order, ListObjects(st, IndexRoot(p))) && Enumerated(c.store, p, passes[1..], cutoff))
  {
    hide CleanupObsolete, Enumerates, ListObjects;
  }

  lemma {:induction false} SweepAllRun(s: Site, w: World, job: nat, passes: seq<Pass>, days: nat) returns (run: seq<Action>)
    requires GoodSite(s) && Inv(s, w) && job !in w.sweeps && PassHosts(passes) <= s.hosts
    requires forall h :: h in PassHosts(passes) ==> Quiet(w, h)
    requires Enumerated(w.store, s.p, passes, Cutoff(w.clock, days))
    ensures ValidRun(s, w, run)
    ensures var c := SweepAll(w.store, s.p, passes, Cutoff(w.clock, days)); c.Cleaned? && After(s, w, run) == w.(store := c.store)
    decreases |passes|
  {
    hide *;
    HostsOfPasses(passes);
    AllUnfolds(w.store, s.p, passes, Cutoff(w.clock, days));
    if passes == [] {
      NoStep(s, w);
      run := [];
    } else {
      var run1 := SweepOneRun(s, w, job, passes[0], days);
      InvOverRuns(s, w, run1);
      var w1 := After(s, w, run1);
      forall h | h in PassHosts(passes[1..]) ensures Quiet(w1, h) { StillQuiet(w, w1, h); }
      var run2 := SweepAllRun(s, w1, job, passes[1..], days);
      RunsJoin(s, w, run1, run2);
      run := run1 + run2;
    }
  }

  lemma StillQuiet(w: World, w': World, h: string)
    requires Quiet(w, h) && w'.running == w.running && forall o :: o in w.running && o in w.disturbed ==> o in w'.disturbed
    ensures Quiet(w', h)
  {
    forall id ensures !UploadingOn(w', h, id) { assert !UploadingOn(w, h, id); }
  }

  lemma PurgedQuiet(w: World, w': World, h: string, gone: set<BackupId>)
    requires forall id :: UploadingOn(w, h, id) ==> id in gone
    requires w'.running == w.running && forall o :: o in w.running && (o in w.disturbed || o in gone) ==> o in w'.disturbed
    ensures Quiet(w', h)
  {
    forall id ensures !UploadingOn(w', h, id) { assert UploadingOn(w, h, id) ==> id in gone; }
  }

  /**
   purge_backups, called with any choice of backups, running ones included, while no backup that the call
   leaves alone is uploading to a pool it sweeps: the call is a run of the protocol, so it never aborts and
   every backup not chosen keeps its manifest and all it names.
   */
  lemma PurgeCallSafe(s: Site, w: World, ids: seq<BackupId>, passes: seq<Pass>, days: nat, j: nat, k: nat) returns (run: seq<Action>)
    requires GoodSite(s) && Inv(s, w) && j !in w.purges && k !in w.sweeps
    requires (forall i :: 0 <= i < |ids| ==> InSite(s, ids[i])) && PassHosts(passes) <= s.hosts
    requires forall h, id :: h in PassHosts(passes) && UploadingOn(w, h, id) ==> id in IdSet(ids)
    requires Enumerated(PurgeEach(w.store, s.p, ids), s.p, passes, Cutoff(w.clock, days))
    ensures ValidRun(s, w, run)
    ensures var c := SweepAll(PurgeEach(w.store, s.p, ids), s.p, passes, Cutoff(w.clock, days));
            var w' := After(s, w, run);
            && c.Cleaned? && w'.store == c.store && w'.live == w.live - IdSet(ids) && w'.running == w.running
            && Inv(s, w') && SurvivorsIntact(s, w')
  {
    hide *;
    var run1 := PurgeEachRun(s, w, j, ids);
    var w1 := After(s, w, run1);
    PurgedUse(s, w, ids, w1);
    InvOverRuns(s, w, run1);
    forall h | h in PassHosts(passes) ensures Quiet(w1, h) { PurgedQuiet(w, w1, h, IdSet(ids)); }
    var run2 := SweepAllRun(s, w1, k, passes, days);
    InvOverRuns(s, w1, run2);
    RunsJoin(s, w, run1, run2);
    run := run1 + run2;
    InvIsSafe(s, After(s, w, run));
  }

  lemma PurgedUse(s: Site, w: World, ids: seq<BackupId>, w': World)
    requires AfterPurges(s, w, ids, w')
    ensures w'.store == PurgeEach(w.store, s.p, ids) && w'.live == w.live - IdSet(ids) && w'.clock == w.clock
    ensures w'.running == w.running && w'.purges == w.purges && w'.sweeps == w.sweeps
    ensures forall o :: o in w.running && (o in w.disturbed || o in IdSet(ids)) ==> o in w'.disturbed
  {
    hide PurgeEach, IdSet;
  }
}
