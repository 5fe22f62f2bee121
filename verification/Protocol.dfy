/**
 The whole system as a state machine: any number of node backups, purges and sweeps under way at once,
 each writing or deleting its objects one by one in the order of the source, stopping anywhere, and the
 clock. Actions carry every choice the environment makes, driver orders included.
 */
module Protocol {
  import opened Text
  import opened IndexNames
  import opened ObjectStorage
  import opened Layout
  import opened NodeListing
  import opened Purge
  import opened TableKeys
  import opened PoolIndex
  import opened Snapshots
  import opened Manifests

  /** The snapshot a backup works on, and what its listing of the pool showed. */
  datatype Plan = Plan(run: Run, items: seq<ManifestObject>, tables: seq<Table>)

  /** Where a running backup is. */
  datatype Process =
    | Starting(mode: Mode, done: nat, started: nat)
    | Uploading(mode: Mode, started: nat, began: nat, kept: set<string>, pending: set<Upload>, manifest: Manifest, plan: Plan)
    | Finishing(mode: Mode, manifest: Manifest, done: nat, finished: nat)

  /** A backup whose manifest has been written and whose purge has not begun since. */
  datatype Complete = Complete(mode: Mode, manifest: Manifest, started: nat, plan: Plan)

  /**
   A purge_backup call under way: the listed names it still has to delete, first objects, then index
   entries. quiet: the backup has not been running since the objects were listed.
   */
  datatype PurgeJob =
    | Deleting(id: BackupId, todo: set<string>, quiet: bool)
    | Unlisting(id: BackupId, todo: set<string>, quiet: bool)

  /** A cleanup_obsolete_files call under way: the selected objects it still has to delete. */
  datatype SweepJob = SweepJob(fqdn: string, todo: set<string>)

  /**
   disturbed: the backups whose purge has begun and has not come to its end undisturbed, which may have
   left anything of them behind. stale: names of such backups that are in use again, with leftovers of the
   old backup still around.
   */
  datatype World = World(store: Store, clock: nat, running: map<BackupId, Process>, live: map<BackupId, Complete>,
                         purges: map<nat, PurgeJob>, sweeps: map<nat, SweepJob>, disturbed: set<BackupId>, stale: set<BackupId>)

  function Meta(id: BackupId, file: string): KeyForm { Own(id, "meta/" + file) }

  /** The writes of start_backup, in order. */
  function Head(id: BackupId, mode: Mode, started: nat): (r: seq<KeyForm>)
    ensures |r| >= 6 && r[0] == Meta(id, "schema.cql")
  {
    [Meta(id, "schema.cql"), Meta(id, "tokenmap.json"), Meta(id, "server_version.json")]
    + (if mode.Differential? then [Meta(id, "differential")] else [])
    + [Entry(id, Tokenmap, 0), Entry(id, Schema, 0), Entry(id, Started, started)]
    + (if mode.Differential? then [Entry(id, IndexNames.Differential, 0)] else [])
  }

  /** The writes of do_backup after the manifest, in order. */
  function Tail(id: BackupId, finished: nat): (r: seq<KeyForm>)
    ensures |r| == 4
  {
    [Entry(id, IndexNames.Manifest, 0), Entry(id, Finished, finished),
     Latest(id.fqdn, "tokenmap.json"), Latest(id.fqdn, "backup_name.txt")]
  }

  /** Only a schema dump may be empty. */
  predicate MayBeEmpty(f: KeyForm) { (f.Own? && f.rest == "meta/schema.cql") || (f.Entry? && f.kind.Schema?) }

  datatype Action =
    | Tick(seconds: nat)
    | Begin(id: BackupId, mode: Mode)
    | WriteHead(id: BackupId, size: nat, data: string)
    | ListPool(id: BackupId, order: seq<string>, root: seq<string>, tag: string, tables: seq<Table>, md5Checks: bool)
    | Send(id: BackupId, upload: Upload)
    | Publish(id: BackupId, size: nat)
    | WriteTail(id: BackupId, size: nat, data: string)
    | Stop(id: BackupId)
    | PurgeList(job: nat, id: BackupId)
    | PurgeDelete(job: nat, key: string)
    | PurgeEntries(job: nat)
    | PurgeEnd(job: nat)
    | SweepList(job: nat, fqdn: string, order: seq<string>, graceDays: nat)
    | SweepDelete(job: nat, key: string)
    | SweepEnd(job: nat)

  function Put(w: World, s: Site, f: KeyForm, b: Blob): Store { w.store[Render(s.p, f) := b] }

  function StartedAt(w: World, proc: Process): nat
    requires proc.Starting?
  {
    if proc.done == 0 then w.clock else proc.started
  }

  function HeadForm(w: World, id: BackupId, proc: Process): KeyForm
    requires proc.Starting? && proc.done < |Head(id, proc.mode, StartedAt(w, proc))|
  {
    Head(id, proc.mode, StartedAt(w, proc))[proc.done]
  }

  /** The run a backup performs once it has listed the pool. */
  function RunFor(s: Site, w: World, a: Action, mode: Mode): Run
    requires a.ListPool?
  {
    Run(s.p, a.id, mode, a.root, a.tag,
        if mode.Differential? then IndexOf(Items(w.store, a.order)) else IndexOf([]), a.md5Checks)
  }

  /** The items that run's index was built from. */
  function ItemsFor(w: World, a: Action, mode: Mode): seq<ManifestObject>
    requires a.ListPool?
  {
    if mode.Differential? then Items(w.store, a.order) else []
  }

  function PendingOf(run: Run, tables: seq<Table>): set<Upload> { set u | u in UploadsOf(run, tables) }

  function KeptOf(run: Run, tables: seq<Table>): set<string> {
    ManifestPaths(ManifestOf(run, tables)) - (set u | u in UploadsOf(run, tables) :: u.key)
  }

  ghost predicate Enabled(s: Site, w: World, a: Action) {
    match a
    case Tick(_) => true
    case Begin(id, _) => InSite(s, id) && id !in w.running && Render(s.p, Meta(id, "schema.cql")) !in w.store
    case WriteHead(id, size, _) =>
      && id in w.running && w.running[id].Starting?
      && w.running[id].done < |Head(id, w.running[id].mode, StartedAt(w, w.running[id]))|
      && (size > 0 || MayBeEmpty(HeadForm(w, id, w.running[id])))
    case ListPool(id, order, root, tag, tables, _) =>
      && id in w.running && w.running[id].Starting?
      && w.running[id].done == |Head(id, w.running[id].mode, w.running[id].started)|
      && Enumerates(order, ListBlobs(w.store, PoolPath(s.p, id.fqdn) + "/"))
      && |root| >= 1 && GoodTag(tag) && (forall t :: t in tables ==> GoodTableFiles(t))
    case Send(id, u) => id in w.running && w.running[id].Uploading? && u in w.running[id].pending
    case Publish(id, size) => id in w.running && w.running[id].Uploading? && w.running[id].pending == {} && size > 0
    case WriteTail(id, size, _) =>
      id in w.running && w.running[id].Finishing? && w.running[id].done < 4 && size > 0
    case Stop(id) => id in w.running
    case PurgeList(job, id) => job !in w.purges && InSite(s, id)
    case PurgeDelete(job, key) => job in w.purges && key in w.purges[job].todo
    case PurgeEntries(job) => job in w.purges && w.purges[job].Deleting? && w.purges[job].todo == {}
    case PurgeEnd(job) => job in w.purges
    case SweepList(job, h, order, _) =>
      job !in w.sweeps && h in s.hosts && Enumerates(order, ListObjects(w.store, IndexRoot(s.p)))
    case SweepDelete(job, key) => job in w.sweeps && key in w.sweeps[job].todo
    case SweepEnd(job) => job in w.sweeps
  }

  ghost predicate UnderPurge(purges: map<nat, PurgeJob>, id: BackupId) { exists j :: j in purges && purges[j].id == id }

  function Less(job: PurgeJob, key: string): PurgeJob {
    match job
    case Deleting(id, todo, quiet) => Deleting(id, todo - {key}, quiet)
    case Unlisting(id, todo, quiet) => Unlisting(id, todo - {key}, quiet)
  }

  function Alarm(job: PurgeJob, id: BackupId): PurgeJob {
    if job.id != id then job
    else
      match job
      case Deleting(_, todo, _) => Deleting(id, todo, false)
      case Unlisting(_, todo, _) => Unlisting(id, todo, false)
  }

  /** The purges of a backup that starts to run are no longer quiet. */
  function Alarmed(purges: map<nat, PurgeJob>, id: BackupId): map<nat, PurgeJob> {
    map j | j in purges :: Alarm(purges[j], id)
  }

  /** The names clean_backup_from_index deletes. */
  function EntryNames(st: Store, p: string, id: BackupId): set<string> {
    set k | k in ListObjects(st, IndexDir(p, id.name)) && Contains(k, "_" + id.fqdn)
  }

  /** A purge that has deleted all it listed while its backup was not running and nobody else purged it. */
  ghost predicate Undisturbed(w: World, job: nat)
    requires job in w.purges
  {
    w.purges[job].Unlisting? && w.purges[job].todo == {} && w.purges[job].quiet && !UnderPurge(w.purges - {job}, w.purges[job].id)
  }

  function CompleteFrom(proc: Process): Complete
    requires proc.Uploading?
  {
    Complete(proc.mode, proc.manifest, proc.started, proc.plan)
  }

  /** A disturbed name is good for a new backup once no purge of it is under way. */
  ghost function Renewed(w: World, id: BackupId): World {
    if id in w.disturbed && !UnderPurge(w.purges, id) then w.(disturbed := w.disturbed - {id}, stale := w.stale + {id}) else w
  }

  ghost function Apply(s: Site, w: World, a: Action): World
    requires Enabled(s, w, a)
  {
    match a
    case Tick(d) => w.(clock := w.clock + d)
    case Begin(id, mode) => w.(running := w.running[id := Starting(mode, 0, 0)], purges := Alarmed(w.purges, id))
    case WriteHead(id, size, data) =>
      var proc := w.running[id];
      var w1 := w.(store := Put(w, s, HeadForm(w, id, proc), Blob(size, w.clock, "", Raw(data))),
                   running := w.running[id := Starting(proc.mode, proc.done + 1, StartedAt(w, proc))]);
      if proc.done == 0 then Renewed(w1, id) else w1
    case ListPool(id, _, _, _, tables, _) =>
      var proc := w.running[id];
      var run := RunFor(s, w, a, proc.mode);
      w.(running := w.running[id := Uploading(proc.mode, proc.started, w.clock, KeptOf(run, tables),
                                              PendingOf(run, tables), ManifestOf(run, tables),
                                              Plan(run, ItemsFor(w, a, proc.mode), tables))])
    case Send(id, u) =>
      w.(store := w.store[u.key := BlobOf(u, w.clock)],
         running := w.running[id := w.running[id].(pending := w.running[id].pending - {u})])
    case Publish(id, size) =>
      var proc := w.running[id];
      w.(store := Put(w, s, Meta(id, "manifest.json"), Blob(size, w.clock, "", Doc(proc.manifest))),
         live := if id in w.disturbed then w.live else w.live[id := CompleteFrom(proc)],
         stale := w.stale - {id},
         running := w.running[id := Finishing(proc.mode, proc.manifest, 0, w.clock)])
    case WriteTail(id, size, data) =>
      var proc := w.running[id];
      w.(store := Put(w, s, Tail(id, proc.finished)[proc.done],
                      Blob(size, w.clock, "", if proc.done == 0 then Doc(proc.manifest) else Raw(data))),
         running := w.running[id := Finishing(proc.mode, proc.manifest, proc.done + 1, proc.finished)])
    case Stop(id) => w.(running := w.running - {id})
    case PurgeList(job, id) =>
      w.(purges := w.purges[job := Deleting(id, ListObjects(w.store, BackupPath(s.p, id)), id !in w.running)],
         live := w.live - {id}, disturbed := w.disturbed + {id}, stale := w.stale - {id})
    case PurgeDelete(job, key) =>
      w.(store := w.store - {key}, purges := w.purges[job := Less(w.purges[job], key)])
    case PurgeEntries(job) =>
      var id := w.purges[job].id;
      w.(purges := w.purges[job := Unlisting(id, EntryNames(w.store, s.p, id), w.purges[job].quiet)])
    case PurgeEnd(job) =>
      w.(purges := w.purges - {job}, disturbed := if Undisturbed(w, job) then w.disturbed - {w.purges[job].id} else w.disturbed)
    case SweepList(job, h, order, days) =>
      var cutoff := Cutoff(w.clock, days);
      var c := CleanupObsolete(w.store, s.p, order, h, cutoff);
      if c.Aborted? then w.(store := c.store)
      else w.(store := c.before, sweeps := w.sweeps[job := SweepJob(h, Doomed(c.before, s.p, h, c.marked, cutoff))])
    case SweepDelete(job, key) =>
      w.(store := w.store - {key}, sweeps := w.sweeps[job := SweepJob(w.sweeps[job].fqdn, w.sweeps[job].todo - {key})])
    case SweepEnd(job) => w.(sweeps := w.sweeps - {job})
  }

  ghost predicate Initial(w: World) {
    w.store == map[] && w.running == map[] && w.live == map[] && w.purges == map[] && w.sweeps == map[]
    && w.disturbed == {} && w.stale == {}
  }

  ghost predicate IsPending(pending: set<Upload>, path: string) { exists u :: u in pending && u.key == path }

  /** A differential upload on the host, of a backup no purge has disturbed. */
  ghost predicate UploadingOn(w: World, h: string, id: BackupId) {
    && id in w.running && id.fqdn == h && id !in w.disturbed
    && w.running[id].Uploading? && w.running[id].mode.Differential?
  }

  /**
   The condition on a sweep that begins while differential uploads are under way on its host: each began
   within the grace period, and each object it kept or is about to overwrite is marked or within grace itself.
   */
  ghost predicate Protected(s: Site, w: World, a: Action)
    requires a.SweepList? && Enabled(s, w, a)
  {
    var cutoff := Cutoff(w.clock, a.graceDays);
    var c := CleanupObsolete(w.store, s.p, a.order, a.fqdn, cutoff);
    c.Cleaned? ==>
      forall id :: UploadingOn(w, a.fqdn, id) ==>
        && cutoff < w.running[id].began
        && (forall path :: (path in w.running[id].kept || IsPending(w.running[id].pending, path)) && path in w.store ==>
              path in c.marked || w.store[path].mtime > cutoff)
  }

  /** The condition on a backup that lists the pool during a sweep: it relies on nothing that is about to be deleted. */
  ghost predicate OutOfTheWay(s: Site, w: World, a: Action)
    requires a.ListPool? && Enabled(s, w, a)
  {
    var mode := w.running[a.id].mode;
    mode.Differential? && a.id !in w.disturbed ==>
      forall j :: j in w.sweeps && w.sweeps[j].fqdn == a.id.fqdn ==>
        w.sweeps[j].todo !! ManifestPaths(ManifestOf(RunFor(s, w, a, mode), a.tables))
  }

  /** A sweep and a differential upload never meet on one host. */
  ghost predicate NotOverlapping(w: World, a: Action) {
    && (a.SweepList? ==> forall id :: !UploadingOn(w, a.fqdn, id))
    && (a.ListPool? && a.id in w.running && w.running[a.id].mode.Differential? ==>
          forall j :: j in w.sweeps ==> w.sweeps[j].fqdn != a.id.fqdn)
  }

  ghost predicate Allowed(s: Site, w: World, a: Action) {
    Enabled(s, w, a) && (a.SweepList? ==> Protected(s, w, a)) && (a.ListPool? ==> OutOfTheWay(s, w, a))
  }

  /** A run of the protocol: every action is enabled where it happens, and sweeps and uploads respect each other. */
  ghost predicate ValidRun(s: Site, w: World, actions: seq<Action>)
    decreases |actions|
  {
    actions == [] || (Allowed(s, w, actions[0]) && ValidRun(s, Apply(s, w, actions[0]), actions[1..]))
  }

  ghost function After(s: Site, w: World, actions: seq<Action>): World
    requires ValidRun(s, w, actions)
    decreases |actions|
  {
    if actions == [] then w else After(s, Apply(s, w, actions[0]), actions[1..])
  }

  /** A run in which no sweep overlaps a differential upload on its host. */
  ghost predicate SequentialRun(s: Site, w: World, actions: seq<Action>)
    decreases |actions|
  {
    actions == [] || (Enabled(s, w, actions[0]) && NotOverlapping(w, actions[0])
                      && SequentialRun(s, Apply(s, w, actions[0]), actions[1..]))
  }

  /** A run that respects nothing but what the source itself checks. */
  ghost predicate PossibleRun(s: Site, w: World, actions: seq<Action>)
    decreases |actions|
  {
    actions == [] || (Enabled(s, w, actions[0]) && PossibleRun(s, Apply(s, w, actions[0]), actions[1..]))
  }

  ghost function Reached(s: Site, w: World, actions: seq<Action>): World
    requires PossibleRun(s, w, actions)
    decreases |actions|
  {
    if actions == [] then w else Reached(s, Apply(s, w, actions[0]), actions[1..])
  }
}
