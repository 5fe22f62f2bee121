# Medusa: a verified model of its backup store

Medusa backs up Apache Cassandra nodes into one shared object store. A differential backup lists the
node's pool `<fqdn>/data/`, keeps what is already there, uploads the rest and then writes a manifest. A
purge deletes backups and afterwards sweeps every pool object that no remaining manifest names. Nothing
but names and write order holds this together: listings are by string prefix, the index is a set of blob
names, and a backup is complete when its manifest is there.

The project models that store, the operations on it and the protocols around it, and proves what they are
for.

| files | what they model |
|---|---|
| `Text`, `ObjectStorage`, `Ordering` | strings as Python handles them; the store with prefix listings and driver order; stable sorting |
| `Layout`, `IndexNames`, `TableKeys` | where everything is stored; index blob names and their regular expressions; local and stored table paths |
| `NodeListing`, `PoolIndex` | listing backups from the index; the nested `groupby` index of the pool |
| `Snapshots`, `PoolCheck`, `Manifests`, `Backup`, `BackupEffects`, `Verify`, `Download` | taking a backup, which files it uploads, what its manifest says, all it does to the store; verifying it, downloading it |
| `Purge`, `PurgeIsolation`, `PurgeEffects` | purging, marking and sweeping, exactly which objects they reach, and what a whole call does to the pools |
| `Protocol`, `Invariant`, `ProtocolSafety` | backups, purges, sweeps, crashes and the clock as one state machine, write by write and deletion by deletion, and its safety |
| `BackupCalls`, `PurgeCalls`, `Witness`, `Content`, `Recovery` | whole backup and purge calls as runs of it; a run that loses an object; what the stored objects contain; what can be downloaded after any run |
| `AnyRun`, `Unpurged` | what holds in every run the source allows, sweeps that meet uploads included, and what then stays while nothing is purged |
| `Stagger`, `StaggerRuns` | nodes waiting for their predecessor in token order, as the index shows it |
| `RestoreMapping` | which backup hosts each target host restores from |
| `Registry`, `Multipart` | the registry of running backups; the digest of files uploaded in parts |

The main results are

- `ProtocolSafety.SafetyWithGrace` and `ProtocolSafety.PoolSafety`: over every run of the interleaved
  system, in which any backup, purge or sweep may stop anywhere and running backups may be purged, no
  backup that completed and whose purge has not begun loses an object, and manifests are written last; by
  `ProtocolSafety.ReusedNameSurvives` this includes backups under names that an earlier purge was cut short on;
- `Content.SurvivorsGiveBack`: after any such run every surviving backup can be downloaded and gives back
  exactly its own snapshot, kept files included;
- `Witness.KeptObjectLost`: the condition on overlapping sweeps cannot be dropped, since the grace period
  alone loses objects of published backups;
- `Manifests.DifferentialEqualsFull`, `Backup.DoBackupVerifies`, `Backup.DoBackupDownloads` and
  `Recovery.SurvivorsDownload`: what a manifest says is what was in the snapshot, and comes back;
- `PoolCheck.CheckExact`, `BackupEffects.DoBackupWrites`, `BackupEffects.DoBackupFinishes` and
  `BackupCalls.DoBackupRun`: a backup uploads exactly the files the pool lacks or has differently, writes what
  it should and nothing else, is listed as finished afterwards, and is itself a run of the protocol;
- `PurgeIsolation.PurgeExact`, `PurgeIsolation.CleanupMarks` and `PurgeEffects.PurgeCallExact`: purge and sweep
  remove exactly what they should, on sites whose names are prefix-free;
- `NodeListing.ListingRoundTrip`, `PurgeIsolation.ListingDropsExactly` and `PoolIndex.FindExact`: the index
  and the pool index read back what was written, whatever half-purged backups have left behind, with the
  exact condition for the latter;
- `StaggerRuns.EverFinishedIsPrefix`, `StaggerRuns.OneFirstUpload` and `StaggerRuns.WithoutPurges`: first
  backups go in token order, one host at a time, whatever sweeps do meanwhile;
- `RestoreMapping.DecideExact`, `RestoreMapping.MatchingIsBijection`, `RestoreMapping.FallbackPartitions`,
  `RestoreMapping.TokensPreserved`, `Registry.NoLostFuture`, `Registry.QueryAnswers` and
  `Multipart.MultipartArithmetic`.

Methods mirror the loops of the source and are proved equal to functions on stores; the theorems are about
those functions. Functions that may fail return an `Option` or a result with a failing case, standing for
the exception. Every choice the environment makes is an argument: the order a driver lists blobs in, the
order of a Python set, the clock, the content of snapshots, the size of a text in bytes, the MD5 function.

## Where the code does not do what one would expect

Each of these is kept in the model as the code has it; the members named show the case, or state exactly
when the expected property holds.

- A backup name that is a prefix of another one is purged with it (`PurgeIsolation.PurgeReachesByPrefix`),
  and a name that begins with `data` is swept as if it were the pool (`PurgeIsolation.SweepReachesDataNames`,
  `PurgeIsolation.DataNameLosesManifest`).
- Cleaning the index for `node1` also removes the entries of `node10`; the sweep then no longer knows that
  host's manifest (`PurgeIsolation.HostPrefixMentions`, `PurgeIsolation.HostPrefixUnmarks`,
  `PurgeIsolation.PlainNamesExact`).
- An old object that a running backup decided to keep is protected only while it is marked or young
  (`ProtocolSafety.SweepSelectsExactly`). A backup that keeps an object, the purge of the last other backup
  that names it and a sweep past its grace period lose it (`Witness.KeptObjectLost`).
- A purge that is cut short leaves a finish entry without a manifest (`ProtocolSafety.HalfPurged`): listings
  go on showing the backup as finished, and verifying it reports no error (`Recovery.HalfPurgedVerifies`). The
  write order is therefore promised only for backups that no unfinished purge has touched, and for a name that
  is used again after one only once the new backup has published; the objects of all other backups are safe
  nevertheless.
- The pool index forgets objects when the listing visits a key in two separate runs
  (`PoolIndex.FindExact`, `PoolIndex.InterruptedRunForgets`).
- A one-character prefix is dropped in some paths and kept in others (`Layout.PrefixPathsAgree`), and a
  prefix equal to the host name breaks manifest paths (`TableKeys.UrlToPathIdentity`, `Manifests.RecordedName`).
- Verification reports empty files as missing, since listings leave them out (`Verify.FreshBackupVerifies`),
  and reports nothing at all for a manifest that is missing or not JSON. `Verify.ValidateExact` says what it
  reports for every manifest it can read, `Verify.ValidateClean` when it reports nothing.
- The rack-aware restore pairs hosts in dictionary order and may swap tokens between hosts of one rack
  (`RestoreMapping.RackMappingSwapsTokens`, `RestoreMapping.RackTokensPreserved`).
- `BackupStatus` reads a future and looks at it in two steps. A backup of the same name registered in
  between, or a removal, requests the cancel of that future (`Registry.QueryRace`). If its thread has not come
  to an end by then, and only in this case, the cancellation escapes from the handler
  (`Registry.CancellationEscapes`, `Registry.QueryMeetsCancelled`).
- A multipart digest counts one empty part too many when the number of blocks is a multiple of 128
  (`Multipart.PartsExact`).

`Registry.NoLostFuture` supposes that two `AsyncBackup` calls do not overlap. The server meets this:
`AsyncBackup` is a coroutine without a waiting point on the one event loop, so each call runs through
before the next begins. `Registry.OverlapLosesFuture` shows what the supposition is needed for.

## Conditions

`Layout.GoodSite` collects what isolation needs of names: they read back from the index, backup names
together with `data` are prefix-free, and `_<host>` does not occur in another host's index entries.
`PurgeIsolation.DefaultSiteIsGood` shows that default twelve-digit backup names and prefix-free host names
without underscores meet it.

`Protocol.Protected` and `Protocol.OutOfTheWay` are what safety needs of sweeps that overlap differential
uploads on their host: when a sweep selects, every upload under way began within the grace period and what
it keeps or is about to overwrite is marked or young; and an upload that begins later relies on nothing
already selected. Runs in which the two never meet satisfy both. The results on staggered backups need
neither: there a step only has to be one the source allows (`Protocol.Enabled`).

`Content.Immutable` is what content needs of snapshots: those of one host agree on the file at each place
below its data folders, as SSTables are never rewritten under one name. Agreement of files of equal size
and digest alone would not do, since a file that differs is uploaded over the old one
(`Content.DifferingFileOverwrites`).

## Model

| member | source | states |
|---|---|---|
| `ProtocolSafety.PoolSafety` | medusa/purge.py:85-212 | from an empty store, for every run of full and differential backups, crashes, purges, sweeps and ticks, interleaved write by write and deletion by deletion, in which no sweep meets a differential upload on its host, every complete backup whose purge has not begun still has its manifest and all objects it names |
| `ProtocolSafety.SafetyWithGrace` | medusa/purge.py:145-191 | the same when sweeps and uploads do meet, provided each upload found by a sweep is younger than the grace period with all it keeps or overwrites marked or young, and no upload begins to rely on an object already selected |
| `ProtocolSafety.InvOverRuns` | medusa/backup_node.py:155-255 | the invariant behind both, kept by every action of every run |
| `ProtocolSafety.InvIsSafe` | medusa/backup_node.py:235-254 | crash ordering: unless an unfinished purge has touched the backup, or its name is in use again after one and the new backup has not published, a manifest in meta implies schema, tokenmap, server version, differential marker, start entries and all listed objects, and a finish entry implies the manifest |
| `ProtocolSafety.SweepMarksLive` | medusa/purge.py:194-212 | in every reachable state, leftovers of half-purged backups included, a sweep does not abort and marks every path of every live differential backup of its host, and only paths that stored manifests name |
| `ProtocolSafety.SweepSelectsExactly` | medusa/purge.py:154-158 | an object an upload under way relies on is selected for deletion if and only if it is unmarked, past the grace period and not empty |
| `ProtocolSafety.ReusedNameSurvives` | medusa/backup_node.py:155-255 | whatever earlier purges of a name have left behind, once none is under way a backup that starts under the name and publishes is among the survivors until it is purged itself |
| `ProtocolSafety.HalfPurged` | medusa/purge.py:132-140 | a purge cut short after the manifest leaves the finish entry without it |
| `Recovery.HalfPurgedVerifies` | medusa/verify.py:67-71 | such a backup is shown as finished by every listing, for every driver order, and verifying it reports no error |
| `Witness.KeptObjectLost` | medusa/backup_node.py:402-403 | on every good site, a possible run in which all uploads are within the grace period and a published backup loses an object it kept |
| `Content.SurvivorsGiveBack` | medusa/download.py:27-70 | after any run in which snapshots of a host agree on the files they share, every surviving backup downloads to exactly the wanted files of its own snapshot, each with its content, and the metadata |
| `Content.DifferingFileOverwrites` | medusa/backup_node.py:397-401 | a file whose size differs from the pool's object of its place is uploaded over that object: why snapshots must agree by place |
| `Content.SurvivorContent` | medusa/backup_node.py:331-356 | each file of a surviving backup is in the store with the content it had in the snapshot |
| `PurgeCalls.PurgeCallSafe` | medusa/purge.py:85-113 | a whole purge call with any choice of backups, running ones included, is a run of the protocol whenever no backup it leaves alone is uploading to a pool it sweeps; it never aborts and all other backups stay intact |
| `PurgeCalls.PurgeOneRun` | medusa/purge.py:127-142 | deleting what a purge lists, name by name, gives the store of purge_backup |
| `PurgeCalls.SweepOneRun` | medusa/purge.py:145-165 | deleting what a sweep selects, name by name, gives the store of cleanup_obsolete_files |
| `PurgeEffects.PurgeCallExact` | medusa/purge.py:85-191 | on a good site, when a call of purge_backups ends well, an object of a swept host that is not empty, was modified 86400 seconds per grace day ago or earlier, and is named by no complete differential backup outside the purged ones is gone; an object stays unchanged if its host is not swept, if it is younger or empty, or if such a backup that exists names it |
| `Purge.SparedExact` | medusa/purge.py:155-169 | the number reported as within grace counts the unreferenced, non-empty pool objects younger than the cutoff |
| `Purge.PurgeBackups` | medusa/purge.py:85-124 | the new store; that exactly the hosts of the purged backups were swept, or the local one if there were none; and that objects and bytes reported equal the drop in count and size outside the index, and within-grace the unreferenced objects left |
| `Purge.PurgeBackup` | medusa/purge.py:127-142 | the new store, and the counts as the drop outside the index |
| `Purge.CleanupObsoleteFiles` | medusa/purge.py:145-169 | the new store for the listing order met, whether the sweep aborted, counts as the drop, within-grace as unreferenced minus selected |
| `Purge.SelectDoomed` | medusa/purge.py:182-191 | each unreferenced pool object once, and of these each one modified at or before the cutoff once |
| `Purge.CollectMarked` | medusa/purge.py:194-216 | the paths of the manifests of complete differential backups, or the failure on one that is not JSON |
| `Purge.SweepHosts` | medusa/purge.py:106-113 | the store after sweeping every host in some order, and the accumulated statistics |
| `PurgeIsolation.PurgeExact` | medusa/purge.py:127-142 | purging one backup removes exactly its own non-empty objects and index entries and changes nothing else |
| `PurgeIsolation.SweepExact` | medusa/purge.py:172-191 | a sweep removes exactly the host's own unmarked non-empty pool objects past the cutoff |
| `PurgeIsolation.CleanupMarks` | medusa/purge.py:150-151 | for every driver order the sweep runs to its end when all manifests are JSON; whenever it does, it has dropped nothing but index entries before deleting, and marked only paths that complete differential backups of its listing name, among them all paths of those that exist; exactly these when every indexed backup exists |
| `PurgeIsolation.ListingDropsExactly` | medusa/storage/__init__.py:246-271 | the backups listed are those from the first existing one on, and the index entries dropped are exactly the non-empty ones of the backups before it |
| `PurgeIsolation.SelectsExactly` | medusa/storage/__init__.py:180-181 | the host filter selects exactly the host's own backups |
| `PurgeIsolation.PurgeReachesByPrefix` | medusa/purge.py:132 | a purge reaches another backup's objects if and only if its name is a prefix of the other's |
| `PurgeIsolation.SweepReachesDataNames` | medusa/purge.py:173 | the sweep lists a backup's own objects if and only if its name starts with `data` |
| `PurgeIsolation.DataNameLosesManifest` | medusa/purge.py:172-179 | such a backup loses its manifest to the first sweep after the grace period |
| `PurgeIsolation.HostPrefixMentions` | medusa/index.py:131-134 | cleaning for one host removes the entries of a host whose name starts with the first |
| `PurgeIsolation.HostPrefixUnmarks` | medusa/index.py:128-134 | after which that backup counts as neither indexed nor complete, and the sweep marks only paths that other backups name |
| `PurgeIsolation.PlainNamesExact` | medusa/index.py:131-134 | two plain hosts keep each other's entries if and only if neither name starts the other |
| `PurgeIsolation.NotATimestamp` | medusa/index.py:101-103 | names starting with a letter, and IP addresses, are never taken for the timestamp of an entry |
| `PurgeIsolation.DefaultSiteIsGood` | medusa/backup_node.py:81 | default names and plain prefix-free hosts meet all naming conditions |
| `Layout.EqualLengthApart` | medusa/backup_node.py:81 | distinct names of equal length are never prefixes of each other |
| `Layout.PrefixPathsAgree` | medusa/storage/node_backup.py:44-47 | the two ways of forming a node's root agree if and only if the prefix is not a single character |
| `Layout.BackupPathReaches` | medusa/purge.py:132 | listing a backup path reaches a key if and only if it is one of that backup's own objects |
| `Layout.PoolPathReaches` | medusa/purge.py:172-179 | listing `<fqdn>/data` reaches a key if and only if it is in that host's pool |
| `Layout.IndexDirReaches` | medusa/index.py:129-130 | listing an index directory reaches exactly the entries of that backup name |
| `Layout.IndexRootReaches` | medusa/storage/__init__.py:273-275 | listing the index root reaches exactly the index entries |
| `ObjectStorage.ObjectStore.List` | medusa/storage/abstract_storage.py:69-77 | every non-empty blob under the prefix once, in an order of the driver's choice |
| `IndexNames.FqdnRoundTrip` | medusa/storage/__init__.py:320-344 | every index blob name, alone or with its directory, reads back to the host it was written for |
| `IndexNames.TimestampRoundTrip` | medusa/storage/__init__.py:346-350 | the timestamp of a started or finished entry reads back |
| `IndexNames.KeyWords` | medusa/storage/__init__.py:352-360 | a kind word occurs in an index key if and only if the key is of that kind |
| `NodeListing.GroupsUnderOwner` | medusa/storage/__init__.py:280-318 | grouping puts an entry under its own backup and host and under no other |
| `NodeListing.ReadEntryBack` | medusa/storage/__init__.py:199-237 | a tokenmap entry reads back to its backup with start, finish and differential entries: each time is that of its stamped entry, or else the modification time of the schema or manifest in the index, or else of that in meta, and is unknown if there is none |
| `NodeListing.ListingRoundTrip` | medusa/storage/__init__.py:162-271 | for every driver order, and whatever has become of indexed backups, listing gives every indexed backup that exists, each with what was written for it, nothing that is not indexed, and begins with one that exists; it takes only index entries, and none when all indexed backups exist |
| `NodeListing.ListingOldestFirst` | medusa/storage/__init__.py:239-244 | for every store and driver order a listing that succeeds is sorted by start time |
| `NodeListing.ListingOnce` | medusa/storage/__init__.py:199-237 | no backup is listed twice |
| `NodeListing.OwnSelected` | medusa/storage/__init__.py:180-181 | the host filter never misses a host's own entries |
| `NodeListing.ListBackups` | medusa/storage/__init__.py:162-271 | the loops compute the listing for the order met and drop the entries of backups that no longer exist |
| `NodeListing.KeepExisting` | medusa/storage/__init__.py:246-271 | once one backup exists later ones are not checked; those before it leave the index |
| `NodeListing.CleanBackupFromIndex` | medusa/index.py:128-134 | removes exactly the listed entries that mention `_<fqdn>` |
| `TableKeys.LocalAndStoredKeysAgree` | medusa/storage/__init__.py:453-484 | a snapshot file's local path and the path it is uploaded to give the same keyspace and table key |
| `TableKeys.UploadKeyShape` | medusa/storage/abstract_storage.py:247-266 | uploading keeps a file's place below the table folder, hidden folder included |
| `TableKeys.UploadInjective` | medusa/storage/abstract_storage.py:247-266 | different files of a snapshot have different keys |
| `TableKeys.TableKeyInjective` | medusa/storage/__init__.py:453-484 | table keys tell a table from its secondary indexes and from other tables |
| `TableKeys.UrlToPathIdentity` | medusa/backup_node.py:420-426 | the manifest path of a stored object is its name if and only if the prefix is not the host |
| `PoolIndex.ListFilesPerTable` | medusa/storage/__init__.py:501-513 | the nested loops over keyspaces, tables and objects compute the index of the listing |
| `PoolIndex.FindExact` | medusa/storage/__init__.py:501-513 | a lookup finds an object if and only if it is the last match and no later run of its keys discards it |
| `PoolIndex.IndexSound` | medusa/storage/__init__.py:501-513 | the index never holds an object absent from the listing or under a foreign key |
| `PoolIndex.IndexComplete` | medusa/storage/__init__.py:501-513 | on contiguous listings a lookup succeeds if and only if the file is listed |
| `PoolIndex.InterruptedRunForgets` | medusa/storage/__init__.py:501-513 | two runs of one keyspace lose the files of the first |
| `PoolCheck.CheckExact` | medusa/backup_node.py:379-405 | for every listing, the first list has in order the eligible files for whose key the pool's index holds no object, the second those whose object has another size or, with digest checks, another digest, the third the objects of all others; in full mode all are in the first |
| `PoolCheck.CheckContiguous` | medusa/backup_node.py:389-403 | on contiguous listings a file is in the first list if and only if no listed object has its key, in the second if and only if the last that has it differs, and otherwise that object is kept |
| `PoolCheck.CountersExact` | medusa/backup_node.py:325-327 | num_files counts new and changed files, replaced the changed ones, kept the others |
| `BackupEffects.DoBackupCounts` | medusa/backup_node.py:221-255 | the three counters told from the store before the backup: files missing from it, differing in it, the same in it |
| `BackupEffects.DoBackupWrites` | medusa/backup_node.py:221-255 | on a good site every new or changed file, the manifest, its index entry, the finish entry and the two markers of the latest backup are stored with their contents, and every other key is as before |
| `BackupEffects.DoBackupFinishes` | medusa/index.py:111-125 | if the start entries were in the index, every listing after do_backup shows the backup as finished at its time, for every driver order |
| `BackupCalls.DoBackupRun` | medusa/backup_node.py:221-255 | with start_backup through and no sweep of its host under way, do_backup is a run of the protocol that ends in the store of the method, and the backup is then among the survivors |
| `Snapshots.CheckAlreadyUploaded` | medusa/backup_node.py:365-405 | the three lists are the files judged missing, changed and present |
| `Snapshots.BackupSnapshots` | medusa/backup_node.py:301-358 | the store after all uploads, the manifest and the three counters |
| `Snapshots.UploadBlobs` | medusa/storage/abstract_storage.py:165-182 | every file stored at its key, and its manifest object, in order |
| `Manifests.SectionDescribes` | medusa/backup_node.py:331-356 | a section lists every eligible file of its table exactly once, at its key with its size |
| `Manifests.DifferentialEqualsFull` | medusa/backup_node.py:301-405 | for every snapshot, pool and listing order the differential manifest describes the same files as the full one |
| `Manifests.CountsAddUp` | medusa/backup_node.py:327-329 | files uploaded plus files kept is the number of objects in the manifest |
| `Manifests.ManifestAccounted` | medusa/backup_node.py:337-356 | every manifest path is uploaded by the run or was listed in the pool |
| `Manifests.FoundIsOwn` | medusa/backup_node.py:391-403 | an object found for a file is the one this file would be uploaded to |
| `Manifests.RecordedName` | medusa/backup_node.py:408-426 | a manifest records an object of the host with its size and digest, under its store name unless the prefix is the host, in which case the prefix is put before it once more |
| `Manifests.KeyForShape` | medusa/storage/node_backup.py:255-257 | where a file goes in full and in differential mode |
| `Verify.ValidateExact` | medusa/verify.py:60-120 | for a readable manifest, a path is reported as missing if and only if a checked object has it and it is not listed, as different if and only if one that is no Summary file is listed with another size or, with digest checks, another digest, and as extra if and only if, in full mode, it is listed and no checked object has it |
| `Verify.ValidateClean` | medusa/verify.py:60-120 | for every store, verifying reports no error if and only if the manifest is missing or not JSON, or each checked object is listed and matches its manifest entry (Summary files need not match) and in full mode every listed checked object is in the manifest |
| `Verify.FreshBackupVerifies` | medusa/verify.py:60-120 | on the store do_backup leaves, verifying reports exactly the empty files, as missing, in both modes |
| `Backup.DoBackup` | medusa/backup_node.py:221-255 | the store after listing, uploads, manifest, finish entries and latest marker, and the three counters |
| `Backup.DoBackupIsFresh` | medusa/backup_node.py:221-255 | on a good site the store it leaves is the one verifying and downloading start from |
| `Backup.DoBackupVerifies` | medusa/verify.py:60-120 | verifying right after do_backup reports exactly the empty files, as missing |
| `Backup.DoBackupDownloads` | medusa/download.py:35-56 | downloading right after do_backup gives exactly the wanted files, each uploaded one with its content and each kept one with that of the pool object found for it |
| `Verify.FreshBackupClean` | medusa/verify.py:60-120 | no error if and only if no checked file is empty |
| `Verify.ManifestRecords` | medusa/verify.py:81-86 | the checked objects of the manifest are exactly the records of the eligible, checked files |
| `Verify.FileStored` | medusa/backup_node.py:331-354 | after the uploads every file is at its key with its size, with its content if uploaded and as it was before if not |
| `Download.DownloadData` | medusa/download.py:27-70 | the files, table folders and hidden folders created, metadata included, or the failure |
| `Download.SubFoldersExact` | medusa/download.py:47-54 | the hidden folders made for a table are exactly those its eligible files are in |
| `Download.DownloadedExactly` | medusa/download.py:63-70 | the folders of exactly the sections asked for and the hidden folders their objects lie in are made, and beside the tables exactly the three metadata files with their stored contents |
| `Download.TargetIsPlace` | medusa/storage/abstract_storage.py:247-266 | a stored file is downloaded to destination/keyspace/table/[subfolder/]name |
| `Download.DownloadRestores` | medusa/download.py:35-56 | every wanted eligible file is recreated in its place with the stored content, and nothing else |
| `Download.BackupThenDownload` | medusa/download.py:35-56 | backing up and downloading gives back exactly the wanted files, with the snapshot's content for each one uploaded, which is all of them in full mode, and for each one kept the content of the pool object that had its key, its size and, where digests are checked, its digest |
| `Recovery.DownloadSucceedsExactly` | medusa/download.py:27-70 | a download succeeds if and only if every object asked for and the metadata are stored and no two folders coincide |
| `Recovery.SurvivorsDownload` | medusa/download.py:27-70 | after any run of the protocol every complete backup whose purge has not begun can be downloaded, whatever its snapshot |
| `Stagger.PassesMeaning` | medusa/backup_node.py:47-72 | a node may go ahead if and only if it has a finished backup, nobody precedes it, or its predecessor in token order has one |
| `Stagger.OneOrder` | medusa/backup_node.py:61 | all nodes compute the same order, whatever the order of their dictionaries |
| `StaggerRuns.StaggerHost` | medusa/backup_node.py:47-72 | the decision from the two listings, and the store they leave |
| `StaggerRuns.CheckIsPasses` | medusa/backup_node.py:56-72 | it is the decision above for the hosts the listings show as finished |
| `Unpurged.LastingStep` | medusa/purge.py:145-191 | without purges no step, sweeps that meet uploads included, takes away what a backup wrote first or a published manifest |
| `StaggerRuns.SeenExactly` | medusa/backup_node.py:56-58 | while live backups have what they wrote first and their manifests, as they do without purges, a listing shows a host as finished if and only if it has completed a backup |
| `StaggerRuns.EverFinishedIsPrefix` | medusa/backup_node.py:169-178 | after every run of staggered backups, crashes, purges and sweeps, sweeps that meet uploads included, the hosts that have ever completed a backup are a prefix of the order |
| `StaggerRuns.OneFirstUpload` | medusa/backup_node.py:169-178 | after every such run at most one host is uploading without having completed a backup |
| `Stagger.FirstUnfinishedPasses` | medusa/backup_node.py:56-72 | the first host without a finished backup may always go ahead, the one after it not yet |
| `StaggerRuns.WithoutPurges` | medusa/backup_node.py:56-72 | after every run without purges, with n hosts finished, the test read from the index succeeds for exactly the first n + 1 hosts |
| `Ordering.SortSorts` | medusa/restore_cluster.py:299-303 | sorted() gives the same elements in ascending order |
| `RestoreMapping.DecideExact` | medusa/restore_cluster.py:157-283 | for all rings: a target that is down fails; otherwise the hosts are dealt out if and only if the sizes differ, racks count and their sizes differ, the first hosts have different numbers of tokens, or one each and some token list occurs in one ring only; otherwise they are paired by token when racks are ignored and rack by rack when not; and when it raises |
| `RestoreMapping.SmallDecision` | medusa/restore_cluster.py:280-283 | two rings for which both pairings are reached |
| `RestoreMapping.SortedByFirstToken` | medusa/restore_cluster.py:299-303 | without racks hosts are in ascending order of first tokens, whatever their token counts |
| `RestoreMapping.RestoreJob.PopulateRingmap` | medusa/restore_cluster.py:251-283 | which mapping is chosen, the host map it makes, in-place and fallback flags, and when it raises |
| `RestoreMapping.RestoreJob.ValidateRingmap` | medusa/restore_cluster.py:157-178 | all targets up, sizes equal, rack sizes equal unless racks are ignored |
| `RestoreMapping.RestoreJob.MapWithRacks` | medusa/restore_cluster.py:216-226 | pairs hosts rack by rack, every index in bounds |
| `RestoreMapping.RestoreJob.MapIgnoredRacks` | medusa/restore_cluster.py:208-214 | pairs hosts in the order of their first tokens |
| `RestoreMapping.RestoreJob.MapDifferentTopologies` | medusa/restore_cluster.py:228-235 | deals the backups out to the targets and sets the fallback flag; fails without targets |
| `RestoreMapping.Chunk` | medusa/restore_cluster.py:239-245 | the groups of a round-robin deal, or a division by zero |
| `RestoreMapping.DealtElement` | medusa/restore_cluster.py:239-245 | the k-th host of group g is the one at position g + k * nb |
| `RestoreMapping.MatchingIsBijection` | medusa/restore_cluster.py:208-226 | when the clusters match, with or without racks, targets and backup hosts are paired one to one |
| `RestoreMapping.FallbackPartitions` | medusa/restore_cluster.py:228-249 | otherwise each backup host is restored by exactly one target, no group is empty, sizes differ by at most one, and as many targets as possible take part |
| `RestoreMapping.RacksExact` | medusa/restore_cluster.py:305-312 | racks in alphabetical order, each once, each with exactly its own hosts |
| `RestoreMapping.RackToRack` | medusa/restore_cluster.py:216-226 | the j-th host of the i-th backup rack goes to the j-th host of the i-th target rack |
| `RestoreMapping.TokensPreserved` | medusa/restore_cluster.py:266-303 | with one token per host, distinct tokens and racks ignored, without fallback each target gets the data of the host that owned its tokens |
| `RestoreMapping.RackTokensPreserved` | medusa/restore_cluster.py:216-226 | with racks, tokens are preserved if and only if both tokenmaps list them alike, rack by rack |
| `RestoreMapping.RackMappingSwapsTokens` | medusa/restore_cluster.py:216-226 | two matching rings for which they are swapped |
| `RestoreMapping.TokensKeyInjective` | medusa/restore_cluster.py:195-197 | the text of a token list determines the list |
| `Registry.BackupMan.RegisterBackup` | medusa/backup_manager.py:101-118 | the new registry, cancelling what it replaces; fails on an empty name |
| `Registry.BackupMan.SetBackupFuture` | medusa/backup_manager.py:82-98 | the new registry; fails without name or future |
| `Registry.BackupMan.GetBackupFuture` | medusa/backup_manager.py:123-135 | the registered future, or a failure |
| `Registry.BackupMan.UpdateBackupStatus` | medusa/backup_manager.py:170-191 | only the status changes; fails when not registered |
| `Registry.BackupMan.RemoveBackup` | medusa/backup_manager.py:137-144 | cancels and forgets the backup |
| `Registry.BackupMan.RemoveAllBackups` | medusa/backup_manager.py:146-166 | cancel is requested for every registered future and the registry is gone |
| `Registry.NoLostFuture` | medusa/backup_manager.py:82-206 | after any run of registry calls with AsyncBackup calls not overlapping, every issued future is registered, or its cancel was requested, or it is about to be stored, and never two of these |
| `Registry.QueryKeeps` | medusa/service/grpc/server.py:233-235 | BackupStatus cancels and replaces no future and leaves known records as they are |
| `Registry.QueryRace` | medusa/service/grpc/server.py:233-237 | no cancel of the future a status query reads has been requested then; when the query looks at it, its cancel has been requested if and only if a step in between registered the name anew, removed it or removed everything |
| `Registry.CancellationEscapes` | medusa/service/grpc/server.py:219-231 | a cancellation escapes from the query if and only if such a step came before the backup's thread had ended |
| `Registry.QueryMeetsCancelled` | medusa/service/grpc/server.py:134-154 | an AsyncBackup call for the queried name brings this about while the backup runs |
| `Registry.QueryAnswers` | medusa/service/grpc/server.py:219-231 | for every run, a query answers in progress if and only if the thread has not ended and no step since reading the future cancelled it, success if and only if the thread returned and the backup is finished, failed if and only if it raised or returned without a finished backup; without a future the finish alone decides |
| `Registry.StatusExactly` | medusa/backup_manager.py:82-191 | over every run the status recorded for a name is the last one reported since it was last registered or given a future, and unknown if there was none |
| `Registry.OverlapLosesFuture` | medusa/backup_manager.py:90-118 | if two callers registered a name before either stored its future, one future would be lost: why NoLostFuture excludes it |
| `Multipart.Md5Multipart` | medusa/storage/abstract_storage.py:345-356 | the loop ends; the text is the digest of the part digests and their number |
| `Multipart.Md5Part` | medusa/storage/abstract_storage.py:358-368 | hashes the next 128 blocks or what is left, and notices the end exactly when fewer are left |
| `Multipart.GenerateMd5` | medusa/storage/abstract_storage.py:326-343 | the digest of the whole file |
| `Multipart.PartsExact` | medusa/storage/abstract_storage.py:345-368 | the parts are the plain division into 8 MiB, and one empty part more if and only if the number of blocks is a multiple of 128 |
| `Multipart.MultipartArithmetic` | medusa/storage/abstract_storage.py:31-34 | the parts concatenate to the file; their number; when it differs from ceil(n / 8 MiB) |

## Left out

- Cloud drivers, retries, event loops, encryption and credentials: the store is put, get, list and delete.
- Listing, marking and selecting of one sweep are one step, and so is a listing of the index with the entries it drops; writes and deletions are single steps. The two listings of one stagger test are one step as well.
- A name whose purge is still under way when the first object of a new backup is written counts as disturbed until a later backup under it starts afresh: nothing is promised about that one backup.
- The clock is read once per sweep; the source reads it for every object.
- The clock is read once per do_backup; start_backup has no method of its own, its writes are actions of the protocol.
- A second backup under the name of an existing one (`use_existing_snapshot` in medusa/backup_node.py:78-111): Begin supposes that the name does not exist.
- Rebuilding the index (medusa/index.py:36-91): it loses the differential marker, so it is not one of the safe steps.
- Writing one backup per host at a time is not assumed: the marker file of medusa/backup_node.py:86-93 is not modelled, any number of backups may run.
- The second snapshot of DSE nodes, and folders ending in `nodes`; table folders and snapshot tags are assumed not to end that way.
- Choosing backups to purge by age or count: the purge results hold for any choice, running backups included.
- Newline characters in blob names, which the dot of the index patterns would not match.
- Grouping of the backup index is a filter per backup and host: the source sorts by the same key before it groups.
- Digests in manifests are compared as they are; the encodings of different providers and the multipart threshold are not modelled.
- The check of free space before a download.
- Schema files, restore on the node itself, authentication choices of a restore, and host lists from a file.
- Topology changes while nodes stagger: all nodes see the same ring. Finish times are taken to be positive.
- The locks of the registry are created per call and exclude nobody; each registry call is one step here.
- TokensPreserved: says nothing for rings with several tokens per host, whose tokens the source does not compare.
- BackupThenDownload: for a file the backup kept, the content is that of the pool object it found, whose size and digest alone the source compares; SurvivorsGiveBack ties it to the snapshot.
