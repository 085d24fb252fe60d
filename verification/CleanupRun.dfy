/** execute_inventory of scripts/cleanup_prod2_selected.py: archive, cloud copy, pointer and
    only then deletion, where the process may die before any durable step. */
module CleanupRun {
  import opened Common
  import opened CleanupInventory
  import opened CleanupArchive
  import opened ManifestText
  import opened DateText

  datatype CloudKey = CloudKey(run: string, archive: Archive)

  /** An object's bytes and the metadata kept with it. */
  datatype CloudObject = CloudObject(content: Archive, digest: Archive, inventory: Inventory)

  datatype Backup = Backup(key: CloudKey, inventory: Inventory)

  /** What other programs make of the disk before the t-th look of a loop that changes it. */
  type Change = (nat, Disk) -> Disk

  /** A history of what became durable, in order, and of the comparisons in between, with the
      disk that each file was found on; `evidence` is the disk the inventory was taken from. */
  datatype Event =
    | Compared(inventory: Inventory, found: seq<Disk>)
    | PointerWritten(archive: Archive)
    | Removed(entry: Entry, bytes: Bytes, inventory: Inventory, evidence: Disk, archive: Archive)

  datatype Ending = Finished(deleted: nat) | Refused | Died

  function Doomeds(files: seq<Entry>): (r: seq<Entry>)
    ensures forall i :: 0 <= i < |r| ==> r[i] in files && r[i].doomed
    ensures forall e :: e in files && e.doomed ==> e in r
  {
    if files == [] then []
    else
      var last := files[|files| - 1];
      Doomeds(files[..|files| - 1]) + if last.doomed then [last] else []
  }

  /** The entry may go: a binary of the inventory, all of which was as listed on that disk, in
      a case with no unreconciled payment there, or in no case at all. */
  ghost predicate Authorized(v: Inventory, e: Entry, evidence: Disk, read: Reader) {
    && e in v.files && e.doomed && IsBinary(e.path) && AllCurrent(evidence, v.files)
    && (e.owner.Some? ==> CaseReconciled(v.files, evidence, read, e.owner))
  }

  /** Nobody else touches the disk. */
  ghost predicate Still(change: Change) { forall t, d :: change(t, d) == d }

  ghost predicate AllLooksAt(look: Looks, disk: Disk) { forall t :: look(t) == disk }

  /** Every file of the inventory was compared, one after the other, and was as listed. */
  predicate AsListed(e: Event, v: Inventory) {
    && e.Compared? && e.inventory == v && |e.found| == |v.files|
    && forall i :: 0 <= i < |v.files| ==> Current(e.found[i], v.files[i])
  }

  predicate DistinctPaths(files: seq<Entry>) {
    forall i, j :: 0 <= i < j < |files| ==> files[i].path != files[j].path
  }

  predicate GoneBefore(files: seq<Entry>, n: nat, p: Path)
    requires n <= |files|
  {
    exists i :: 0 <= i < n && files[i].path == p
  }

  lemma NothingGone(files: seq<Entry>)
    ensures forall p :: !GoneBefore(files, 0, p)
  {
  }

  lemma GoneMore(files: seq<Entry>, i: nat)
    requires i < |files|
    ensures forall p :: GoneBefore(files, i + 1, p) <==> GoneBefore(files, i, p) || p == files[i].path
  {
    assert GoneBefore(files, i + 1, files[i].path);
  }

  lemma AllGone(files: seq<Entry>)
    ensures forall e :: e in files ==> GoneBefore(files, |files|, e.path)
  {
  }

  /** Every path that is gone is that of a listed file with its listed bytes. */
  lemma GoneEntries(files: seq<Entry>, disk: Disk)
    requires AllCurrent(disk, files)
    ensures forall i, p :: 0 <= i <= |files| && GoneBefore(files, i, p) ==>
              p in disk && exists e :: e in files && e.path == p && e.sha == disk[p]
  {
    forall i, p | 0 <= i <= |files| && GoneBefore(files, i, p)
      ensures p in disk && exists e :: e in files && e.path == p && e.sha == disk[p]
    {
      var j :| 0 <= j < i && files[j].path == p;
      assert Current(disk, files[j]) && files[j] in files;
    }
  }

  /** A file that changed under the loop is one the loop removed itself. */
  lemma GoneIsRepeated(files: seq<Entry>, before: Disk, disk: Disk, i: nat)
    requires i < |files| && AllCurrent(before, files) && !Current(disk, files[i])
    requires forall p :: p in disk <==> p in before && !GoneBefore(files, i, p)
    requires forall p :: p in disk ==> disk[p] == before[p]
    ensures !DistinctPaths(files)
  {
    assert Current(before, files[i]);
  }

  /** The archive's object is new and arrives, or it is there with its own bytes and metadata. */
  predicate Arrives(cloud: map<CloudKey, CloudObject>, archive: Archive, v: Inventory, upload: bool) {
    var key := CloudKey(v.run, archive);
    if key in cloud then cloud[key].content == archive && cloud[key].digest == archive && cloud[key].inventory == v else upload
  }

  class Laptop {
    const read: Reader
    var disk: Disk
    var archives: map<Inventory, Archive>
    var pointers: map<Archive, Backup>
    var cloud: map<CloudKey, CloudObject>
    ghost var events: seq<Event>

    constructor (disk: Disk, cloud: map<CloudKey, CloudObject>, read: Reader)
      ensures this.read == read
      ensures Valid() && this.disk == disk && this.cloud == cloud && events == [] && archives == map[] && pointers == map[]
    {
      this.disk, this.cloud, this.read := disk, cloud, read;
      archives, pointers, events := map[], map[], [];
    }

    /** The file is gone from the laptop but not from the world. */
    ghost predicate Recoverable(at: nat)
      reads this
      requires at < |events| && events[at].Removed?
    {
      var e := events[at];
      var key := CloudKey(e.inventory.run, e.archive);
      && Authorized(e.inventory, e.entry, e.evidence, read) && e.bytes == e.entry.sha
      && Accepted(e.archive, e.inventory)
      && key in cloud && cloud[key].content == e.archive
      && e.archive in pointers && pointers[e.archive] == Backup(key, e.inventory)
      && exists before :: 0 <= before < at && events[before] == PointerWritten(e.archive)
    }

    /** Every file ever removed was authorized, and is still in a verified cloud archive whose
        pointer was written before the removal. */
    ghost predicate Valid()
      reads this
    {
      && (forall at :: 0 <= at < |events| && events[at].Removed? ==> Recoverable(at))
      && (forall archive :: archive in pointers ==> exists at :: 0 <= at < |events| && events[at] == PointerWritten(archive))
    }

    /** cloud_backup: upload if absent, then HEAD and a whole GET that must give the archive
        back.  `upload` says whether the object arrives; another object under the key refuses. */
    method CloudBackup(archive: Archive, v: Inventory, upload: bool) returns (backup: Option<Backup>)
      requires Valid()
      modifies this`cloud
      ensures Valid() && forall k :: k in old(cloud) ==> k in cloud && cloud[k] == old(cloud)[k]
      ensures backup.Some? ==>
                && backup.value == Backup(CloudKey(v.run, archive), v)
                && CloudKey(v.run, archive) in cloud && cloud[CloudKey(v.run, archive)].content == archive
      ensures backup.Some? <==> Arrives(old(cloud), archive, v, upload)
    {
      hide Accepted, Authorized;
      var key := CloudKey(v.run, archive);
      if key in cloud {
        if cloud[key].digest != archive || cloud[key].inventory != v { return None; }
      } else if upload {
        cloud := cloud[key := CloudObject(archive, archive, v)];
      } else {
        return None;
      }
      if cloud[key].digest != archive || cloud[key].inventory != v || cloud[key].content != archive { return None; }
      return Some(Backup(key, v));
    }

    /** The pointer, written once. */
    method WritePointer(archive: Archive, backup: Backup, v: Inventory) returns (ok: bool)
      requires Valid() && backup == Backup(CloudKey(v.run, archive), v)
      modifies this`pointers, this`events
      ensures Valid() && old(events) <= events
      ensures ok ==> archive in pointers && pointers[archive] == backup
      ensures forall at :: |old(events)| <= at < |events| ==> !events[at].Removed?
      ensures forall a :: a in old(pointers) ==> a in pointers && pointers[a] == old(pointers)[a]
      ensures archive !in old(pointers) ==> ok
    {
      hide Accepted, Authorized;
      if archive in pointers { return pointers[archive] == backup; }
      pointers := pointers[archive := backup];
      events := events + [PointerWritten(archive)];
      assert events[|old(events)|] == PointerWritten(archive);
      forall at | 0 <= at < |events| && events[at].Removed? ensures Recoverable(at) {
        assert old(Recoverable(at));
        var before :| 0 <= before < at && old(events)[before] == PointerWritten(events[at].archive);
        assert events[before] == PointerWritten(events[at].archive);
      }
      forall a | a in pointers ensures exists at :: 0 <= at < |events| && events[at] == PointerWritten(a) {
        if a != archive {
          var at :| 0 <= at < |old(events)| && old(events)[at] == PointerWritten(a);
          assert events[at] == PointerWritten(a);
        }
      }
      ok := true;
    }

    /** delete_binaries: the whole set is checked before its first member goes, and each file
        again just before it goes.  The process dies after `lives` removals. */
    method DeleteBinaries(v: Inventory, archive: Archive, lives: nat, look: Looks, change: Change, ghost evidence: Disk)
      returns (ending: Ending)
      requires Valid() && Accepted(archive, v)
      requires forall e :: e in v.files && e.doomed ==> Authorized(v, e, evidence, read)
      requires CloudKey(v.run, archive) in cloud && cloud[CloudKey(v.run, archive)].content == archive
      requires archive in pointers && pointers[archive] == Backup(CloudKey(v.run, archive), v)
      modifies this`disk, this`events
      ensures Valid() && old(events) <= events && RemovalsSince(|old(events)|, v, evidence)
      ensures ending.Finished? ==> forall e :: e in v.files && e.doomed ==> RemovedSince(|old(events)|, e)
      ensures !CurrentInTurn(look, Doomeds(v.files)) ==> ending == Refused && events == old(events) && disk == old(disk)
      ensures AllLooksAt(look, old(disk)) && Still(change) ==>
                && (forall p :: p in disk ==> p in old(disk) && disk[p] == old(disk)[p])
                && (forall p :: p in old(disk) && p !in disk ==> exists e :: e in v.files && e.doomed && e.path == p && e.sha == old(disk)[p])
                && (ending.Finished? ==> forall e :: e in v.files && e.doomed ==> e.path !in disk)
                && (!AllCurrent(old(disk), Doomeds(v.files)) ==> ending == Refused && disk == old(disk))
                && (ending == Refused && DistinctPaths(Doomeds(v.files)) ==> disk == old(disk))
                && (AllCurrent(old(disk), Doomeds(v.files)) && DistinctPaths(Doomeds(v.files)) ==>
                      ending == if lives < |Doomeds(v.files)| then Died else Finished(|Doomeds(v.files)|))
    {
      var binaries := Doomeds(v.files);
      hide Accepted, Doomeds, Unique, Authorized, Recoverable, AllCurrent, Still, RemovedSince;
      assert AllLooksAt(look, disk) ==> (CurrentInTurn(look, binaries) <==> AllCurrent(disk, binaries)) by { SameLooks(look, disk, binaries); }
      hide CurrentInTurn, AllLooksAt;
      var current := Recheck(binaries, look);
      if !current { return Refused; }
      ending := RemoveAll(binaries, v, archive, lives, change, evidence);
    }

    /** Every event since is the removal of an entry of this inventory. */
    ghost predicate RemovalsSince(n: nat, v: Inventory, evidence: Disk)
      reads this
    {
      forall at :: n <= at < |events| ==> events[at].Removed? && events[at].inventory == v && events[at].evidence == evidence
    }

    ghost predicate NoRemovalSince(n: nat)
      reads this
    {
      forall at :: n <= at < |events| ==> !events[at].Removed?
    }

    ghost predicate RemovedSince(n: nat, e: Entry)
      reads this
    {
      exists at :: n <= at < |events| && events[at].Removed? && events[at].entry == e
    }

    /** The removal loop.  Other programs may change the disk before each look; a file is
        unlinked at its own look, which found it as listed. */
    method RemoveAll(binaries: seq<Entry>, v: Inventory, archive: Archive, lives: nat, change: Change, ghost evidence: Disk)
      returns (ending: Ending)
      requires Valid() && Accepted(archive, v)
      requires forall e :: e in binaries ==> Authorized(v, e, evidence, read)
      requires CloudKey(v.run, archive) in cloud && cloud[CloudKey(v.run, archive)].content == archive
      requires archive in pointers && pointers[archive] == Backup(CloudKey(v.run, archive), v)
      modifies this`disk, this`events
      ensures Valid() && old(events) <= events && RemovalsSince(|old(events)|, v, evidence)
      ensures ending.Finished? ==> forall e :: e in binaries ==> RemovedSince(|old(events)|, e)
      ensures Still(change) && AllCurrent(old(disk), binaries) ==>
                && (forall p :: p in disk ==> p in old(disk) && disk[p] == old(disk)[p])
                && (forall p :: p in old(disk) && p !in disk ==> exists e :: e in binaries && e.path == p && e.sha == old(disk)[p])
                && (ending.Finished? ==> forall e :: e in binaries ==> e.path !in disk)
                && (DistinctPaths(binaries) ==> ending == if lives < |binaries| then Died else Finished(|binaries|))
    {
      hide Accepted, Authorized, Recoverable, Valid, Current, GoneBefore;
      NothingGone(binaries);
      if AllCurrent(disk, binaries) { GoneEntries(binaries, disk); }
      for i := 0 to |binaries|
        invariant Valid() && old(events) <= events && RemovalsSince(|old(events)|, v, evidence)
        invariant |events| == |old(events)| + i && i <= lives
        invariant forall j :: 0 <= j < i ==> events[|old(events)| + j].Removed? && events[|old(events)| + j].entry == binaries[j]
        invariant Still(change) && AllCurrent(old(disk), binaries) ==>
                    && (forall p :: p in disk <==> p in old(disk) && !GoneBefore(binaries, i, p))
                    && (forall p :: p in disk ==> disk[p] == old(disk)[p])
      {
        var row := binaries[i];
        OthersWork(i, change);
        if !Current(disk, row) {
          if Still(change) && AllCurrent(old(disk), binaries) { GoneIsRepeated(binaries, old(disk), disk, i); }
          return Refused;
        }
        if i == lives { return Died; }
        GoneMore(binaries, i);
        Unlink(row, v, archive, evidence);
      }
      AllGone(binaries);
      forall e | e in binaries ensures RemovedSince(|old(events)|, e) {
        var j :| 0 <= j < |binaries| && binaries[j] == e;
        assert events[|old(events)| + j].entry == e;
      }
      ending := Finished(|binaries|);
    }

    method OthersWork(t: nat, change: Change)
      requires Valid()
      modifies this`disk
      ensures Valid() && disk == change(t, old(disk))
    {
      hide Accepted, Authorized;
      disk := change(t, disk);
    }

    method Unlink(row: Entry, v: Inventory, archive: Archive, ghost evidence: Disk)
      requires Valid() && Accepted(archive, v) && Authorized(v, row, evidence, read) && Current(disk, row)
      requires CloudKey(v.run, archive) in cloud && cloud[CloudKey(v.run, archive)].content == archive
      requires archive in pointers && pointers[archive] == Backup(CloudKey(v.run, archive), v)
      modifies this`disk, this`events
      ensures Valid() && disk == old(disk) - {row.path}
      ensures events == old(events) + [Removed(row, old(disk)[row.path], v, evidence, archive)]
    {
      hide Accepted, Authorized;
      ghost var bytes := disk[row.path];
      disk := disk - {row.path};
      events := events + [Removed(row, bytes, v, evidence, archive)];
      forall at | 0 <= at < |events| && events[at].Removed? ensures Recoverable(at) {
        if at < |old(events)| {
          assert old(Recoverable(at));
          var before :| 0 <= before < at && old(events)[before] == PointerWritten(events[at].archive);
          assert events[before] == PointerWritten(events[at].archive);
        } else {
          var before :| 0 <= before < |old(events)| && old(events)[before] == PointerWritten(archive);
          assert events[before] == PointerWritten(archive);
        }
      }
      forall a | a in pointers ensures exists at :: 0 <= at < |events| && events[at] == PointerWritten(a) {
        var at :| 0 <= at < |old(events)| && old(events)[at] == PointerWritten(a);
        assert events[at] == PointerWritten(a);
      }
    }

    /** A comparison that found every file as listed. */
    ghost method Note(v: Inventory, look: Looks)
      requires Valid() && CurrentInTurn(look, v.files)
      modifies this`events
      ensures Valid() && |events| == |old(events)| + 1 && old(events) <= events
      ensures events[|old(events)|].Compared? && AsListed(events[|old(events)|], v)
    {
      hide Accepted, Authorized;
      events := events + [Compared(v, seq(|v.files|, i requires 0 <= i < |v.files| => look(i)))];
      forall at | 0 <= at < |events| && events[at].Removed? ensures Recoverable(at) {
        assert old(Recoverable(at));
        var before :| 0 <= before < at && old(events)[before] == PointerWritten(events[at].archive);
        assert events[before] == PointerWritten(events[at].archive);
      }
      forall a | a in pointers ensures exists at :: 0 <= at < |events| && events[at] == PointerWritten(a) {
        var at :| 0 <= at < |old(events)| && old(events)[at] == PointerWritten(a);
        assert events[at] == PointerWritten(a);
      }
    }

    /** The archive, built or found, and its cloud copy. */
    method StoreArchive(v: Inventory, compressed: nat, upload: bool, lives: nat, look: Looks) returns (r: Result<Archive, Ending>)
      requires Valid() && Measured(v)
      modifies this`archives, this`cloud
      ensures Valid()
      ensures r.Ok? ==>
                && Accepted(r.value, v) && lives >= 3 && v in archives && archives[v] == r.value
                && CloudKey(v.run, r.value) in cloud && cloud[CloudKey(v.run, r.value)].content == r.value
      ensures r.Err? ==> !r.error.Finished?
      ensures !CurrentInTurn(look, v.files) ==> r == Err(Refused)
      ensures v !in old(archives) && Fits(v, compressed) && Arrives(old(cloud), BuildStream(v), v, upload)
              && (forall t :: AllCurrent(look(t), v.files))
              ==> r == if lives < 3 then Err(Died) else Ok(BuildStream(v))
    {
      hide Accepted, BuildStream, Unique, Authorized, AllCurrent, CurrentInTurn, ManifestLength, Fits;
      var existing := if v in archives then Some(archives[v]) else None;
      var built := BuildArchive(v, existing, compressed, look);
      if built.None? { return Err(Refused); }
      var archive := built.value;
      if lives == 0 { return Err(Died); }
      archives := archives[v := archive];
      if lives == 1 { return Err(Died); }
      var backup := CloudBackup(archive, v, upload);
      if backup.None? { return Err(Refused); }
      return if lives == 2 then Err(Died) else Ok(archive);
    }

    /** The comparison that must follow the cloud's answer, and the pointer behind it. */
    method Point(v: Inventory, archive: Archive, look: Looks) returns (ok: bool)
      requires Valid()
      modifies this`pointers, this`events
      ensures Valid() && old(events) <= events && NoRemovalSince(|old(events)|)
      ensures ok ==> archive in pointers && pointers[archive] == Backup(CloudKey(v.run, archive), v)
      ensures ok ==> |events| > |old(events)| && AsListed(events[|old(events)|], v)
      ensures CurrentInTurn(look, v.files) && archive !in old(pointers) ==> ok
    {
      hide Accepted, Authorized, AllCurrent, CurrentInTurn, AsListed, Valid;
      var current := Recheck(v.files, look);
      if !current { return false; }
      Note(v, look);
      ok := WritePointer(archive, Backup(CloudKey(v.run, archive), v), v);
    }

    /** Everything before the first removal: the archive is verified, the cloud gives it back,
        every file is then still as listed, and the pointer is written.  Other programs may
        change the disk at every look.  The process dies when its `lives` durable steps are
        used up. */
    method Secure(v: Inventory, compressed: nat, upload: bool, lives: nat, look: Looks) returns (r: Result<Archive, Ending>)
      requires Valid() && Measured(v)
      modifies this`archives, this`cloud, this`pointers, this`events
      ensures Valid() && old(events) <= events && NoRemovalSince(|old(events)|)
      ensures r.Ok? ==>
                && Accepted(r.value, v) && lives >= 4
                && CloudKey(v.run, r.value) in cloud && cloud[CloudKey(v.run, r.value)].content == r.value
                && r.value in pointers && pointers[r.value] == Backup(CloudKey(v.run, r.value), v)
                && |events| > |old(events)| && AsListed(events[|old(events)|], v)
      ensures r.Err? ==> !r.error.Finished?
      ensures !CurrentInTurn(look, v.files) ==> r == Err(Refused)
      ensures v !in old(archives) && BuildStream(v) !in old(pointers) && Fits(v, compressed) && Arrives(old(cloud), BuildStream(v), v, upload)
              && (forall t :: AllCurrent(look(t), v.files))
              ==> r == if lives < 4 then Err(Died) else Ok(BuildStream(v))
    {
      assert (forall t :: AllCurrent(look(t), v.files)) ==> CurrentInTurn(Later(look, 4 * |v.files|), v.files);
      hide Accepted, Authorized, AllCurrent, CurrentInTurn, AsListed, Valid, Measured, Fits, Arrives, BuildStream;
      var stored := StoreArchive(v, compressed, upload, lives, look);
      if stored.Err? { return stored; }
      var archive := stored.value;
      var after := Later(look, 4 * |v.files|);
      var pointed := Point(v, archive, after);
      if !pointed { return Err(Refused); }
      return if lives == 3 then Err(Died) else Ok(archive);
    }

    /** A first run on an inventory that fits, whose archive's object can be stored. */
    ghost predicate Startable(v: Inventory, compressed: nat, upload: bool)
      reads this
    {
      && v !in archives && BuildStream(v) !in pointers && Fits(v, compressed) && Arrives(cloud, BuildStream(v), v, upload)
      && DistinctPaths(Doomeds(v.files))
    }

    /** execute_inventory of an inventory taken earlier, from the disk `seen`.  `look` is what the
        program sees of the disk before it removes anything and `change` what others do to it
        while it removes. */
    method ExecuteInventory(v: Inventory, compressed: nat, upload: bool, lives: nat, look: Looks, change: Change,
                            ghost found: seq<Found>, ghost seen: Disk)
      returns (ending: Ending)
      requires Valid() && InventoryOf(v, found, seen) && RetainedOf(v, seen, read)
      modifies this
      ensures Valid() && old(events) <= events
      ensures forall at :: |old(events)| <= at < |events| && events[at].Removed? ==>
                             && events[at].inventory == v && events[at].evidence == seen
                             && exists before :: |old(events)| <= before < at && AsListed(events[before], v)
      ensures ending.Finished? ==> forall e :: e in v.files && e.doomed ==> RemovedSince(|old(events)|, e)
      ensures !CurrentInTurn(look, v.files) ==> ending == Refused && NoRemovalSince(|old(events)|) && disk == old(disk)
      ensures AllLooksAt(look, old(disk)) && Still(change) ==>
                && (forall p :: p in disk ==> p in old(disk) && disk[p] == old(disk)[p])
                && (forall p :: p in old(disk) && p !in disk ==> exists e :: e in v.files && e.doomed && e.path == p && e.sha == old(disk)[p])
                && (ending.Finished? ==> AllCurrent(old(disk), v.files) && forall e :: e in v.files && e.doomed ==> e.path !in disk)
                && (!AllCurrent(old(disk), v.files) ==> ending == Refused && disk == old(disk))
                && (ending.Finished? ==> forall e :: e in v.files && e.doomed ==> Authorized(v, e, old(disk), read))
      ensures AllLooksAt(look, old(disk)) && Still(change) && AllCurrent(old(disk), v.files) && old(Startable(v, compressed, upload)) ==>
                ending == if lives < 4 + |Doomeds(v.files)| then Died else Finished(|Doomeds(v.files)|)
    {
      InventoryFacts(v, found, seen);
      hide Accepted, Authorized, InventoryOf, RetainedOf, AllCurrent, Recoverable, Measured, Still, RemovedSince, AsListed;
      assert AllLooksAt(look, disk) ==> (CurrentInTurn(look, v.files) <==> AllCurrent(disk, v.files)) by { SameLooks(look, disk, v.files); }
      assert AllLooksAt(look, disk) ==> AllLooksAt(Later(look, 5 * |v.files|), disk);
      hide CurrentInTurn, AllLooksAt;
      var archive := Secure(v, compressed, upload, lives, look);
      if archive.Err? { return archive.error; }
      ghost var before, start := |old(events)|, disk;
      forall e | e in v.files && e.doomed ensures Authorized(v, e, seen, read) { DoomedIsAuthorized(v, found, seen, seen, read, e); }
      if AllCurrent(start, v.files) {
        forall e | e in v.files && e.doomed ensures Authorized(v, e, start, read) { DoomedIsAuthorized(v, found, seen, start, read, e); }
      }
      ending := DeleteBinaries(v, archive.value, lives - 4, Later(look, 5 * |v.files|), change, seen);
      assert AsListed(events[before], v);
    }
  }

  /** On a disk that nobody changes, looking in turn is looking at once. */
  lemma SameLooks(look: Looks, disk: Disk, files: seq<Entry>)
    ensures AllLooksAt(look, disk) ==> (CurrentInTurn(look, files) <==> AllCurrent(disk, files))
  {
    hide Current;
  }

  /** What an inventory lists was as listed. */
  lemma InventoryFacts(v: Inventory, found: seq<Found>, disk: Disk)
    requires InventoryOf(v, found, disk)
    ensures Measured(v) && AllCurrent(disk, v.files)
  {
    forall i | 0 <= i < |v.files| ensures v.files[i].bytes == |v.files[i].sha| && Current(disk, v.files[i]) {
      assert v.files[i] == FactsOf(disk, found[i]).(doomed := Doomed(FactsOf(disk, found[i]), v.retained));
    }
  }

  /** The flag of an inventory authorizes, on its own disk and on every one with the same files. */
  lemma DoomedIsAuthorized(v: Inventory, found: seq<Found>, seen: Disk, now: Disk, read: Reader, e: Entry)
    requires InventoryOf(v, found, seen) && RetainedOf(v, seen, read) && AllCurrent(now, v.files) && e in v.files && e.doomed
    ensures Authorized(v, e, now, read)
  {
    InventoryFacts(v, found, seen);
    var i :| 0 <= i < |v.files| && v.files[i] == e;
    DoomedExactly(v, found, seen, read, i);
    hide Current, CaseReconciled, InventoryOf, RetainedOf, AllCurrent;
    assert forall j :: 0 <= j < |v.files| ==> Current(seen, v.files[j]) && Current(now, v.files[j]) by { CurrentBoth(v, seen, now); }
    ReconciledCarries(v.files, seen, now, read, e.owner);
  }

  lemma CurrentBoth(v: Inventory, a: Disk, b: Disk)
    requires AllCurrent(a, v.files) && AllCurrent(b, v.files)
    ensures forall j :: 0 <= j < |v.files| ==> Current(a, v.files[j]) && Current(b, v.files[j])
  {
  }

  /** Nothing else an inventory lists is out of the archive's bounds, so its own archive is
      accepted exactly while the encoded manifest fits. */
  lemma InventoryArchives(v: Inventory, found: seq<Found>, disk: Disk)
    requires InventoryOf(v, found, disk)
    ensures Accepted(BuildStream(v), v) <==> ManifestLength(v) <= 16 * 1024 * 1024
  {
    InventoryFacts(v, found, disk);
    BuiltIsAccepted(v);
  }

  // ----- An inventory whose own archive is refused ------------------------------------------------

  /** A path of a thousand characters in ten folders, and a number. */
  function DeepPath(i: nat): Path {
    seq(1000, k => if k % 100 == 99 then '/' else 'a') + Dec(i)
  }

  function DeepFiles(n: nat): (r: seq<Found>)
    ensures |r| == n && forall i :: 0 <= i < n ==> r[i] == Found(DeepPath(i), Some("case"))
  {
    if n == 0 then [] else DeepFiles(n - 1) + [Found(DeepPath(n - 1), Some("case"))]
  }

  lemma {:induction false} NameKeepsEnd(p: Path, n: nat)
    requires n <= |p| && p != "" && p[|p| - 1] != '/'
    ensures NameFrom(p, n) != "" && NameFrom(p, n)[|NameFrom(p, n)| - 1] == p[|p| - 1]
  {
    if n > 0 && p[n - 1] != '/' { NameKeepsEnd(p, n - 1); }
  }

  /** A file named by a number holds no payment. */
  lemma DeepHoldsNoPayment(files: seq<Entry>, disk: Disk, read: Reader, i: nat)
    ensures !LostPayment(files, disk, read, DeepPath(i)) && !LostOutcome(files, disk, read, DeepPath(i))
  {
    NumDec(i);
    var p := DeepPath(i);
    assert IsDigit(p[|p| - 1]);
    NameKeepsEnd(p, |p|);
  }

  /** Any number of empty files an inventory may list, deep in one case folder. */
  lemma DeepInventory(read: Reader, n: nat) returns (v: Inventory, found: seq<Found>, disk: Disk)
    requires n <= MAX_FILES
    ensures Inventoriable(found, disk, read) && InventoryOf(v, found, disk) && RetainedOf(v, disk, read)
    ensures ManifestLength(v) >= 1000 * n
  {
    hide DeepPath, DeepFiles, LostPayment, LostOutcome, IsBinary, Unique, TotalBytes, EntriesLength;
    found := DeepFiles(n);
    disk := map f | f in found :: f.path := "";
    forall i | 0 <= i < |found| ensures Readable(disk, found[i].path) && disk[found[i].path] == "" { assert found[i] in found; }
    var facts := FactsList(found, disk);
    var files := seq(|found|, i requires 0 <= i < |facts| => facts[i].(doomed := Doomed(facts[i], {})));
    v := Inventory("run", "", files, {});
    forall i | 0 <= i < |found| ensures facts[i].path == DeepPath(i) && facts[i].bytes == 0 { assert found[i].path in disk; }
    NothingToKeep(facts);
    NothingToKeep(files);
    forall i | 0 <= i < |found|
      ensures !LostPayment(facts, disk, read, facts[i].path) && !LostOutcome(facts, disk, read, facts[i].path)
              && !LostPayment(files, disk, read, files[i].path)
    {
      DeepHoldsNoPayment(facts, disk, read, i);
      DeepHoldsNoPayment(files, disk, read, i);
    }
    forall i | 0 <= i < |files| ensures |files[i].path| >= 1000 { DeepIsLong(i); }
    LongEntries(files, 1000);
  }

  /** As many as it may list: the inventory is taken, and its archive is refused for the length
      of its manifest. */
  lemma DeepFoldersRefused(read: Reader) returns (v: Inventory, found: seq<Found>, disk: Disk)
    ensures Inventoriable(found, disk, read) && InventoryOf(v, found, disk) && RetainedOf(v, disk, read)
    ensures !Accepted(BuildStream(v), v)
  {
    hide Inventoriable, InventoryOf, RetainedOf, ManifestLength, Accepted, BuildStream;
    v, found, disk := DeepInventory(read, MAX_FILES);
    InventoryArchives(v, found, disk);
  }

  lemma DeepIsLong(i: nat)
    ensures |DeepPath(i)| >= 1000
  {
  }
}
