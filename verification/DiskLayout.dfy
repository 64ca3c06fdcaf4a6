/** Moving a legacy root file into its own disk subvolume.  The instance directory, the
    database row and the guest change in single durable effects, and the journal lets a
    rerun finish from any of them. */
module DiskLayout {
  import opened Faults

  type Bytes = seq<int>

  datatype File = File(inode: nat, bytes: Bytes)

  /** A subvolume that may hold a root file; the file can be an unfinished clone. */
  datatype Subvolume = Subvolume(uuid: nat, file: Option<Bytes>)

  datatype Journal = Journal(operation: nat, subvolume: Option<nat>, legacyInode: nat, ready: bool)

  datatype Path = Legacy | Canonical

  /** One instance: its directory entries (`stages` by operation, `temps` for unpublished
      journal writes) and the path stored in the database. */
  datatype Instance = Instance(
    legacy: Option<File>, disk: Option<Subvolume>, stages: map<nat, Subvolume>,
    journal: Option<Journal>, temps: bool, path: Path)

  /** What a consumer of the database path reads. */
  function ContentsAt(i: Instance): Option<Bytes> {
    match i.path
    case Legacy => if i.legacy.Some? then Some(i.legacy.value.bytes) else None
    case Canonical => if i.disk.Some? then i.disk.value.file else None
  }

  predicate CanonicalLayout(i: Instance) {
    i.path.Canonical? && i.journal.None? && i.legacy.None? && i.stages == map[] && i.disk.Some? && i.disk.value.file.Some?
  }

  // ---- The states an instance can be in between two effects ----

  predicate Unmigrated(i: Instance, truth: Bytes) {
    && i.journal.None? && i.path.Legacy? && i.disk.None? && i.stages == map[]
    && i.legacy.Some? && i.legacy.value.bytes == truth
  }

  predicate Reserved(i: Instance, j: Journal, truth: Bytes) {
    && j.subvolume.None? && !j.ready && i.path.Legacy? && i.disk.None?
    && i.legacy == Some(File(j.legacyInode, truth))
    && (i.stages == map[] || (j.operation in i.stages && i.stages == map[j.operation := Subvolume(i.stages[j.operation].uuid, None)]))
  }

  predicate Cloning(i: Instance, j: Journal, truth: Bytes) {
    && j.subvolume.Some? && !j.ready && i.path.Legacy? && i.disk.None?
    && i.legacy == Some(File(j.legacyInode, truth))
    && j.operation in i.stages && i.stages == map[j.operation := Subvolume(j.subvolume.value, i.stages[j.operation].file)]
  }

  predicate Staged(i: Instance, j: Journal, truth: Bytes) {
    && j.subvolume.Some? && j.ready && i.path.Legacy? && i.disk.None?
    && i.legacy == Some(File(j.legacyInode, truth))
    && i.stages == map[j.operation := Subvolume(j.subvolume.value, Some(truth))]
  }

  predicate PublishedDisk(i: Instance, j: Journal, truth: Bytes) {
    && j.subvolume.Some? && j.ready && i.stages == map[]
    && i.disk == Some(Subvolume(j.subvolume.value, Some(truth)))
    && (i.legacy == Some(File(j.legacyInode, truth)) || (i.legacy.None? && i.path.Canonical?))
  }

  ghost predicate Sound(i: Instance, truth: Bytes) {
    match i.journal
    case None => Unmigrated(i, truth) || (CanonicalLayout(i) && i.disk.value.file == Some(truth))
    case Some(j) => Reserved(i, j, truth) || Cloning(i, j, truth) || Staged(i, j, truth) || PublishedDisk(i, j, truth)
  }

  /** At every crash point the database path names a complete copy of the guest bytes. */
  lemma DatabaseNamesGuestBytes(i: Instance, truth: Bytes)
    requires Sound(i, truth)
    ensures ContentsAt(i) == Some(truth)
  {
  }

  /** The legacy file is gone only once the database names the new, complete disk. */
  lemma LegacyOutlivesSwitch(i: Instance, truth: Bytes)
    requires Sound(i, truth) && i.legacy.None?
    ensures i.path.Canonical? && i.disk.Some? && i.disk.value.file == Some(truth) && i.stages == map[]
  {
  }

  /** Something on disk is not what the journal, or the layout without one, says: the files were
      changed by somebody else. */
  predicate Suspicious(i: Instance) {
    match i.journal
    case None =>
      if i.path.Canonical? then i.stages != map[] || i.legacy.Some? || i.disk.None? || i.disk.value.file.None?
      else i.legacy.None? || i.disk.Some?
    case Some(j) =>
      || (if i.legacy.Some? then i.legacy.value.inode != j.legacyInode else i.path.Legacy? || !j.ready)
      || (if j.subvolume.None? then i.path.Canonical? || i.disk.Some? || (j.operation in i.stages && i.stages[j.operation].file.Some?)
          else if i.disk.Some? then i.disk.value.uuid != j.subvolume.value || !j.ready || j.operation in i.stages || i.disk.value.file.None?
          else j.operation !in i.stages || i.stages[j.operation].uuid != j.subvolume.value)
  }

  /** The migration never makes such a state itself. */
  lemma SoundIsUnsuspicious(i: Instance, truth: Bytes)
    requires Sound(i, truth)
    ensures !Suspicious(i)
  {
  }

  class Provisioner {
    var inst: Instance
    var running: bool
    ghost var truth: Bytes

    ghost predicate Valid()
      reads this
    {
      Sound(inst, truth) && (running ==> CanonicalLayout(inst))
    }

    constructor (legacy: File)
      ensures Valid() && truth == legacy.bytes
    {
      inst := Instance(Some(legacy), None, map[], None, false, Legacy);
      running, truth := false, legacy.bytes;
    }

    method WriteDiskJournal(j: Journal, calm: bool) returns (o: Outcome)
      modifies this`inst
      ensures inst == old(inst).(temps := inst.temps) || inst == old(inst).(journal := Some(j), temps := inst.temps)
      ensures o.Ok? ==> inst.journal == Some(j)
      ensures calm ==> o.Ok?
    {
      inst := inst.(temps := true);
      var f := Choose(calm); // write and sync the temporary
      if !f.Clean? {
        if f.Reply().Err? {
          inst := inst.(temps := false);
        }
        return f.Reply();
      }
      f := Choose(calm);
      if f.Applied() {
        inst := inst.(journal := Some(j), temps := false);
      }
      return f.Reply();
    }

    method CleanupTemps(calm: bool) returns (o: Outcome)
      modifies this`inst
      ensures inst == old(inst).(temps := inst.temps)
      ensures o.Ok? ==> !inst.temps
      ensures calm ==> o.Ok?
    {
      var f := Choose(calm);
      if f.Applied() {
        inst := inst.(temps := false);
      }
      return f.Reply();
    }

    /** Read the journal, or reserve an operation before touching anything. */
    method Reserve(calm: bool) returns (o: Outcome, j: Journal)
      requires Valid() && !running && !(inst.journal.None? && inst.path.Canonical?)
      modifies this`inst
      ensures Valid()
      ensures o.Ok? ==> inst.journal == Some(j)
      ensures old(inst.journal).Some? ==> o.Ok? && inst == old(inst)
      ensures calm ==> o.Ok?
    {
      if inst.journal.Some? {
        return Ok, inst.journal.value;
      }
      var operation: nat := *;
      j := Journal(operation, None, 0, false);
      j := j.(legacyInode := inst.legacy.value.inode);
      o := WriteDiskJournal(j, calm);
    }

    /** Record the identity of the empty reserved subvolume, creating it if needed. */
    method Identify(j0: Journal, calm: bool) returns (o: Outcome, j: Journal)
      requires Valid() && !running && inst.journal == Some(j0)
      modifies this`inst
      ensures Valid() && inst.path == old(inst.path)
      ensures o.Ok? ==> inst.journal == Some(j) && j.subvolume.Some?
      ensures calm ==> o.Ok?
    {
      j := j0;
      if j.subvolume.Some? {
        return Ok, j;
      }
      if j.operation !in inst.stages {
        var uuid: nat := *;
        var f := Choose(calm);
        if f.Applied() {
          inst := inst.(stages := inst.stages[j.operation := Subvolume(uuid, None)]);
        }
        :- f.Reply();
      }
      j := j.(subvolume := Some(inst.stages[j.operation].uuid));
      o := WriteDiskJournal(j, calm);
    }

    /** Clone into the recorded stage; an interrupted clone is simply repeated. */
    method Clone(j0: Journal, calm: bool) returns (o: Outcome, j: Journal)
      requires Valid() && !running && inst.journal == Some(j0) && Cloning(inst, j0, truth)
      modifies this`inst
      ensures Valid()
      ensures o.Ok? ==> inst.journal == Some(j) && Staged(inst, j, truth)
      ensures calm ==> o.Ok?
    {
      j := j0;
      var stage := inst.stages[j.operation];
      var f := Choose(calm);
      if f.Applied() {
        inst := inst.(stages := inst.stages[j.operation := stage.(file := None)]);
      }
      :- f.Reply();
      f := Choose(calm);
      var partial: Bytes := *;
      inst := inst.(stages := inst.stages[j.operation := stage.(file := Some(if f.Clean? then inst.legacy.value.bytes else partial))]);
      :- f.Reply();
      f := Choose(calm); // sync the file and the stage
      :- f.Reply();
      j := j.(ready := true);
      o := WriteDiskJournal(j, calm);
    }

    method Publish(j: Journal, calm: bool) returns (o: Outcome)
      requires Valid() && !running && inst.journal == Some(j) && Staged(inst, j, truth)
      modifies this`inst
      ensures Valid() && inst.journal == Some(j)
      ensures o.Ok? ==> PublishedDisk(inst, j, truth)
      ensures calm ==> o.Ok?
    {
      var f := Choose(calm);
      if f.Applied() {
        inst := inst.(disk := Some(inst.stages[j.operation]), stages := inst.stages - {j.operation});
      }
      return f.Reply();
    }

    /** Point the database at the published disk, and only then drop the legacy file and
        the journal. */
    method SwitchOver(j: Journal, calm: bool) returns (o: Outcome)
      requires Valid() && !running && inst.journal == Some(j) && PublishedDisk(inst, j, truth)
      modifies this`inst
      ensures Valid()
      ensures o.Ok? ==> CanonicalLayout(inst) && !inst.temps
      ensures calm ==> o.Ok?
    {
      var f: Fault;
      if inst.path.Legacy? {
        f := Choose(calm);
        if f.Applied() {
          inst := inst.(path := Canonical);
        }
        :- f.Reply();
      }
      f := Choose(calm);
      if f.Applied() {
        inst := inst.(legacy := None);
      }
      :- f.Reply();
      f := Choose(calm);
      if f.Applied() {
        inst := inst.(journal := None);
      }
      :- f.Reply();
      o := CleanupTemps(calm);
    }

    /** What the code checks before and between its first writes, none of which changes what is
        checked: which files are there, and whether they are those the journal names. */
    method Recognize() returns (o: Outcome)
      ensures !o.Crash?
      ensures inst.journal.None? && inst.path.Canonical? ==>
                (o.Ok? <==> inst.stages == map[] && inst.legacy.None? && inst.disk.Some? && inst.disk.value.file.Some?)
      ensures inst.journal.None? && inst.path.Legacy? ==> (o.Ok? <==> inst.legacy.Some? && inst.disk.None?)
      ensures inst.journal.Some? ==>
                var j := inst.journal.value;
                (o.Ok? <==>
                   && (inst.legacy.Some? ==> inst.legacy.value.inode == j.legacyInode)
                   && (inst.legacy.None? ==> inst.path.Canonical? && j.ready)
                   && (j.subvolume.None? ==> inst.path.Legacy? && inst.disk.None? && (j.operation in inst.stages ==> inst.stages[j.operation].file.None?))
                   && (j.subvolume.Some? && inst.disk.Some? ==>
                         inst.disk.value.uuid == j.subvolume.value && j.ready && j.operation !in inst.stages && inst.disk.value.file.Some?)
                   && (j.subvolume.Some? && inst.disk.None? ==>
                         j.operation in inst.stages && inst.stages[j.operation].uuid == j.subvolume.value))
    {
      if inst.journal.None? {
        if inst.path.Canonical? {
          return if inst.stages != map[] || inst.legacy.Some? || inst.disk.None? || inst.disk.value.file.None? then Err else Ok;
        }
        return if inst.legacy.None? || inst.disk.Some? then Err else Ok;
      }
      var j := inst.journal.value;
      if inst.legacy.Some? {
        if inst.legacy.value.inode != j.legacyInode {
          return Err;
        }
      } else if inst.path.Legacy? || !j.ready {
        return Err;
      }
      if j.subvolume.None? {
        return if inst.path.Canonical? || inst.disk.Some? || (j.operation in inst.stages && inst.stages[j.operation].file.Some?) then Err else Ok;
      }
      if inst.disk.Some? {
        return if inst.disk.value.uuid != j.subvolume.value || !j.ready || j.operation in inst.stages || inst.disk.value.file.None? then Err else Ok;
      }
      return if j.operation !in inst.stages || inst.stages[j.operation].uuid != j.subvolume.value then Err else Ok;
    }

    /** Runs before every start and every conversion.  Success always means the canonical
        layout with the same bytes; without faults it always succeeds on a stopped instance.
        Files that somebody else changed are refused untouched. */
    method EnsureDiskLayout(calm: bool) returns (o: Outcome)
      requires Valid() || Suspicious(inst)
      modifies this`inst
      ensures old(Suspicious(inst)) ==> o == Err && inst == old(inst)
      ensures old(Valid()) ==> Valid() && ContentsAt(inst) == old(ContentsAt(inst)) == Some(truth)
      ensures o.Ok? ==> CanonicalLayout(inst) && !inst.temps
      ensures old(Valid()) && calm && !running ==> o.Ok?
    {
      if Valid() {
        SoundIsUnsuspicious(inst, truth);
      }
      o := Recognize();
      :- o;
      if inst.journal.None? && inst.path.Canonical? {
        o := CleanupTemps(calm);
        return;
      }
      if running {
        return Err;
      }
      var j: Journal;
      j :- Reserve(calm);
      j :- Identify(j, calm);
      if inst.disk.None? {
        if !j.ready {
          j :- Clone(j, calm);
        }
        :- Publish(j, calm);
      }
      o := SwitchOver(j, calm);
    }

    // ---- What else may change the disk ----

    /** A start passes through the layout check first. */
    method Start(calm: bool) returns (o: Outcome)
      requires Valid() || Suspicious(inst)
      modifies this`inst, this`running
      ensures old(Suspicious(inst)) ==> o == Err && inst == old(inst) && running == old(running)
      ensures old(Valid()) ==> Valid()
      ensures o.Ok? ==> running && ContentsAt(inst) == Some(truth)
      ensures old(Valid()) && calm && !old(running) ==> o.Ok?
    {
      o := Ok;
      :- EnsureDiskLayout(calm);
      running := true;
      return Ok;
    }

    method GuestWrite(bytes: Bytes)
      requires Valid() && running
      modifies this`inst, this`truth
      ensures Valid() && truth == bytes && running
    {
      inst := inst.(disk := Some(inst.disk.value.(file := Some(bytes))));
      truth := bytes;
    }

    method Stop()
      requires Valid()
      modifies this`running
      ensures Valid() && !running
    {
      running := false;
    }

    /** diskMutationFence: an offline change is refused while a migration is journalled,
        so a staged copy never goes stale. */
    method MutateOffline(bytes: Bytes) returns (o: Outcome)
      requires Valid()
      modifies this`inst, this`truth
      ensures Valid()
      ensures o.Ok? <==> old(inst.journal.None?) && !running
      ensures truth == if o.Ok? then bytes else old(truth)
      ensures !o.Ok? ==> inst == old(inst)
    {
      if inst.journal.Some? || running {
        return Err;
      }
      if inst.path.Legacy? {
        inst := inst.(legacy := Some(inst.legacy.value.(bytes := bytes)));
      } else {
        inst := inst.(disk := Some(inst.disk.value.(file := Some(bytes))));
      }
      truth := bytes;
      return Ok;
    }

    /** After any run of attempts, starts, writes and offline changes with any faults, one
        calm attempt on the stopped instance finishes the migration with the same bytes. */
    method RunThenFinish(steps: nat) returns (o: Outcome)
      requires Valid()
      modifies this
      ensures Valid() && o.Ok? && CanonicalLayout(inst) && inst.disk.value.file == Some(truth) && !inst.temps
    {
      for i := 0 to steps
        invariant Valid()
      {
        var choice: nat, bytes: Bytes := *, *;
        if choice == 0 {
          var _ := EnsureDiskLayout(false);
        } else if choice == 1 {
          var _ := Start(false);
        } else if choice == 2 && running {
          GuestWrite(bytes);
        } else if choice == 3 {
          Stop();
        } else {
          var _ := MutateOffline(bytes);
        }
      }
      Stop();
      o := EnsureDiskLayout(true);
    }
  }
}
