/** Kernel upgrade, rollback and finalize.  A disk, its kernel and its initrd belong to a
    generation; a durable pending journal fences every state in which they could differ.
    The journal and the disk are renamed first and synced after, so each is kept as it is
    visible and as a power loss would find it. */
module KernelUpgrade {
  import opened Faults

  type Bytes = seq<int>
  type Generation = nat
  type Path = nat
  type Dir = nat

  /** Guest data, and the kernel generation whose modules the disk carries. */
  datatype Disk = Disk(data: Bytes, modules: Generation)

  datatype Boot = Boot(kernel: Path, initrd: Option<Path>)

  datatype Journal = Journal(dir: Dir, boot: Boot, size: nat, pending: bool, finalized: bool)

  /** What an upgrade started from. */
  datatype Before = Before(disk: Disk, kernel: Generation, initrd: Option<Generation>, size: nat)

  /** The base image and the manifest that binds its root file and kernel. */
  datatype Image = Image(rootfs: Generation, kernel: Generation, manifest: Generation, hasInitrd: bool)

  /** Files and database row of one instance.  `saved` are the retained rollback disks by
      stage directory, `artifacts` the boot files by path. */
  datatype Instance = Instance(
    journal: Option<Journal>, durJournal: Option<Journal>,
    disk: Disk, durDisk: Disk, boot: Boot, size: nat,
    saved: map<Dir, Disk>, artifacts: map<Path, Generation>)

  predicate Boots(i: Instance, b: Boot, kernel: Generation, initrd: Option<Generation>) {
    && b.kernel in i.artifacts && i.artifacts[b.kernel] == kernel
    && b.initrd.Some? == initrd.Some?
    && (b.initrd.Some? ==> b.initrd.value in i.artifacts && i.artifacts[b.initrd.value] == initrd.value)
  }

  /** Disk, kernel and initrd in use are of one generation. */
  predicate Matched(i: Instance, disk: Disk) {
    Boots(i, i.boot, disk.modules, if i.boot.initrd.Some? then Some(disk.modules) else None)
  }

  predicate Upgradable(image: Image) {
    !image.hasInitrd && image.rootfs == image.manifest && image.kernel == image.manifest
  }

  predicate Extends(a: map<Path, Generation>, b: map<Path, Generation>) {
    forall p | p in a :: p in b && b[p] == a[p]
  }

  predicate Restored(i: Instance, b: Before) {
    i.disk == b.disk && i.size == b.size && Boots(i, i.boot, b.kernel, b.initrd)
  }

  /** The journal of `j`'s operation, pending or settled. */
  predicate Names(journal: Option<Journal>, j: Journal) {
    journal.Some? && journal.value.(pending := j.pending) == j
  }

  /** What a boot would use, now and after a power loss. */
  function InUse(i: Instance): (Disk, Disk, Boot, nat) {
    (i.disk, i.durDisk, i.boot, i.size)
  }

  /** The journal of an upgrade from exactly the state `b`, absent from `known`. */
  ghost predicate StartedFrom(journal: Option<Journal>, before: map<Dir, Before>, known: set<Dir>, b: Before) {
    && journal.Some? && !journal.value.finalized && journal.value.dir !in known
    && journal.value.dir in before && before[journal.value.dir] == b
  }

  function CurrentState(i: Instance): Before {
    Before(i.disk, i.disk.modules, if i.boot.initrd.Some? then Some(i.disk.modules) else None, i.size)
  }

  predicate Settled(j: Option<Journal>) {
    j.None? || !j.value.pending
  }

  predicate Pending(j: Option<Journal>) {
    j.Some? && j.value.pending
  }

  /** A journal that is not finalized can restore exactly what its upgrade started from. */
  ghost predicate Restorable(i: Instance, j: Option<Journal>, before: map<Dir, Before>) {
    j.Some? && !j.value.finalized ==>
      && j.value.dir in before && j.value.dir in i.saved
      && i.saved[j.value.dir] == before[j.value.dir].disk && j.value.size == before[j.value.dir].size
      && Boots(i, j.value.boot, before[j.value.dir].kernel, before[j.value.dir].initrd)
      && before[j.value.dir].kernel == before[j.value.dir].disk.modules
      && (before[j.value.dir].initrd.Some? ==> before[j.value.dir].initrd.value == before[j.value.dir].disk.modules)
  }

  ghost predicate Sound(i: Instance, before: map<Dir, Before>) {
    && Restorable(i, i.journal, before) && Restorable(i, i.durJournal, before)
    && (i.journal.Some? ==> i.journal.value.dir in before) && (i.durJournal.Some? ==> i.durJournal.value.dir in before)
    && (i.journal.Some? && i.journal.value.pending ==> !i.journal.value.finalized)
    && (i.durJournal.Some? && i.durJournal.value.pending ==> !i.durJournal.value.finalized)
    && (Settled(i.journal) || Settled(i.durJournal) ==> Matched(i, i.disk) && Matched(i, i.durDisk))
    && (Settled(i.journal) ==> i.disk == i.durDisk)
    && (Settled(i.durJournal) ==> i.disk == i.durDisk)
  }

  /** More saved disks and artifacts, under names that were never used. */
  lemma StagedSound(i: Instance, before: map<Dir, Before>, dir: Dir, artifacts: map<Path, Generation>)
    requires Sound(i, before) && dir !in before && Extends(i.artifacts, artifacts)
    ensures Sound(i.(saved := i.saved[dir := i.disk], artifacts := artifacts), before[dir := CurrentState(i)])
  {
  }

  /** A power loss keeps or loses each rename that was not synced. */
  function AfterCrash(i: Instance, keepJournal: bool, keepDisk: bool): Instance {
    var journal := if keepJournal then i.journal else i.durJournal;
    var disk := if keepDisk then i.disk else i.durDisk;
    i.(journal := journal, durJournal := journal, disk := disk, durDisk := disk)
  }

  lemma CrashSound(i: Instance, before: map<Dir, Before>, keepJournal: bool, keepDisk: bool)
    requires Sound(i, before)
    ensures Sound(AfterCrash(i, keepJournal, keepDisk), before)
    ensures !Pending(AfterCrash(i, keepJournal, keepDisk).journal) ==>
              Matched(AfterCrash(i, keepJournal, keepDisk), AfterCrash(i, keepJournal, keepDisk).disk)
  {
  }

  class Provisioner {
    var inst: Instance
    var running: bool
    var names: nat // stands for fresh temporary names
    ghost var before: map<Dir, Before>

    ghost predicate Valid()
      reads this
    {
      && Sound(inst, before) && (running ==> Settled(inst.journal))
      && (forall p | p in inst.artifacts :: p < names) && (forall d | d in before :: d < names)
    }

    constructor (disk: Disk, boot: Boot, size: nat, artifacts: map<Path, Generation>, names: nat)
      requires forall p | p in artifacts :: p < names
      requires boot.kernel in artifacts && artifacts[boot.kernel] == disk.modules
      requires boot.initrd.Some? ==> boot.initrd.value in artifacts && artifacts[boot.initrd.value] == disk.modules
      ensures Valid()
    {
      inst := Instance(None, None, disk, disk, boot, size, map[], artifacts);
      running, before, this.names := false, map[], names;
    }

    method SyncJournal(calm: bool) returns (o: Outcome)
      modifies this`inst
      ensures inst == old(inst) || inst == old(inst).(durJournal := inst.journal)
      ensures o.Ok? ==> inst == old(inst).(durJournal := inst.journal)
      ensures calm ==> o.Ok?
    {
      var f := Choose(calm);
      if f.Applied() {
        inst := inst.(durJournal := inst.journal);
      }
      return f.Reply();
    }

    /** Rename the new journal into place, then sync its directory. */
    method WriteUpgrade(j: Journal, calm: bool) returns (o: Outcome)
      modifies this`inst
      ensures inst == old(inst) || inst == old(inst).(journal := Some(j))
              || inst == old(inst).(journal := Some(j), durJournal := Some(j))
      ensures o.Ok? ==> inst == old(inst).(journal := Some(j), durJournal := Some(j))
      ensures calm ==> o.Ok?
    {
      var f := Choose(calm);
      if f.Applied() {
        inst := inst.(journal := Some(j));
      }
      :- f.Reply();
      o := SyncJournal(calm);
    }

    /** Clone to a private temporary, rename over the active disk, sync. */
    method ReplaceUpgradeDisk(source: Disk, calm: bool) returns (o: Outcome)
      modifies this`inst
      ensures inst == old(inst) || inst == old(inst).(disk := source)
              || inst == old(inst).(disk := source, durDisk := source)
      ensures o.Ok? ==> inst == old(inst).(disk := source, durDisk := source)
      ensures calm ==> o.Ok?
    {
      var f := Choose(calm); // clone and sync the temporary
      :- f.Reply();
      f := Choose(calm);
      if f.Applied() {
        inst := inst.(disk := source);
      }
      :- f.Reply();
      f := Choose(calm);
      if f.Applied() {
        inst := inst.(durDisk := inst.disk);
      }
      return f.Reply();
    }

    method UpdateRow(boot: Boot, size: nat, calm: bool) returns (o: Outcome)
      modifies this`inst
      ensures inst == old(inst) || inst == old(inst).(boot := boot, size := size)
      ensures o.Ok? ==> inst == old(inst).(boot := boot, size := size)
      ensures calm ==> o.Ok?
    {
      var f := Choose(calm);
      if f.Applied() {
        inst := inst.(boot := boot, size := size);
      }
      return f.Reply();
    }

    /** Nothing changes before the pending journal is durable. */
    method Announce(j: Journal, calm: bool) returns (o: Outcome)
      requires Valid() && !running && !j.finalized && j.pending && Restorable(inst, Some(j), before)
      modifies this`inst
      ensures Valid() && inst == old(inst).(journal := inst.journal, durJournal := inst.durJournal)
      ensures inst.journal == old(inst.journal) || inst.journal == Some(j)
      ensures inst.durJournal == old(inst.durJournal) || inst.durJournal == inst.journal == Some(j)
      ensures o.Ok? ==> inst.journal == inst.durJournal == Some(j)
      ensures calm ==> o.Ok?
    {
      o := WriteUpgrade(j, calm);
    }

    method Exchange(j: Journal, disk: Disk, boot: Boot, size: nat, calm: bool) returns (o: Outcome)
      requires Valid() && !running && j.pending && inst.journal == inst.durJournal == Some(j)
      modifies this`inst
      ensures Valid() && inst == old(inst).(disk := inst.disk, durDisk := inst.durDisk, boot := inst.boot, size := inst.size)
      ensures o.Ok? ==> inst.disk == inst.durDisk == disk && inst.boot == boot && inst.size == size
      ensures calm ==> o.Ok?
    {
      o := Ok;
      :- ReplaceUpgradeDisk(disk, calm);
      o := UpdateRow(boot, size, calm);
    }

    /** Put `disk`, `boot` and `size` in use under a durable pending journal, then settle
        it.  Shared tail of upgrade and rollback. */
    method SwitchPair(j: Journal, disk: Disk, boot: Boot, size: nat, calm: bool) returns (o: Outcome)
      requires Valid() && !running && !j.finalized && j.pending
      requires Restorable(inst, Some(j), before)
      requires Matched(inst.(boot := boot), disk)
      modifies this`inst
      ensures Valid() && inst.saved == old(inst.saved) && inst.artifacts == old(inst.artifacts)
      ensures inst.journal == old(inst.journal) || Names(inst.journal, j)
      ensures inst.durJournal == old(inst.durJournal) || Names(inst.durJournal, j)
      ensures !Names(inst.durJournal, j) ==> InUse(inst) == old(InUse(inst))
      ensures Names(inst.durJournal, j) && !Names(old(inst.durJournal), j) ==> Names(inst.journal, j)
      ensures o.Ok? ==> inst.disk == inst.durDisk == disk && inst.boot == boot && inst.size == size
                        && inst.journal == inst.durJournal == Some(j.(pending := false))
      ensures calm ==> o.Ok?
    {
      o := Ok;
      :- Announce(j, calm);
      :- Exchange(j, disk, boot, size, calm);
      assert Matched(inst, disk);
      o := WriteUpgrade(j.(pending := false), calm);
    }

    /** Build a private stage: copies of the old disk and boot files, the new kernel, and a
        prepared disk with the new modules and the same guest data.  The stage is complete
        before the journal names it. */
    method BuildStage(image: Image, calm: bool) returns (o: Outcome, j: Journal, newKernel: Path)
      requires Valid() && !running && Settled(inst.journal)
      modifies this`inst, this`before, this`names
      ensures Valid() && inst == old(inst).(saved := inst.saved, artifacts := inst.artifacts)
      ensures Extends(old(inst.artifacts), inst.artifacts)
      ensures forall d | d in old(before) :: d in before && before[d] == old(before[d])
      ensures o.Ok? ==>
                && j.pending && !j.finalized && Restorable(inst, Some(j), before)
                && StartedFrom(Some(j), before, old(before.Keys), CurrentState(inst))
                && newKernel in inst.artifacts && inst.artifacts[newKernel] == image.kernel
      ensures calm ==> o.Ok?
    {
      var dir, oldKernel, oldInitrd := names, names + 1, names + 2;
      newKernel := names + 3;
      names := names + 4;
      j := Journal(dir, Boot(oldKernel, if inst.boot.initrd.Some? then Some(oldInitrd) else None), inst.size, true, false);
      var artifacts := inst.artifacts[newKernel := image.kernel][oldKernel := inst.artifacts[inst.boot.kernel]];
      if inst.boot.initrd.Some? {
        artifacts := artifacts[oldInitrd := inst.artifacts[inst.boot.initrd.value]];
      }
      var f := Choose(calm);
      if f.Applied() {
        StagedSound(inst, before, dir, artifacts);
        before := before[dir := CurrentState(inst)];
        inst := inst.(saved := inst.saved[dir := inst.disk], artifacts := artifacts);
      }
      return f.Reply(), j, newKernel;
    }

    method Upgrade(image: Image, calm: bool) returns (o: Outcome)
      requires Valid()
      modifies this`inst, this`before, this`names
      ensures Valid()
      ensures forall d | d in old(before) :: d in before && before[d] == old(before[d])
      ensures o.Ok? ==>
                && Settled(inst.journal) && inst.journal.Some? && !inst.journal.value.finalized
                && inst.disk == Disk(old(inst.disk.data), image.kernel) && inst.size == old(inst.size)
                && inst.boot.initrd.None? && Matched(inst, inst.disk)
      ensures inst.journal == old(inst.journal) || StartedFrom(inst.journal, before, old(before.Keys), old(CurrentState(inst)))
      ensures inst.durJournal == old(inst.durJournal) || StartedFrom(inst.durJournal, before, old(before.Keys), old(CurrentState(inst)))
      ensures !StartedFrom(inst.durJournal, before, old(before.Keys), old(CurrentState(inst))) ==>
                InUse(inst) == old(InUse(inst))
      ensures StartedFrom(inst.durJournal, before, old(before.Keys), old(CurrentState(inst))) ==>
                StartedFrom(inst.journal, before, old(before.Keys), old(CurrentState(inst)))
      ensures Extends(old(inst.artifacts), inst.artifacts)
      ensures old(Pending(inst.journal)) || running ==> !o.Ok? && inst == old(inst)
      ensures image.hasInitrd || image.rootfs != image.manifest || image.kernel != image.manifest ==> !o.Ok? && inst == old(inst)
      ensures (&& calm && !running && old(Settled(inst.journal))
               && !image.hasInitrd && image.rootfs == image.manifest && image.kernel == image.manifest) ==> o.Ok?
    {
      if running || Pending(inst.journal) {
        return Err;
      }
      if !Upgradable(image) {
        return Err;
      }
      var j: Journal, newKernel: Path;
      o, j, newKernel := BuildStage(image, calm);
      :- o;
      o := SwitchPair(j, Disk(inst.disk.data, image.rootfs), Boot(newKernel, None), inst.size, calm);
    }

    /** Rollback restores the retained pre-upgrade disk, boot files and size, from any
        window an upgrade or an earlier rollback stopped in, and can be repeated. */
    method Rollback(calm: bool) returns (o: Outcome)
      requires Valid()
      modifies this`inst
      ensures Valid() && inst.saved == old(inst.saved)
      ensures old(inst.journal).Some? ==>
                && (inst.journal == old(inst.journal) || Names(inst.journal, old(inst.journal.value)))
                && (inst.durJournal == old(inst.durJournal) || Names(inst.durJournal, old(inst.journal.value)))
      ensures o.Ok? ==>
                && old(inst.journal).Some? && inst.journal == Some(old(inst.journal.value).(pending := false))
                && inst.journal.value.dir in before && Restored(inst, before[inst.journal.value.dir])
      ensures calm && !running && old(inst.journal.Some? && !inst.journal.value.finalized) ==> o.Ok?
    {
      if inst.journal.None? || inst.journal.value.finalized || running {
        return Err;
      }
      var j := inst.journal.value.(pending := true);
      o := SwitchPair(j, inst.saved[j.dir], j.boot, j.size, calm);
    }

    /** Finalize makes the tombstone durable before it unlinks the rollback disk, also when
        an earlier attempt renamed the tombstone but never synced it. */
    method Finalize(calm: bool) returns (o: Outcome)
      requires Valid()
      modifies this`inst
      ensures Valid() && inst.disk == old(inst.disk) && inst.boot == old(inst.boot) && inst.size == old(inst.size)
      ensures o.Ok? ==> inst.journal.Some? && inst.journal.value.finalized && inst.journal == inst.durJournal
                        && inst.journal.value.dir !in inst.saved
      ensures old(inst.journal.None? || inst.journal.value.pending) ==> !o.Ok? && inst == old(inst)
      ensures calm && old(inst.journal.Some? && !inst.journal.value.pending) ==> o.Ok?
    {
      if inst.journal.None? || inst.journal.value.pending {
        return Err;
      }
      var j := inst.journal.value;
      if !j.finalized {
        j := j.(finalized := true);
        :- WriteUpgrade(j, calm);
      } else {
        :- SyncJournal(calm);
      }
      var f := Choose(calm);
      if f.Applied() {
        inst := inst.(saved := inst.saved - {j.dir});
      }
      return f.Reply();
    }

    // ---- The guest, offline changes and power loss ----

    /** A pending journal fences every start, so a guest always runs a matched pair. */
    method Start() returns (o: Outcome)
      requires Valid()
      modifies this`running
      ensures Valid()
      ensures o.Ok? ==> running && Matched(inst, inst.disk)
      ensures o.Ok? <==> !Pending(inst.journal)
    {
      if Pending(inst.journal) {
        return Err;
      }
      running := true;
      return Ok;
    }

    method GuestWrite(data: Bytes)
      requires Valid() && running
      modifies this`inst
      ensures Valid() && inst.disk.data == data && inst.journal == old(inst.journal)
    {
      var disk := inst.disk.(data := data);
      inst := inst.(disk := disk, durDisk := disk);
    }

    method Stop()
      requires Valid()
      modifies this`running
      ensures Valid() && !running
    {
      running := false;
    }

    method Resize(size: nat) returns (o: Outcome)
      requires Valid()
      modifies this`inst
      ensures Valid()
      ensures o.Ok? <==> !running && !old(Pending(inst.journal))
      ensures inst == if o.Ok? then old(inst).(size := size) else old(inst)
    {
      if running || Pending(inst.journal) {
        return Err;
      }
      inst := inst.(size := size);
      return Ok;
    }

    method PowerLoss(keepJournal: bool, keepDisk: bool)
      requires Valid()
      modifies this
      ensures Valid() && !running && inst == AfterCrash(old(inst), keepJournal, keepDisk) && before == old(before)
    {
      CrashSound(inst, before, keepJournal, keepDisk);
      inst := AfterCrash(inst, keepJournal, keepDisk);
      running := false;
    }

    /** Any run of upgrades, rollbacks, finalizations, guests, resizes and power losses, with
        any faults. */
    method Run(steps: nat)
      requires Valid()
      modifies this
      ensures Valid()
      ensures Settled(inst.journal) ==> Matched(inst, inst.disk) && inst.disk == inst.durDisk
      ensures inst.journal.Some? && !inst.journal.value.finalized ==> inst.journal.value.dir in inst.saved
    {
      for i := 0 to steps
        invariant Valid()
      {
        var choice: nat, image: Image, data: Bytes, size: nat, keepJournal: bool, keepDisk: bool := *, *, *, *, *, *;
        match choice {
          case 0 => var _ := Upgrade(image, false);
          case 1 => var _ := Rollback(false);
          case 2 => var _ := Finalize(false);
          case 3 => var _ := Start();
          case 4 => Stop();
          case 5 => var _ := Resize(size);
          case 6 => PowerLoss(keepJournal, keepDisk);
          case _ =>
            if running {
              GuestWrite(data);
            }
        }
      }
    }

    /** An upgrade that stops anywhere, then any number of rollbacks that stop anywhere, with
        a power loss after each.  If the upgrade's journal survived, one calm rollback gives
        back the exact disk, boot generations and size; if it did not, nothing had changed. */
    method UpgradeIsReversible(image: Image, attempts: nat)
      requires Valid() && !running && Settled(inst.journal) && inst.durJournal == inst.journal
      modifies this
      ensures Valid() && Restored(inst, old(CurrentState(inst)))
    {
      ghost var start, known := CurrentState(inst), before.Keys;
      var original := inst.journal;
      var first := Upgrade(image, false);
      var keepJournal: bool, keepDisk: bool := *, *;
      PowerLoss(keepJournal, keepDisk);
      if inst.journal == original {
        return;
      }
      for i := 0 to attempts
        invariant Valid() && !running && inst.durJournal == inst.journal && StartedFrom(inst.journal, before, known, start)
      {
        var attempt := Rollback(false);
        keepJournal, keepDisk := *, *;
        PowerLoss(keepJournal, keepDisk);
      }
      var last := Rollback(true);
    }
  }
}
