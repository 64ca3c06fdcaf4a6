/** The runner moves one incarnation's guest disk to the cold store and back.  The
    journal is authoritative; any effect can fail, lose its reply or end in a crash.
    The abstract disk `truth` changes only when the guest writes. */
module ColdDisk {
  import opened Faults
  import Remote = ColdStore

  type ID = Remote.ID
  type Bytes = Remote.Bytes

  datatype Phase = Offloading | Evicting | Cold | Restoring | Hot | Purged

  /** A disk subvolume: its identity survives renames but not snapshots. */
  datatype Subvolume = Subvolume(uuid: nat, bytes: Bytes)

  datatype Record = Record(phase: Phase, remote: bool, disk: nat, candidate: Option<nat>, obj: Remote.Object)

  datatype Marker = Marker(phase: Phase, remote: bool)

  /** The files of one incarnation: journal, public marker, active disk, the three
      payload stages, their directory, and the deletion tombstone. */
  datatype Files = Files(
    journal: Option<Record>, marker: Option<Marker>, disk: Option<Subvolume>,
    send: Option<Subvolume>, receive: Option<Subvolume>, candidate: Option<Subvolume>,
    stageDir: bool, tombstone: bool)

  datatype Action = Offload(expected: nat, base: Option<Remote.Object>) | Hydrate | Purge | Delete | FenceDelete

  predicate Deletes(action: Action) {
    action.Delete? || action.FenceDelete?
  }

  datatype Status = Status(phase: Phase, remote: bool, journalPresent: bool)

  predicate NoPayload(f: Files) {
    f.send.None? && f.receive.None? && f.candidate.None?
  }

  ghost predicate DiskIs(f: Files, uuid: nat, truth: Bytes) {
    f.disk == Some(Subvolume(uuid, truth))
  }

  /** The object is durable at the store and no fence, durable or not, hides it. */
  ghost predicate Holds(ns: Remote.Namespace, obj: Remote.Object) {
    && obj.id in ns.durObjects && ns.durObjects[obj.id] == obj
    && obj.id !in ns.fences && obj.id !in ns.corrupt
  }

  /** The store held the object at some stat answered after moment `since`. */
  ghost predicate HeldSince(answers: Log<Remote.Namespace>, since: nat, obj: Remote.Object) {
    exists m | m in answers.moments :: since < m.0 && Holds(m.1, obj)
  }

  /** Where the latest guest bytes are, phase by phase. */
  ghost predicate Authority(f: Files, ns: Remote.Namespace, truth: Bytes) {
    match f.journal
    case None => NoPayload(f) && f.disk.Some? && f.disk.value.bytes == truth
    case Some(r) =>
      match r.phase
      case Hot => DiskIs(f, r.disk, truth)
      case Purged => DiskIs(f, r.disk, truth)
      case Offloading => DiskIs(f, r.disk, truth) && r.candidate.None?
      case Evicting =>
        && r.remote && r.candidate.None? && Holds(ns, r.obj) && r.obj.bytes == truth
        && (f.disk.None? || DiskIs(f, r.disk, truth))
      case Cold =>
        && r.remote && r.candidate.None? && Holds(ns, r.obj) && r.obj.bytes == truth && f.disk.None?
      case Restoring =>
        && r.remote && Holds(ns, r.obj) && r.obj.bytes == truth
        && match r.candidate
           case None => f.disk.None?
           case Some(c) => DiskIs(f, c, truth) || (f.disk.None? && f.candidate == Some(Subvolume(c, truth)))
  }

  /** A local disk that the record does not know: somebody else put it there. */
  predicate Strange(f: Files, r: Record) {
    f.disk.Some? && f.disk.value.uuid != r.disk && Some(f.disk.value.uuid) != r.candidate
  }

  /** No store name of this host is unknown to the counter that stands for fresh UUIDs. */
  ghost predicate NamesBelow(ns: Remote.Namespace, minted: nat) {
    && (forall id | id in ns.objects :: id < minted)
    && (forall id | id in ns.durObjects :: id < minted)
    && (forall id | id in ns.fences :: id < minted)
    && (forall id | id in ns.corrupt :: id < minted)
  }

  /** Every generation ever sent to the store is durably fenced, or the journal names it
      as possibly remote.  A generation not yet sent is unknown to the store. */
  ghost predicate Tracked(f: Files, ns: Remote.Namespace, gens: set<ID>, sent: set<ID>) {
    && sent <= gens
    && (forall g | g in sent :: g in ns.durFences || (f.journal.Some? && f.journal.value.remote && f.journal.value.obj.id == g))
    && (forall g | g in gens && g !in sent :: g !in ns.objects && g !in ns.durObjects)
    && (f.journal.Some? ==> f.journal.value.obj.id in gens)
    && (!f.tombstone && f.journal.Some? && f.journal.value.phase == Offloading && !f.journal.value.remote ==>
          f.journal.value.obj.id !in sent && f.journal.value.obj.id !in ns.fences)
  }

  /** A delete that may still arrive names a generation that no live incarnation needs. */
  predicate Doomed(f: Files, doomed: set<ID>, gens: set<ID>) {
    && doomed <= gens
    && (!f.tombstone && f.journal.Some? && f.journal.value.obj.id in doomed ==> f.journal.value.phase in {Hot, Purged})
  }

  ghost predicate MarkerNeedsJournal(f: Files) {
    f.marker.Some? ==> f.journal.Some?
  }

  /** Everything that holds between effects.  A deletion tombstone gives up the bytes,
      never the account of what was sent to the store. */
  ghost predicate Sound(f: Files, ns: Remote.Namespace, inflight: set<Remote.Object>,
                        gens: set<ID>, sent: set<ID>, minted: nat, truth: Bytes)
  {
    && MarkerNeedsJournal(f)
    && (!f.tombstone ==> Authority(f, ns, truth))
    && Tracked(f, ns, gens, sent)
    && (f.journal.None? ==> NoPayload(f))
    && (f.journal.Some? && f.journal.value.phase == Purged ==> !f.journal.value.remote && NoPayload(f))
    && NamesBelow(ns, minted) && (forall g | g in gens :: g < minted)
    && (forall o: Remote.Object | o in inflight :: o.id < minted && (o.id in gens ==> o.id in sent))
  }

  /** What others do to the store leaves this host sound: they neither fence nor publish
      its generations, late uploads bring only what was sent, and late deletes fence only
      what is doomed. */
  lemma StoreEvolves(f: Files, ns: Remote.Namespace, ns': Remote.Namespace, fencing: set<ID>, putting: set<ID>,
                     inflight: set<Remote.Object>, doomed: set<ID>, gens: set<ID>, sent: set<ID>, minted: nat, truth: Bytes)
    requires Sound(f, ns, inflight, gens, sent, minted, truth)
    requires Remote.Sound(ns) && Remote.Sound(ns') && Remote.Evolves(ns, ns', fencing, putting)
    requires Doomed(f, doomed, gens) && fencing * gens <= doomed && putting * gens <= sent
    requires (forall id | id in fencing :: id < minted) && (forall id | id in putting :: id < minted)
    ensures Sound(f, ns', inflight, gens, sent, minted, truth)
  {
  }

  /** The latest guest bytes always exist: on the local disk, in the recorded candidate,
      or as a readable remote object, and never only as an older copy. */
  lemma LatestBytesExist(f: Files, ns: Remote.Namespace, inflight: set<Remote.Object>,
                         gens: set<ID>, sent: set<ID>, minted: nat, truth: Bytes)
    requires Remote.Sound(ns) && Sound(f, ns, inflight, gens, sent, minted, truth) && !f.tombstone
    ensures
      || (f.disk.Some? && f.disk.value.bytes == truth)
      || (f.journal.Some? && f.candidate.Some? && f.candidate.value.bytes == truth
          && f.journal.value.candidate == Some(f.candidate.value.uuid))
      || (f.journal.Some? && f.journal.value.obj.bytes == truth
          && Remote.LookupIn(ns, f.journal.value.obj.id) == Remote.Found(f.journal.value.obj))
    ensures f.disk.Some? ==> f.disk.value.bytes == truth
  {
  }

  /** No orphan: a generation that is published and not durably fenced is the one the
      journal names as remote. */
  lemma NoOrphanedGeneration(f: Files, ns: Remote.Namespace, inflight: set<Remote.Object>,
                             gens: set<ID>, sent: set<ID>, minted: nat, truth: Bytes, g: ID)
    requires Sound(f, ns, inflight, gens, sent, minted, truth)
    requires g in gens && (g in ns.objects || g in ns.durObjects) && g !in ns.durFences
    ensures f.journal.Some? && f.journal.value.remote && f.journal.value.obj.id == g
  {
  }

  predicate Uploadable(ns: Remote.Namespace, obj: Remote.Object) {
    && obj.id !in ns.corrupt
    && (Remote.LookupIn(ns, obj.id) == Remote.Found(obj) || Remote.Admissible(ns, obj))
  }

  predicate Unobstructed(ns: Remote.Namespace, id: ID, base: Option<Remote.Object>) {
    id !in ns.corrupt && (base.Some? ==> Uploadable(ns, base.value))
  }

  datatype Event =
    | Command(action: Action) | StartEvent | StopEvent | WriteEvent(bytes: Bytes)
    | LateUploadEvent(obj: Remote.Object) | LateDeleteEvent(id: ID) | StoreEvent(request: Remote.Request)

  /** What an event shows.  `Booted` is a guest that began to run, whether or not the reply
      got through.  A command shows its outcome and every generation that had been sent when
      it returned. */
  datatype Entry = Booted(bytes: Bytes) | Halted | Wrote(bytes: Bytes) | Commanded(action: Action, outcome: Outcome, sent: set<ID>) | Other

  /** Does the guest run after this entry? */
  predicate RunsAfter(on: bool, entry: Entry) {
    entry.Booted? || (on && !entry.Halted?)
  }

  /** Does the guest run after this log? */
  predicate Runs(on: bool, log: seq<Entry>) {
    if log == [] then on else RunsAfter(Runs(on, log[..|log| - 1]), log[|log| - 1])
  }

  /** The entry is about this event.  A write counts exactly while the guest runs.  Only an
      offload that names one of the host's own generations as its base is no event. */
  predicate Shows(e: Event, entry: Entry, on: bool) {
    match e
    case Command(action) => if entry.Commanded? then entry.action == action else entry == Other && action.Offload? && action.base.Some?
    case StartEvent => entry.Booted? || entry == Other
    case StopEvent => entry == Halted
    case WriteEvent(bytes) => entry == if on then Wrote(bytes) else Other
    case _ => entry == Other
  }

  /** The log tells the events, one entry each, of a guest that ran at first if `on`. */
  ghost predicate Tells(events: seq<Event>, on: bool, log: seq<Entry>) {
    |log| <= |events| && forall i | 0 <= i < |log| :: Shows(events[i], log[i], Runs(on, log[..i]))
  }

  lemma TellsExtends(events: seq<Event>, on: bool, log: seq<Entry>, e: Entry)
    requires Tells(events, on, log) && |log| < |events| && Shows(events[|log|], e, Runs(on, log))
    ensures Tells(events, on, log + [e]) && Runs(on, log + [e]) == RunsAfter(Runs(on, log), e)
  {
    var next := log + [e];
    assert next[..|log|] == log;
    forall i | 0 <= i < |next|
      ensures Shows(events[i], next[i], Runs(on, next[..i]))
    {
      if i < |log| {
        assert next[..i] == log[..i];
      }
    }
  }

  /** An acknowledged purge or deletion. */
  predicate Acknowledged(e: Entry) {
    e.Commanded? && e.outcome.Ok? && !e.action.Offload? && !e.action.Hydrate?
  }

  /** No generation sent before an acknowledged purge or deletion can be read again. */
  ghost predicate GoneForGood(log: seq<Entry>, ns: Remote.Namespace) {
    forall i, g | 0 <= i < |log| && Acknowledged(log[i]) && g in log[i].sent :: g in ns.durFences && Remote.LookupIn(ns, g) == Remote.Deleted
  }

  lemma GoneForGoodExtends(log: seq<Entry>, e: Entry, ns: Remote.Namespace, ns': Remote.Namespace)
    requires GoneForGood(log, ns) && ns.durFences <= ns'.durFences && Remote.Sound(ns')
    requires Acknowledged(e) ==> e.sent <= ns'.durFences
    ensures GoneForGood(log + [e], ns')
  {
  }

  /** The abstract disk after a log: the last bytes the guest wrote. */
  function Latest(image: Bytes, log: seq<Entry>): Bytes {
    if log == [] then image
    else if log[|log| - 1].Wrote? then log[|log| - 1].bytes
    else Latest(image, log[..|log| - 1])
  }

  /** Every guest that started saw exactly the abstract disk. */
  ghost predicate OneDisk(image: Bytes, log: seq<Entry>) {
    forall i | 0 <= i < |log| && log[i].Booted? :: log[i].bytes == Latest(image, log[..i])
  }

  lemma OneDiskExtends(image: Bytes, log: seq<Entry>, e: Entry)
    requires OneDisk(image, log) && (e.Booted? ==> e.bytes == Latest(image, log))
    ensures OneDisk(image, log + [e])
    ensures Latest(image, log + [e]) == if e.Wrote? then e.bytes else Latest(image, log)
  {
    var next := log + [e];
    assert next[..|log|] == log;
    forall i | 0 <= i < |next| && next[i].Booted? ensures next[i].bytes == Latest(image, next[..i]) {
      if i < |log| {
        assert next[..i] == log[..i];
      }
    }
  }

  class Runner {
    const store: Remote.Server
    const enabled: bool // cold storage is configured for this destination
    var files: Files
    var running: bool
    // Uploads whose connection was lost; each may still arrive, once or more, or never.
    var inflight: set<Remote.Object>
    // Generations whose delete lost its reply; it may still arrive.
    var doomed: set<ID>
    var minted: nat
    var gens: set<ID> // every generation ID this host ever minted
    ghost var sent: set<ID>
    ghost var truth: Bytes

    ghost predicate Inv()
      reads this, store
    {
      && store.Valid()
      && Sound(files, store.ns, inflight, gens, sent, minted, truth)
      && Doomed(files, doomed, gens)
      && (running ==> files.disk.Some? && !files.tombstone && (files.journal.Some? ==> files.journal.value.phase in {Hot, Purged}))
    }

    constructor (store: Remote.Server, enabled: bool, image: Subvolume, minted: nat)
      requires store.Valid() && NamesBelow(store.ns, minted)
      ensures Inv() && this.store == store && this.enabled == enabled && truth == image.bytes && !running
      ensures files.disk == Some(image) && sent == {}
    {
      this.store, this.enabled, this.minted := store, enabled, minted;
      files := Files(None, None, Some(image), None, None, None, false, false);
      running, inflight, doomed, gens, sent, truth := false, {}, {}, {}, {}, image.bytes;
    }

    // ---- Single durable effects ----

    /** The journal first, then the public marker, each replaced atomically. */
    method WriteCold(r: Record, calm: bool) returns (o: Outcome)
      modifies this`files
      ensures files == old(files) || files == old(files).(journal := Some(r))
              || files == old(files).(journal := Some(r), marker := Some(Marker(r.phase, r.remote)))
      ensures o.Ok? ==> files == old(files).(journal := Some(r), marker := Some(Marker(r.phase, r.remote)))
      ensures calm ==> o.Ok?
    {
      var f := Choose(calm);
      if f.Applied() {
        files := files.(journal := Some(r));
      }
      :- f.Reply();
      f := Choose(calm);
      if f.Applied() {
        files := files.(marker := Some(Marker(r.phase, r.remote)));
      }
      return f.Reply();
    }

    method CleanColdStages(calm: bool) returns (o: Outcome)
      modifies this`files
      ensures files == old(files).(send := files.send, receive := files.receive, candidate := files.candidate)
      ensures files.send.None? || files.send == old(files).send
      ensures files.receive.None? || files.receive == old(files).receive
      ensures files.candidate.None? || files.candidate == old(files).candidate
      ensures o.Ok? ==> NoPayload(files)
      ensures calm ==> o.Ok?
    {
      var f := Choose(calm);
      if f.Applied() {
        files := files.(send := None);
      }
      :- f.Reply();
      f := Choose(calm);
      if f.Applied() {
        files := files.(receive := None);
      }
      :- f.Reply();
      f := Choose(calm);
      if f.Applied() {
        files := files.(candidate := None);
      }
      return f.Reply();
    }

    // ---- recoverLocalCold ----

    /** Is `r` this journal's record, ahead of it only where recovery allows? */
    ghost predicate AheadOfJournal(r: Record)
      reads this`files
    {
      && files.journal.Some?
      && r.disk == files.journal.value.disk && r.candidate == files.journal.value.candidate
      && r.obj.id == files.journal.value.obj.id && (files.journal.value.remote ==> r.remote)
    }

    /** Publish local authority before cleaning any stage: a hot generation never falls
        back to the remote copy.  `r` is the record in memory, which may be ahead of the
        journal only in phase, object metadata and a set `remote` flag. */
    method RecoverLocalCold(r0: Record, calm: bool) returns (o: Outcome, r: Record)
      requires Strange(files, r0) || (Inv() && !files.tombstone && !running && AheadOfJournal(r0))
      modifies this`files
      ensures old(Strange(files, r0)) ==> o == Err && r == r0 && files == old(files)
      ensures !old(Strange(files, r0)) ==> Inv() && !files.tombstone && files.disk == old(files.disk) && files.journal.Some?
      ensures o.Ok? ==> files.disk.Some? && files.journal == Some(r) && r.phase == Hot && NoPayload(files)
      ensures r.obj.id == r0.obj.id && r.remote == r0.remote && (r == r0 || r == r0.(phase := Hot, disk := r.disk))
      ensures files.disk.None? ==> !o.Ok? && files == old(files) && r == r0
      ensures calm && files.disk.Some? && !old(Strange(files, r0)) ==> o.Ok?
    {
      r := r0;
      if files.disk.None? {
        return Err, r;
      }
      var id := files.disk.value.uuid;
      if id != r.disk && r.candidate != Some(id) {
        return Err, r;
      }
      r := r.(disk := id, phase := Hot);
      :- WriteCold(r, calm);
      o := CleanColdStages(calm);
    }

    // ---- The network and the other users of the store ----

    /** What the store keeps for this host, whoever uses it: fences, and every own
        generation that is held and not doomed. */
    ghost predicate Moved(a: Remote.Namespace, b: Remote.Namespace)
      reads this`gens, this`doomed
    {
      && a.durFences <= b.durFences && b.corrupt == a.corrupt
      && (forall g | g in gens && g !in doomed && g in a.durObjects && g !in a.fences ::
            g in b.durObjects && b.durObjects[g] == a.durObjects[g] && g !in b.fences)
    }

    /** Nobody else names a generation of this host. */
    predicate Foreign(request: Remote.Request)
      reads this`gens
    {
      !request.RotEvent? && (Remote.Fencing(request) + Remote.Putting(request)) !! gens
    }

    method Deliver(obj: Remote.Object, calm: bool) returns (o: Outcome)
      requires Inv() && obj.id < minted && (obj.id in gens ==> obj.id in sent)
      modifies store
      ensures Inv() && Moved(old(store.ns), store.ns) && store.answers == old(store.answers)
      ensures obj.id in old(store.ns.durFences) ==> store.ns.objects == old(store.ns.objects)
      ensures o.Ok? ==> obj.id in store.ns.durObjects && store.ns.durObjects[obj.id] == obj && obj.id !in store.ns.fences
      ensures calm && Remote.Admissible(old(store.ns), obj) ==>
                o.Ok? && Remote.LookupIn(store.ns, obj.id) == if obj.id in store.ns.corrupt then Remote.Invalid else Remote.Found(obj)
    {
      ghost var before := store.ns;
      o := store.Put(obj, calm, calm);
      StoreEvolves(files, before, store.ns, {}, {obj.id}, inflight, doomed, gens, sent, minted, truth);
    }

    /** An upload that lost its connection arrives after all. */
    method LateUpload(obj: Remote.Object)
      requires Inv() && obj in inflight
      modifies store
      ensures Inv() && Moved(old(store.ns), store.ns) && store.answers == old(store.answers)
      ensures obj.id in old(store.ns.durFences) ==> store.ns.objects == old(store.ns.objects)
    {
      var o := Deliver(obj, false);
    }

    /** A delete that lost its reply arrives after all. */
    method LateDelete(id: ID)
      requires Inv() && id in doomed
      modifies store
      ensures Inv() && Moved(old(store.ns), store.ns) && store.answers == old(store.answers)
    {
      ghost var before := store.ns;
      var o := store.Delete(id, false);
      StoreEvolves(files, before, store.ns, {id}, {}, inflight, doomed, gens, sent, minted, truth);
    }

    /** Other clients, the administrator and machine crashes act on the store; none of
        them names a generation of this host. */
    method OthersUseStore(request: Remote.Request)
      requires Inv() && Foreign(request)
      modifies store, this`minted
      ensures Inv() && minted >= old(minted) && Moved(old(store.ns), store.ns) && Grows(old(store.answers), store.answers)
    {
      ghost var before := store.ns;
      var ids := Remote.Fencing(request) + Remote.Putting(request);
      while ids != {}
        invariant minted >= old(minted) && Inv() && store.ns == before && store.answers == old(store.answers)
        invariant forall id | id in Remote.Fencing(request) && id !in ids :: id < minted
        invariant forall id | id in Remote.Putting(request) && id !in ids :: id < minted
        decreases ids
      {
        var id :| id in ids;
        minted := if id < minted then minted else id + 1;
        ids := ids - {id};
      }
      var reply := store.Serve(request, false);
      StoreEvolves(files, before, store.ns, Remote.Fencing(request), Remote.Putting(request),
                   inflight, doomed, gens, sent, minted, truth);
    }

    /** Anything else that reaches the store between two steps of this host: late uploads
        and deletes, other clients, the administrator and machine crashes, any number of them. */
    method Elsewhere(calm: bool)
      requires Inv()
      modifies this`minted, store
      ensures Inv() && minted >= old(minted) && Moved(old(store.ns), store.ns) && Grows(old(store.answers), store.answers)
      ensures calm ==> store.ns == old(store.ns)
    {
      var k: nat := *;
      if calm {
        k := 0;
      }
      while k > 0
        invariant Inv() && minted >= old(minted) && Moved(old(store.ns), store.ns) && Grows(old(store.answers), store.answers)
        invariant calm ==> store.ns == old(store.ns) && k == 0
      {
        var obj: Remote.Object, id: ID, request: Remote.Request := *, *, *;
        if obj in inflight {
          LateUpload(obj);
        } else if id in doomed {
          LateDelete(id);
        } else if Foreign(request) {
          OthersUseStore(request);
        }
        k := k - 1;
      }
    }

    // ---- The cold-store client ----

    /** Without a reply the delete may still arrive later. */
    method RemoteDelete(id: ID, calm: bool) returns (o: Outcome)
      requires Inv() && files.journal.Some? && files.journal.value.remote && files.journal.value.obj.id == id
      requires files.tombstone || files.journal.value.phase == Hot
      modifies this`minted, this`doomed, store
      ensures Inv() && minted >= old(minted)
      ensures old(store.ns.durFences) <= store.ns.durFences && store.ns.corrupt == old(store.ns.corrupt)
      ensures o.Ok? ==> id in store.ns.durFences
      ensures calm && !Remote.Blocked(old(store.ns), id) ==> o.Ok?
    {
      Elsewhere(calm);
      var f := Choose(calm);
      o := f.Reply();
      if f.Applied() {
        var done := store.Delete(id, calm);
        o := if f == Clean then done else o;
      }
      if !o.Ok? {
        doomed := doomed + {id};
      }
      Elsewhere(calm);
    }

    method RemoteStat(id: ID, calm: bool) returns (o: Outcome, found: Remote.Lookup)
      requires Inv()
      modifies this`minted, store
      ensures Inv() && minted >= old(minted) && Grows(old(store.answers), store.answers)
      ensures old(store.ns.durFences) <= store.ns.durFences && store.ns.corrupt == old(store.ns.corrupt)
      ensures o.Ok? && found.Found? ==> found.obj.id == id && HeldSince(store.answers, old(store.answers).now, found.obj)
      ensures o.Ok? && found.Found? && (calm || (id in gens && id !in doomed)) ==> Holds(store.ns, found.obj)
      ensures calm ==> o.Ok? && Remote.Recovery(old(store.ns), store.ns) && found == Remote.LookupIn(old(store.ns), id)
    {
      Elsewhere(calm);
      ghost var before := store.ns;
      o, found := store.Stat(id, calm);
      Remote.RecoverySound(before, store.ns);
      StoreEvolves(files, before, store.ns, {}, {}, inflight, doomed, gens, sent, minted, truth);
      ghost var answer := (store.answers.now, store.ns);
      assert o.Ok? && found.Found? ==> answer in store.answers.moments && Holds(answer.1, found.obj);
      Elsewhere(calm);
    }

    /** Stream to the server.  Without a reply the upload may still arrive later. */
    method RemotePut(obj: Remote.Object, calm: bool) returns (o: Outcome)
      requires Inv() && obj.id < minted && (obj.id in gens ==> obj.id in sent)
      modifies this`inflight, this`minted, store
      ensures Inv() && minted >= old(minted) && Grows(old(store.answers), store.answers)
      ensures old(store.ns.durFences) <= store.ns.durFences && store.ns.corrupt == old(store.ns.corrupt)
      ensures o.Ok? && obj.id in gens && obj.id !in doomed ==> obj.id in store.ns.durObjects && store.ns.durObjects[obj.id] == obj
      ensures calm && Remote.Admissible(old(store.ns), obj) ==>
                o.Ok? && Remote.LookupIn(store.ns, obj.id) == if obj.id in store.ns.corrupt then Remote.Invalid else Remote.Found(obj)
    {
      Elsewhere(calm);
      var f := Choose(calm);
      o := f.Reply();
      if f.Applied() {
        var done := Deliver(obj, calm);
        o := if f == Clean then done else o;
      }
      if !o.Ok? {
        inflight := inflight + {obj};
      }
      Elsewhere(calm);
    }

    /** The exact object, byte for byte, or an error. */
    method RemoteGet(obj: Remote.Object, calm: bool) returns (o: Outcome, bytes: Bytes)
      requires Inv()
      modifies this`minted, store
      ensures Inv() && minted >= old(minted)
      ensures old(store.ns.durFences) <= store.ns.durFences && store.ns.corrupt == old(store.ns.corrupt)
      ensures o.Ok? ==> bytes == obj.bytes
      ensures calm && Holds(old(store.ns), obj) ==> o.Ok?
    {
      bytes := [];
      Elsewhere(calm);
      ghost var before := store.ns;
      var found: Remote.Object;
      o, found := store.Get(obj.id, calm);
      Remote.RecoverySound(before, store.ns);
      StoreEvolves(files, before, store.ns, {}, {}, inflight, doomed, gens, sent, minted, truth);
      if o.Ok? && found != obj {
        o := Err;
      }
      bytes := found.bytes;
      Elsewhere(calm);
    }

    method Send(obj: Remote.Object, calm: bool) returns (o: Outcome)
      requires Inv() && obj.id < minted && (obj.id in gens ==> obj.id in sent && obj.id !in doomed)
      modifies this`inflight, this`minted, store
      ensures Inv() && minted >= old(minted) && Grows(old(store.answers), store.answers)
      ensures old(store.ns.durFences) <= store.ns.durFences && store.ns.corrupt == old(store.ns.corrupt)
      ensures o.Ok? ==> HeldSince(store.answers, old(store.answers).now, obj) && (calm || obj.id in gens ==> Holds(store.ns, obj))
      ensures calm && Remote.Admissible(old(store.ns), obj) && obj.id !in old(store.ns).corrupt ==> o.Ok?
    {
      o := Ok;
      :- RemotePut(obj, calm);
      var found: Remote.Lookup;
      o, found := RemoteStat(obj.id, calm);
      if o.Ok? && found != Remote.Found(obj) {
        o := Err;
      }
    }

    /** The parent must be at the store, and the local copy must be exactly it. */
    method CheckParent(obj: Remote.Object, calm: bool) returns (o: Outcome)
      requires Inv()
      modifies this`minted, store
      ensures Inv() && minted >= old(minted) && Grows(old(store.answers), store.answers)
      ensures old(store.ns.durFences) <= store.ns.durFences && store.ns.corrupt == old(store.ns.corrupt)
      ensures o.Ok? && obj.parent.Some? ==> exists p: Remote.Object :: p.id == obj.parent.value && HeldSince(store.answers, old(store.answers).now, p)
      ensures calm ==> Remote.Recovery(old(store.ns), store.ns) || store.ns == old(store.ns)
      ensures calm && (obj.parent.Some? ==> Remote.LookupIn(old(store.ns), obj.parent.value).Found?) ==> o.Ok?
    {
      o := Ok;
      if obj.parent.Some? {
        var parent: Remote.Lookup;
        parent :- RemoteStat(obj.parent.value, calm);
        if !parent.Found? {
          return Err;
        }
        var f := Choose(calm);
        o := f.Reply();
      }
    }

    method Upload(obj: Remote.Object, calm: bool) returns (o: Outcome)
      requires Inv() && obj.id < minted && (obj.id in gens ==> obj.id in sent && obj.id !in doomed)
      modifies this`inflight, this`minted, store
      ensures Inv() && minted >= old(minted) && Grows(old(store.answers), store.answers)
      ensures old(store.ns.durFences) <= store.ns.durFences && store.ns.corrupt == old(store.ns.corrupt)
      ensures o.Ok? ==> HeldSince(store.answers, old(store.answers).now, obj) && (calm || obj.id in gens ==> Holds(store.ns, obj))
      ensures o.Ok? && obj.parent.Some? ==> exists p: Remote.Object :: p.id == obj.parent.value && HeldSince(store.answers, old(store.answers).now, p)
      ensures calm && Remote.Admissible(old(store.ns), obj) && obj.id !in old(store.ns).corrupt ==> o.Ok?
    {
      o := Ok;
      :- CheckParent(obj, calm);
      o := Send(obj, calm);
    }

    /** Does the store have exactly this object already?  A stat that fails proves nothing. */
    method AlreadyThere(obj: Remote.Object, calm: bool, calmCheck: bool) returns (o: Outcome, there: bool)
      requires Inv()
      modifies this`minted, store
      ensures Inv() && minted >= old(minted) && Grows(old(store.answers), store.answers)
      ensures old(store.ns.durFences) <= store.ns.durFences && store.ns.corrupt == old(store.ns.corrupt)
      ensures o.Ok? && there ==> HeldSince(store.answers, old(store.answers).now, obj)
      ensures o.Ok? && there && (calm || (obj.id in gens && obj.id !in doomed)) ==> Holds(store.ns, obj)
      ensures calmCheck && o.Err? ==> there && exists other: Remote.Object :: other.id == obj.id && other != obj && HeldSince(store.answers, old(store.answers).now, other)
      ensures calm ==> Remote.Recovery(old(store.ns), store.ns)
      ensures calm && calmCheck && Uploadable(old(store.ns), obj) ==> o.Ok? && there == (Remote.LookupIn(old(store.ns), obj.id) == Remote.Found(obj))
    {
      there := false;
      var f := Choose(calmCheck); // identity of the snapshot
      :- f.Reply();
      var found: Remote.Lookup;
      o, found := RemoteStat(obj.id, calm);
      if o.Err? {
        return Ok, false;
      }
      there := found.Found?;
      if o.Ok? && there && found.obj != obj {
        o := Err;
      }
    }

    /** Upload one exact object: skip it when it is already there, refuse it when something
        else is, and believe only a final exact stat.  Others may remove a shared base as soon as
        the last stat was answered, but no generation of this host. */
    method ClientPut(obj: Remote.Object, calm: bool) returns (o: Outcome)
      requires Inv() && obj.id < minted && obj.id !in doomed
      requires obj.id in gens ==> files.journal.Some? && files.journal.value.remote && files.journal.value.obj.id == obj.id
      modifies this`inflight, this`sent, this`minted, store
      ensures Inv() && minted >= old(minted) && sent == old(sent) + (if obj.id in gens then {obj.id} else {})
      ensures old(store.ns.durFences) <= store.ns.durFences && store.ns.corrupt == old(store.ns.corrupt)
      ensures Grows(old(store.answers), store.answers)
      ensures o.Ok? ==> HeldSince(store.answers, old(store.answers).now, obj) && (calm || obj.id in gens ==> Holds(store.ns, obj))
      ensures calm && Uploadable(old(store.ns), obj) ==> o.Ok?
    {
      if obj.id in gens {
        sent := sent + {obj.id};
      }
      var there;
      o, there := AlreadyThere(obj, calm, calm);
      if !o.Ok? || there {
        return;
      }
      o := Upload(obj, calm);
    }

    // ---- purgeCold and finishColdPurge ----

    /** The purged phase is durable, so either unlink can be retried; the marker goes
        before the journal. */
    method FinishColdPurge(calm: bool) returns (o: Outcome)
      requires Inv() && !running && files.journal.Some? && files.journal.value.phase == Purged && NoPayload(files)
      requires forall g | g in sent :: g in store.ns.durFences
      modifies this`files
      ensures Inv() && files.disk == old(files.disk) && files.tombstone == old(files.tombstone) && NoPayload(files)
      ensures files.journal.None? || files.journal == old(files.journal)
      ensures o.Ok? ==> files.journal.None? && files.marker.None? && !files.stageDir
      ensures calm ==> o.Ok?
    {
      var f := Choose(calm);
      if f.Applied() {
        files := files.(stageDir := false);
      }
      :- f.Reply();
      f := Choose(calm);
      if f.Applied() {
        files := files.(marker := None);
      }
      :- f.Reply();
      f := Choose(calm);
      if f.Applied() {
        files := files.(journal := None);
      }
      return f.Reply();
    }

    /** With nothing left at the store, the local state goes. */
    method PurgeLocal(r0: Record, calm: bool) returns (o: Outcome, r: Record)
      requires Inv() && !running && files.journal == Some(r0) && r0.phase != Purged && !r0.remote
      requires files.tombstone || r0.phase == Hot
      modifies this`files
      ensures Inv() && files.disk == old(files.disk) && files.tombstone == old(files.tombstone)
      ensures o.Ok? ==> files.journal.None? && NoPayload(files) && forall g | g in sent :: g in store.ns.durFences
      ensures calm ==> o.Ok?
    {
      r := r0;
      :- CleanColdStages(calm);
      r := r.(phase := Purged);
      :- WriteCold(r, calm);
      o := FinishColdPurge(calm);
    }

    /** Delete the remote generation, settle the stages, retire the journal.  Local bytes
        are authoritative here, or the incarnation is being deleted. */
    method PurgeCold(r0: Record, calm: bool) returns (o: Outcome, r: Record)
      requires Inv() && !running && files.journal == Some(r0) && r0.phase != Purged
      requires files.tombstone || r0.phase == Hot
      modifies this`files, this`minted, this`doomed, store
      ensures minted >= old(minted) && old(store.ns.durFences) <= store.ns.durFences
      ensures Inv() && files.disk == old(files.disk) && files.tombstone == old(files.tombstone)
      ensures o.Ok? ==> files.journal.None? && NoPayload(files) && forall g | g in sent :: g in store.ns.durFences
      ensures store.ns.corrupt == old(store.ns.corrupt)
      ensures r0.remote && !enabled ==> o == Err && files == old(files) && store.ns == old(store.ns)
      ensures calm && enabled && !Remote.Blocked(old(store.ns), r0.obj.id) ==> o.Ok?
    {
      r := r0;
      if r.remote {
        if !enabled {
          return Err, r;
        }
        :- RemoteDelete(r.obj.id, calm);
        r := r.(remote := false);
        :- WriteCold(r, calm);
      }
      o, r := PurgeLocal(r, calm);
    }

    // ---- hydrateCold ----

    /** The fetched disk becomes the recorded candidate. */
    method KeepCandidate(r0: Record, fetched: Bytes, calm: bool) returns (o: Outcome, r: Record)
      requires Inv() && !files.tombstone && !running && files.journal == Some(r0) && files.disk.None?
      requires r0.candidate.None? && r0.phase == Restoring && fetched == r0.obj.bytes
      modifies this`files
      ensures Inv() && !files.tombstone && files.disk.None? && files.journal.Some?
      ensures o.Ok? ==> files.journal == Some(r) && r.phase == Restoring && r.remote && r.candidate.Some?
                        && files.candidate.Some? && Some(files.candidate.value.uuid) == r.candidate
      ensures r.remote
      ensures calm ==> o.Ok?
    {
      r := r0;
      var uuid: nat, snapshot: nat := *, *;
      files := files.(receive := Some(Subvolume(uuid, fetched)));
      var f := Choose(calm);
      if f.Applied() {
        files := files.(candidate := Some(Subvolume(snapshot, files.receive.value.bytes)));
      }
      :- f.Reply();
      r := r.(candidate := Some(snapshot));
      o := WriteCold(r, calm);
    }

    /** Fetch the generation into a private stage and record it as the restore candidate. */
    method Restore(r0: Record, calm: bool) returns (o: Outcome, r: Record)
      requires Inv() && !files.tombstone && !running && files.journal == Some(r0) && files.disk.None?
      requires r0.candidate.None? && r0.phase in {Evicting, Cold, Restoring}
      modifies this`files, this`minted, store
      ensures minted >= old(minted) && old(store.ns.durFences) <= store.ns.durFences
      ensures Inv() && !files.tombstone && files.disk.None? && files.journal.Some?
      ensures o.Ok? ==> files.journal == Some(r) && r.phase == Restoring && r.remote && r.candidate.Some?
                        && files.candidate.Some? && Some(files.candidate.value.uuid) == r.candidate
      ensures r.remote
      ensures calm ==> o.Ok?
    {
      r := r0.(phase := Restoring);
      var f := Choose(calm); // free space
      :- f.Reply();
      :- WriteCold(r, calm);
      :- CleanColdStages(calm);
      var fetched :- RemoteGet(r.obj, calm);
      o, r := KeepCandidate(r, fetched, calm);
    }

    /** The recorded candidate becomes the disk. */
    method Install(r: Record, calm: bool) returns (o: Outcome)
      requires Inv() && !files.tombstone && !running && files.journal == Some(r) && r.phase != Purged && r.phase != Hot
      requires files.disk.None? && files.candidate.Some? && Some(files.candidate.value.uuid) == r.candidate
      modifies this`files
      ensures Inv() && (files == old(files) || files == old(files).(disk := old(files).candidate, candidate := None))
      ensures o.Ok? ==> files.disk.Some?
      ensures calm ==> o.Ok?
    {
      var f := Choose(calm);
      if f.Applied() {
        files := files.(disk := files.candidate, candidate := None);
      }
      return f.Reply();
    }

    /** Bring the disk back, from whichever window the last attempt stopped in. */
    method HydrateCold(r0: Record, calm: bool) returns (o: Outcome, r: Record)
      requires Inv() && !files.tombstone && !running && files.journal == Some(r0) && r0.phase != Purged
      modifies this`files, this`minted, store
      ensures minted >= old(minted) && old(store.ns.durFences) <= store.ns.durFences
      ensures Inv() && !files.tombstone && files.journal.Some?
      ensures o.Ok? ==> files.disk.Some? && files.journal == Some(r) && r.phase == Hot && NoPayload(files)
      ensures !enabled && old(files.disk.None?) ==> o == Err && files == old(files) && store.ns == old(store.ns)
      ensures calm && (enabled || old(files.disk.Some?)) ==> o.Ok?
    {
      r := r0;
      if files.disk.Some? {
        if r.phase == Cold {
          return Err, r;
        }
        o, r := RecoverLocalCold(r, calm);
        return;
      }
      if r.phase == Hot || r.phase == Offloading || !r.remote {
        return Err, r;
      }
      if !enabled {
        return Err, r;
      }
      if r.candidate.Some? {
        if files.candidate.None? || Some(files.candidate.value.uuid) != r.candidate {
          return Err, r;
        }
      } else {
        o, r := Restore(r, calm);
        if !o.Ok? {
          return;
        }
      }
      :- Install(r, calm);
      o, r := RecoverLocalCold(r, calm);
    }

    // ---- offloadCold ----

    method Snapshot(r: Record, calm: bool) returns (o: Outcome)
      requires Inv() && !files.tombstone && files.journal == Some(r) && r.phase == Offloading
      modifies this`files
      ensures Inv() && files == old(files).(send := files.send)
      ensures o.Ok? ==> files.send.Some? && files.send.value.bytes == truth
      ensures calm ==> o.Ok?
    {
      var f := Choose(calm);
      if f.Applied() {
        files := files.(send := None);
      }
      :- f.Reply();
      var uuid: nat := *;
      f := Choose(calm);
      if f.Applied() {
        files := files.(send := Some(Subvolume(uuid, files.disk.value.bytes)));
      }
      :- f.Reply();
      f := Choose(calm); // identity, read-only flag and digest of the snapshot
      return f.Reply();
    }

    /** Give up the local disk once the store holds its exact bytes. */
    method Evict(r0: Record, calm: bool) returns (o: Outcome, r: Record)
      requires Inv() && !files.tombstone && !running && files.journal == Some(r0) && r0.phase == Offloading
      requires r0.remote && Holds(store.ns, r0.obj) && r0.obj.bytes == truth
      modifies this`files
      ensures Inv() && !files.tombstone && files.journal.Some?
      ensures r == r0.(phase := r.phase) && files.journal == Some(r0.(phase := files.journal.value.phase))
      ensures o.Ok? ==> files.journal == Some(r) && r.phase == Cold && files.disk.None? && files.send.None?
      ensures calm ==> o.Ok?
    {
      r := r0.(phase := Evicting);
      :- WriteCold(r, calm);
      var f := Choose(calm);
      if f.Applied() {
        files := files.(disk := None);
      }
      :- f.Reply();
      f := Choose(calm);
      if f.Applied() {
        files := files.(send := None);
      }
      :- f.Reply();
      r := r.(phase := Cold);
      o := WriteCold(r, calm);
    }

    /** The object is tracked before the remote call: a lost reply is no evidence of absence. */
    method Publish(r0: Record, calm: bool) returns (o: Outcome, r: Record)
      requires Inv() && !files.tombstone && !running && AheadOfJournal(r0) && !r0.remote
      requires files.journal.value == r0.(obj := files.journal.value.obj) && r0.phase == Offloading && r0.obj.bytes == truth
      modifies this`files, this`inflight, this`sent, this`minted, store
      ensures minted >= old(minted) && old(store.ns.durFences) <= store.ns.durFences
      ensures Inv() && !files.tombstone && AheadOfJournal(r) && Grows(old(store.answers), store.answers)
      ensures o.Ok? ==> files.journal == Some(r) && r.phase == Cold && files.disk.None? && files.send.None?
      ensures o.Ok? ==> r.obj == r0.obj
      ensures calm && Uploadable(old(store.ns), r0.obj) ==> o.Ok?
    {
      r := r0.(remote := true);
      :- WriteCold(r, calm);
      :- ClientPut(r.obj, calm);
      o, r := Evict(r, calm);
    }

    method OffloadCold(r0: Record, base: Option<Remote.Object>, calm: bool) returns (o: Outcome, r: Record)
      requires Inv() && !files.tombstone && !running && files.journal == Some(r0) && r0.phase == Offloading
      requires base.Some? ==> base.value.id < minted && base.value.id !in gens
      modifies this`files, this`inflight, this`sent, this`minted, store
      ensures minted >= old(minted) && old(store.ns.durFences) <= store.ns.durFences
      ensures Inv() && !files.tombstone && AheadOfJournal(r)
      ensures o.Ok? ==> files.journal == Some(r) && r.phase == Cold && files.disk.None? && files.send.None?
      ensures o.Ok? && base.Some? ==> HeldSince(store.answers, old(store.answers).now, base.value)
      ensures !enabled || r0.remote ==> o == Err && r == r0 && files == old(files) && store.ns == old(store.ns) && sent == old(sent)
      ensures o.Ok? ==> r.obj.parent == if base.Some? then Some(base.value.id) else None
      ensures calm && enabled && !r0.remote && Unobstructed(old(store.ns), r0.obj.id, base) ==> o.Ok?
    {
      r := r0;
      if !enabled {
        return Err, r;
      }
      if files.disk.None? || files.disk.value.uuid != r.disk {
        return Err, r;
      }
      if r.remote {
        return Err, r;
      }
      :- Snapshot(r, calm);
      r := r.(obj := Remote.Object(r.obj.id, None, files.send.value.bytes));
      if base.Some? {
        :- ClientPut(base.value, calm);
        r := r.(obj := r.obj.(parent := Some(base.value.id)));
      }
      o, r := Publish(r, calm);
    }

    // ---- coldDiskLocked ----

    /** An earlier generation is settled before a new one may start. */
    method RetireGeneration(r: Record, offload: bool, calm: bool) returns (o: Outcome)
      requires Inv() && !running && files.journal == Some(r)
      requires (r.phase == Hot && offload && !files.tombstone) || r.phase == Purged
      modifies this`files, this`minted, this`doomed, store
      ensures minted >= old(minted) && old(store.ns.durFences) <= store.ns.durFences
      ensures Inv() && files.tombstone == old(files.tombstone)
      ensures !files.tombstone ==> files.disk == old(files.disk)
      ensures o.Ok? ==> files.journal.None? && NoPayload(files) && forall g | g in sent :: g in store.ns.durFences
      ensures store.ns.corrupt == old(store.ns.corrupt)
      ensures calm && r.phase == Purged ==> o.Ok?
      ensures calm && enabled && !Remote.Blocked(old(store.ns), r.obj.id) ==> o.Ok?
    {
      if r.phase == Purged {
        if !files.tombstone && (files.disk.None? || files.disk.value.uuid != r.disk) {
          return Err;
        }
        o := FinishColdPurge(calm);
      } else {
        var hot: Record, purged: Record;
        o, hot := RecoverLocalCold(r, calm);
        :- o;
        o, purged := PurgeCold(hot, calm);
      }
    }

    /** A generation starts with a fresh object ID and the journal in phase offloading. */
    method BeginGeneration(calm: bool) returns (o: Outcome, r: Record)
      requires Inv() && !files.tombstone && !running && files.journal.None? && files.disk.Some?
      modifies this`files, this`minted, this`gens
      ensures Inv() && !files.tombstone && minted == old(minted) + 1 && gens == old(gens) + {old(minted)}
      ensures o.Ok? ==> files.journal == Some(r)
      ensures r.phase == Offloading && !r.remote && r.obj.id == old(minted)
      ensures files.journal.Some? ==> files.journal == Some(r)
      ensures calm ==> o.Ok?
    {
      r := Record(Offloading, false, files.disk.value.uuid, None, Remote.Object(minted, None, []));
      gens := gens + {minted};
      minted := minted + 1;
      o := WriteCold(r, calm);
    }

    method MakeStageDir(calm: bool) returns (o: Outcome)
      modifies this`files
      ensures files == old(files) || files == old(files).(stageDir := true)
      ensures o.Ok? ==> files.stageDir
      ensures calm ==> o.Ok?
    {
      var f := Choose(calm);
      if f.Applied() {
        files := files.(stageDir := true);
      }
      return f.Reply();
    }

    /** coldStartFence: only a settled incarnation with its recorded disk may start. */
    predicate StartFenced()
      reads this`files
    {
      || files.tombstone
      || files.disk.None?
      || (files.journal.Some? && files.journal.value.phase !in {Hot, Purged})
      || (files.journal.Some? && files.journal.value.disk != files.disk.value.uuid)
    }

    /** The local disk is the authority again, nothing is staged and the guest may start. */
    predicate LocallyHot()
      reads this`files
    {
      files.journal.Some? && files.journal.value.phase == Hot && NoPayload(files) && !StartFenced()
    }

    /** Admission: what each action refuses before it changes anything. */
    predicate Refused(action: Action)
      reads this
    {
      || (action.FenceDelete? && files.journal.Some?)
      || (!Deletes(action) && files.tombstone)
      || running
    }

    /** Deletion intent is durable before anything else happens. */
    method Admit(action: Action, calm: bool) returns (o: Outcome)
      requires Inv() && !Refused(action)
      modifies this`files
      ensures Inv() && files == old(files).(tombstone := files.tombstone, stageDir := files.stageDir)
      ensures files.tombstone == old(files.tombstone) || Deletes(action)
      ensures o.Ok? && Deletes(action) ==> files.tombstone
      ensures calm ==> o.Ok?
    {
      if Deletes(action) {
        var f := Choose(calm);
        if f.Applied() {
          files := files.(tombstone := true);
        }
        :- f.Reply();
      }
      o := MakeStageDir(calm);
    }

    /** A first offload of the disk the control plane observed. */
    predicate Startable(action: Action)
      reads this`files
    {
      && action.Offload? && enabled && files.journal.None?
      && files.disk.Some? && files.disk.value.uuid == action.expected
    }

    /** An offload that gets as far as its upload, unless a fault stops it before: a first one,
        or one that finds the journal of an earlier attempt. */
    predicate Uploads(action: Action)
      reads this
    {
      && action.Offload? && !Refused(action)
      && (Startable(action) || (files.journal.Some? && files.journal.value.phase == Offloading))
    }

    /** Settle an earlier generation, then name the record to work on.  `r.None?` after
        success means the disk is plainly hot and there is nothing to do. */
    method Settle(action: Action, calm: bool) returns (o: Outcome, r: Option<Record>)
      requires Inv() && !running && files.tombstone == Deletes(action)
      modifies this`files, this`minted, this`gens, this`doomed, store
      ensures old(store.ns.durFences) <= store.ns.durFences
      ensures Inv() && files.tombstone == old(files.tombstone) && minted >= old(minted)
      ensures forall g | g in gens :: g in old(gens) || g >= old(minted)
      ensures o.Ok? ==> files.journal == r
      ensures o.Ok? && r.Some? ==> r.value.phase != Purged && (action.Offload? ==> r.value.phase != Hot)
      ensures o.Ok? && r.None? ==> !action.Offload? && NoPayload(files) && !files.stageDir
                                   && forall g | g in sent :: g in store.ns.durFences
      ensures !action.Offload? && !files.tombstone ==> files.disk == old(files.disk)
      ensures calm && !action.Offload? ==> o.Ok?
      ensures calm && old(files.journal).Some? && old(files.journal).value.phase in {Offloading, Cold} ==>
                o.Ok? && r == old(files.journal) && store.ns == old(store.ns)
      ensures calm && old(Startable(action)) ==>
                o.Ok? && r.Some? && r.value.phase == Offloading && !r.value.remote && r.value.obj.id == old(minted)
                && store.ns == old(store.ns)
    {
      r := files.journal;
      if action.Offload? && (r.None? || r.value.phase in {Hot, Purged})
         && (files.disk.None? || files.disk.value.uuid != action.expected)
      {
        return Err, r;
      }
      if r.Some? && (r.value.phase == Purged || (action.Offload? && r.value.phase == Hot)) {
        :- RetireGeneration(r.value, action.Offload?, calm);
        r := None;
      }
      if r.None? {
        if files.marker.Some? {
          return Err, r;
        }
        if !action.Offload? {
          files := files.(stageDir := false);
          return Ok, r;
        }
        if !enabled {
          return Err, r;
        }
        :- MakeStageDir(calm);
        var started: Record;
        o, started := BeginGeneration(calm);
        r := Some(started);
        return;
      }
      return Ok, r;
    }

    /** Admission, and then the settlement. */
    method Commence(action: Action, calm: bool) returns (o: Outcome, r: Option<Record>)
      requires Inv() && !Refused(action)
      modifies this`files, this`minted, this`gens, this`doomed, store
      ensures old(store.ns.durFences) <= store.ns.durFences
      ensures Inv() && minted >= old(minted) && (files.tombstone == old(files.tombstone) || Deletes(action))
      ensures forall g | g in gens :: g in old(gens) || g >= old(minted)
      ensures o.Ok? ==> files.journal == r && files.tombstone == Deletes(action)
      ensures o.Ok? && r.Some? ==> r.value.phase != Purged && (action.Offload? ==> r.value.phase != Hot)
      ensures o.Ok? && r.None? ==> !action.Offload? && NoPayload(files) && !files.stageDir
                                   && forall g | g in sent :: g in store.ns.durFences
      ensures !action.Offload? && !Deletes(action) ==> files.disk == old(files.disk)
      ensures calm && !action.Offload? ==> o.Ok?
      ensures calm && old(files.journal).Some? && old(files.journal).value.phase in {Offloading, Cold} ==>
                o.Ok? && r == old(files.journal) && store.ns == old(store.ns)
      ensures calm && old(Startable(action)) ==>
                o.Ok? && r.Some? && r.value.phase == Offloading && !r.value.remote && r.value.obj.id == old(minted)
                && store.ns == old(store.ns)
    {
      r := None;
      :- Admit(action, calm);
      o, r := Settle(action, calm);
    }

    /** `calmRecovery` keeps faults out of the recovery after a failed upload alone. */
    method Perform(action: Action, r0: Record, calm: bool, calmRecovery: bool) returns (o: Outcome, r: Record)
      requires Inv() && !running && files.tombstone == Deletes(action) && files.journal == Some(r0) && r0.phase != Purged
      requires action.Offload? ==> r0.phase in {Cold, Offloading} && (action.base.Some? ==> action.base.value.id < minted && action.base.value.id !in gens)
      modifies this`files, this`inflight, this`sent, this`minted, this`doomed, store
      ensures minted >= old(minted) && old(store.ns.durFences) <= store.ns.durFences
      ensures Inv() && files.tombstone == old(files.tombstone)
      ensures o.Ok? && action.Offload? ==> files.journal == Some(r) && r.phase == Cold
      ensures o.Ok? && action.Hydrate? ==> files.journal == Some(r) && r.phase == Hot && files.disk.Some? && NoPayload(files)
      ensures o.Ok? && !action.Offload? && !action.Hydrate? ==>
                files.journal.None? && forall g | g in sent :: g in store.ns.durFences
      ensures calm && action.Hydrate? && (enabled || old(files.disk.Some?)) ==> o.Ok?
      ensures (&& calm && enabled && action.Offload? && r0.phase == Offloading && !r0.remote
               && Unobstructed(old(store.ns), r0.obj.id, action.base)) ==> o.Ok?
      ensures action.Offload? && r0.phase == Cold ==> o.Ok? && files == old(files) && store.ns == old(store.ns)
      ensures calmRecovery && action.Offload? && o.Err? && files.disk.Some? ==> LocallyHot()
      ensures action.FenceDelete? ==> o.Err? && files == old(files) && store.ns == old(store.ns)
    {
      r := r0;
      match action {
        case Offload(_, base) =>
          if r.phase == Cold {
            return Ok, r;
          }
          o, r := OffloadCold(r, base, calm);
          if o.Err? {
            // A failed upload must not strand a still-valid local disk.
            var recovered, _ := RecoverLocalCold(r, calmRecovery);
            if recovered.Crash? {
              o := Crash;
            }
          }
        case Hydrate =>
          o, r := HydrateCold(r, calm);
        case Purge =>
          o, r := RecoverLocalCold(r, calm);
          :- o;
          o, r := PurgeCold(r, calm);
        case Delete =>
          o, r := PurgeCold(r, calm);
        case FenceDelete =>
          return Err, r;
      }
    }

    /** What success of each action means. */
    ghost predicate Achieved(action: Action, status: Status)
      reads this, store
    {
      match action
      case Offload(_, _) =>
        && status == Status(Cold, true, true) && files.disk.None? && files.journal.Some? && files.journal.value.phase == Cold
        && Holds(store.ns, files.journal.value.obj) && files.journal.value.obj.bytes == truth
      case Hydrate =>
        && status == Status(Hot, files.journal.Some? && files.journal.value.remote, files.journal.Some?)
        && files.disk.Some? && files.disk.value.bytes == truth && NoPayload(files)
        && (files.journal.Some? ==> files.journal.value.phase == Hot)
      case Purge =>
        && status == Status(Hot, false, false) && files.journal.None? && files.disk.Some? && files.disk.value.bytes == truth
        && forall g | g in sent :: g in store.ns.durFences
      case _ =>
        && status == Status(Hot, false, false) && files.tombstone && files.journal.None?
        && forall g | g in sent :: g in store.ns.durFences
    }

    /** One action.  Faults can be kept out of its three parts: the preparation, the work, and
        the recovery of the local disk after a failed upload. */
    method ColdDisk(action: Action, calmStart: bool, calm: bool, calmRecovery: bool) returns (o: Outcome, status: Status)
      requires Inv()
      requires action.Offload? && action.base.Some? ==> action.base.value.id < minted && action.base.value.id !in gens
      modifies this`files, this`inflight, this`sent, this`minted, this`gens, this`doomed, store
      ensures old(store.ns.durFences) <= store.ns.durFences
      ensures Inv()
      ensures old(Refused(action)) ==> !o.Ok? && files == old(files)
      ensures files.tombstone == old(files.tombstone) || Deletes(action)
      ensures calmStart && calm && action.Hydrate? && !old(Refused(action)) && (enabled || old(files.disk.Some?)) ==> o.Ok?
      ensures (&& calmStart && calm && !old(Refused(action)) && old(Startable(action))
               && (action.base.Some? ==> Uploadable(old(store.ns), action.base.value))) ==> o.Ok?
      ensures calmStart && calmRecovery && old(Uploads(action)) && o.Err? && files.disk.Some? ==> LocallyHot()
      ensures o.Ok? ==> Achieved(action, status)
    {
      status := Status(Hot, false, false);
      if Refused(action) {
        return Err, status;
      }
      var r: Option<Record>;
      r :- Commence(action, calmStart);
      if r.None? {
        return Ok, status;
      }
      if action.Offload? && r.value.phase != Cold && r.value.phase != Offloading {
        return Err, status;
      }
      var done: Record;
      o, done := Perform(action, r.value, calm, calmRecovery);
      if action.Offload? || action.Hydrate? {
        status := Status(done.phase, done.remote, true);
      }
    }

    // ---- The guest, and any run ----

    /** A guest that starts sees the abstract disk, never an older remote copy. */
    method Start(calm: bool) returns (o: Outcome, seen: Bytes)
      requires Inv()
      modifies this`running
      ensures Inv()
      ensures o.Ok? || old(running) ==> running
      ensures running && (o.Ok? || !old(running)) ==> seen == truth
      ensures old(StartFenced()) ==> !o.Ok? && running == old(running)
      ensures calm && !old(StartFenced()) ==> o.Ok?
    {
      seen := [];
      if StartFenced() {
        return Err, seen;
      }
      var f := Choose(calm);
      if f.Applied() {
        running := true;
      }
      return f.Reply(), files.disk.value.bytes;
    }

    method Stop()
      requires Inv()
      modifies this`running
      ensures Inv() && !running
    {
      running := false;
    }

    method GuestWrite(bytes: Bytes)
      requires Inv() && running
      modifies this`files, this`truth
      ensures Inv() && truth == bytes && files == old(files).(disk := Some(Subvolume(old(files.disk.value.uuid), bytes)))
    {
      files := files.(disk := Some(files.disk.value.(bytes := bytes)));
      truth := bytes;
    }

    /** May the event happen now?  A write needs a running guest, a late message one that
        lost its reply; nobody else owns this host's generation IDs. */
    predicate Possible(e: Event)
      reads this
    {
      match e
      case Command(Offload(_, base)) => base.Some? ==> base.value.id !in gens
      case WriteEvent(_) => running
      case LateUploadEvent(obj) => obj in inflight
      case LateDeleteEvent(id) => id in doomed
      case StoreEvent(request) => Foreign(request)
      case _ => true
    }

    method Perceive(action: Action) returns (ghost entry: Entry)
      requires Inv() && Possible(Command(action))
      modifies this`files, this`inflight, this`minted, this`gens, this`sent, this`doomed, store
      ensures Inv() && old(store.ns.durFences) <= store.ns.durFences
      ensures entry.Commanded? && entry.action == action && entry.sent == sent
      ensures Acknowledged(entry) ==> sent <= store.ns.durFences
    {
      if action.Offload? && action.base.Some? && action.base.value.id >= minted {
        minted := action.base.value.id + 1;
      }
      var o, _ := ColdDisk(action, false, false, false);
      entry := Commanded(action, o, sent);
    }

    method Boot() returns (ghost entry: Entry)
      requires Inv()
      modifies this`running
      ensures Inv() && running == RunsAfter(old(running), entry)
      ensures entry == Booted(truth) || entry == Other
    {
      var was := running;
      var o, seen := Start(false);
      entry := if running && (o.Ok? || !was) then Booted(seen) else Other;
    }

    /** One event, with any faults.  An impossible one changes nothing. */
    method Step(e: Event) returns (ghost entry: Entry)
      requires Inv()
      modifies this`files, this`running, this`inflight, this`minted, this`gens, this`sent, this`truth, this`doomed, store
      ensures Inv() && Shows(e, entry, old(running)) && running == RunsAfter(old(running), entry)
      ensures truth == if entry.Wrote? then entry.bytes else old(truth)
      ensures entry.Booted? ==> entry.bytes == truth
      ensures old(store.ns.durFences) <= store.ns.durFences
      ensures Acknowledged(entry) ==> entry.sent <= store.ns.durFences
    {
      entry := Other;
      if !Possible(e) {
        return;
      }
      match e
      case Command(action) =>
        entry := Perceive(action);
      case StartEvent =>
        entry := Boot();
      case StopEvent =>
        Stop();
        entry := Halted;
      case WriteEvent(bytes) =>
        GuestWrite(bytes);
        entry := Wrote(bytes);
      case LateUploadEvent(obj) =>
        LateUpload(obj);
      case LateDeleteEvent(id) =>
        LateDelete(id);
      case StoreEvent(request) =>
        OthersUseStore(request);
    }

    /** Cold storage refines a single disk: over any commands, guest writes, starts and
        stops, late messages and foreign store activity, between commands and between the
        store calls of one command, with any faults, every guest boots from exactly the bytes
        last written.  What was sent before an acknowledged purge or deletion stays deleted. */
    method Run(events: seq<Event>, ghost image: Bytes) returns (ghost log: seq<Entry>)
      requires Inv() && truth == image
      modifies this`files, this`running, this`inflight, this`minted, this`gens, this`sent, this`truth, this`doomed, store
      ensures Inv() && |log| == |events| && Tells(events, old(running), log) && running == Runs(old(running), log)
      ensures OneDisk(image, log) && truth == Latest(image, log)
      ensures GoneForGood(log, store.ns) && old(store.ns.durFences) <= store.ns.durFences
    {
      log := [];
      for i := 0 to |events|
        invariant Inv() && |log| == i && Tells(events, old(running), log) && running == Runs(old(running), log)
        invariant OneDisk(image, log) && truth == Latest(image, log)
        invariant GoneForGood(log, store.ns) && old(store.ns.durFences) <= store.ns.durFences
      {
        ghost var was := store.ns;
        ghost var entry := Step(events[i]);
        GoneForGoodExtends(log, entry, was, store.ns);
        OneDiskExtends(image, log, entry);
        TellsExtends(events, old(running), log, entry);
        log := log + [entry];
      }
    }
  }
}
