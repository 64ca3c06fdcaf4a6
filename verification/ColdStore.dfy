/** The cold-object server: a namespace of immutable objects with parents,
    permanent deletion fences and recoverable stages.  Directory entries that
    were changed but not yet synced can be lost by a machine crash, so every
    directory is kept twice: as it is visible now and as it is durable. */
module ColdStore {
  import opened Faults

  type ID = nat
  type Bytes = seq<int>

  /** A published object.  `parent` is the recorded manifest dependency. */
  datatype Object = Object(id: ID, parent: Option<ID>, bytes: Bytes)

  /** Everything under the storage root.  `staged` are the `.stage-delete-` trees
      and `uploads` the `.stage-put-` trees.  `corrupt` are objects whose manifest
      cannot be read.  `born` numbers publications, for the termination argument
      about parent chains only. */
  datatype Namespace = Namespace(
    objects: map<ID, Object>, staged: map<ID, Object>, fences: set<ID>,
    durObjects: map<ID, Object>, durStaged: map<ID, Object>, durFences: set<ID>,
    uploads: set<nat>, corrupt: set<ID>, born: map<ID, nat>, clock: nat)

  const EMPTY := Namespace(map[], map[], {}, map[], map[], {}, {}, {}, map[], 0)

  // ---- The invariant of every reachable namespace ----

  ghost predicate FencesCover(ns: Namespace) {
    && ns.durFences <= ns.fences
    && ns.staged.Keys <= ns.durFences
    && ns.durStaged.Keys <= ns.durFences
    && forall id | id in ns.durObjects && id !in ns.objects :: id in ns.durFences
  }

  ghost predicate Immutable(ns: Namespace) {
    && (forall id | id in ns.objects :: ns.objects[id].id == id)
    && (forall id | id in ns.durObjects :: ns.durObjects[id].id == id)
    && (forall id | id in ns.objects && id in ns.durObjects :: ns.objects[id] == ns.durObjects[id])
  }

  /** An object that no crash can leave fenced has a parent that no crash can remove. */
  ghost predicate ParentKept(ns: Namespace, o: Object) {
    o.parent.Some? ==>
      && (o.id !in ns.durFences ==> o.parent.value in ns.objects && o.parent.value in ns.durObjects)
      && (o.parent.value in ns.durObjects || o.parent.value in ns.durFences)
  }

  ghost predicate ParentOlder(ns: Namespace, o: Object) {
    && o.id in ns.born && ns.born[o.id] < ns.clock
    && (o.parent.Some? && o.parent.value in ns.born ==> ns.born[o.parent.value] < ns.born[o.id])
  }

  ghost predicate Sound(ns: Namespace) {
    && FencesCover(ns)
    && Immutable(ns)
    && (forall id | id in ns.objects :: ParentKept(ns, ns.objects[id]) && ParentOlder(ns, ns.objects[id]))
    && (forall id | id in ns.durObjects :: ParentKept(ns, ns.durObjects[id]) && ParentOlder(ns, ns.durObjects[id]))
  }

  // ---- What the invariant gives a reader of the store ----

  /** A machine crash keeps each unsynced rename and each unsynced fence or loses it;
      a lost publication leaves its upload stage behind.  What remains is on disk. */
  function AfterCrash(ns: Namespace, kept: set<ID>, keptFences: set<ID>, uploads: set<nat>): Namespace {
    var objects := map id | id in ns.objects.Keys + ns.durObjects.Keys
                          && (if id in kept then id in ns.objects else id in ns.durObjects)
                         :: if id in kept then ns.objects[id] else ns.durObjects[id];
    var staged := map id | id in ns.staged.Keys + ns.durStaged.Keys
                         && (if id in kept then id in ns.staged else id in ns.durStaged)
                        :: if id in kept then ns.staged[id] else ns.durStaged[id];
    var fences := ns.durFences + ns.fences * keptFences;
    ns.(objects := objects, durObjects := objects, staged := staged, durStaged := staged,
        fences := fences, durFences := fences, uploads := uploads)
  }

  /** Parent closure: an unfenced published object has its parent physically present,
      now and after any crash. */
  lemma ParentClosure(ns: Namespace, id: ID, kept: set<ID>, keptFences: set<ID>, uploads: set<nat>)
    requires Sound(ns) && id in ns.objects && id !in ns.fences && ns.objects[id].parent.Some?
    ensures ns.objects[id].parent.value in ns.objects
    ensures var after := AfterCrash(ns, kept, keptFences, uploads);
            id in after.objects ==> ns.objects[id].parent.value in after.objects
  {
  }

  /** A chain of published objects, each followed by its recorded parent. */
  ghost predicate ParentChain(ns: Namespace, chain: seq<ID>) {
    && (forall i | 0 <= i < |chain| :: chain[i] in ns.objects)
    && (forall i | 0 <= i < |chain| - 1 :: ns.objects[chain[i]].parent == Some(chain[i + 1]))
  }

  /** Parent chains are finite: none is longer than the number of publications that
      came before its first object. */
  lemma {:induction false} ParentChainsFinite(ns: Namespace, chain: seq<ID>)
    requires Sound(ns) && ParentChain(ns, chain) && chain != []
    ensures ns.objects[chain[0]].id in ns.born && |chain| <= ns.born[chain[0]] + 1 <= ns.clock
  {
    assert ParentOlder(ns, ns.objects[chain[0]]);
    if |chain| > 1 {
      assert ns.objects[chain[0]].parent == Some(chain[1]);
      assert ParentChain(ns, chain[1..]) by {
        forall i | 0 <= i < |chain[1..]| - 1 ensures ns.objects[chain[1..][i]].parent == Some(chain[1..][i + 1]) {
          assert ns.objects[chain[i + 1]].parent == Some(chain[i + 1 + 1]);
        }
      }
      ParentChainsFinite(ns, chain[1..]);
    }
  }

  // ---- Atomic changes of the namespace ----

  function Synced(ns: Namespace): Namespace {
    ns.(durObjects := ns.objects, durStaged := ns.staged)
  }

  function Fenced(ns: Namespace, id: ID): Namespace {
    ns.(fences := ns.fences + {id})
  }

  function DurablyFenced(ns: Namespace, id: ID): Namespace {
    ns.(fences := ns.fences + {id}, durFences := ns.durFences + {id})
  }

  function Published(ns: Namespace, o: Object, stage: nat): Namespace {
    ns.(objects := ns.objects[o.id := o], uploads := ns.uploads - {stage},
        born := ns.born[o.id := ns.clock], clock := ns.clock + 1)
  }

  function Renamed(ns: Namespace, id: ID): Namespace
    requires id in ns.objects
  {
    ns.(objects := ns.objects - {id}, staged := ns.staged[id := ns.objects[id]])
  }

  lemma FencedSound(ns: Namespace, id: ID)
    requires Sound(ns)
    ensures Sound(Fenced(ns, id)) && Sound(DurablyFenced(ns, id))
  {
  }

  /** From `a` to `b`: durable fences stay; durable objects stay unless durably fenced;
      only IDs in `fencing` gain a fence and only IDs in `putting` appear. */
  ghost predicate Evolves(a: Namespace, b: Namespace, fencing: set<ID>, putting: set<ID>) {
    && a.durFences <= b.durFences
    && b.fences <= a.fences + fencing
    && b.corrupt == a.corrupt
    && (forall id | id in a.durObjects && id !in b.durFences :: id in b.durObjects && b.durObjects[id] == a.durObjects[id])
    && (forall id | id in b.objects || id in b.durObjects :: id in a.objects || id in a.durObjects || id in putting)
  }

  /** Publication is sound exactly when the parent is durable.  An ID that was ever
      durable and is gone is durably fenced, so no child can point at the new object. */
  lemma PublishedSound(ns: Namespace, o: Object, stage: nat)
    requires Sound(ns) && o.id !in ns.fences && o.id !in ns.objects
    requires o.parent.Some? ==> o.parent.value in ns.objects && o.parent.value in ns.durObjects
    ensures Sound(Published(ns, o, stage)) && Evolves(ns, Published(ns, o, stage), {}, {o.id})
  {
  }

  /** Renaming a durably fenced object away keeps closure when every child that could
      survive a crash is durably fenced. */
  lemma RenamedSound(ns: Namespace, id: ID)
    requires Sound(ns) && id in ns.objects && id in ns.durFences
    requires forall c | c in ns.objects && c !in ns.durFences :: ns.objects[c].parent != Some(id)
    ensures Sound(Renamed(ns, id))
  {
  }

  /** Every crash outcome of a sound namespace is sound, keeps every durable fence and
      every durable object that is not durably fenced, and shows nothing new. */
  lemma CrashSound(ns: Namespace, kept: set<ID>, keptFences: set<ID>, uploads: set<nat>)
    requires Sound(ns)
    ensures var after := AfterCrash(ns, kept, keptFences, uploads);
            Sound(after) && Evolves(ns, after, {}, {})
  {
  }

  // ---- Stage recovery ----

  /** What stage recovery may change: it never touches a published object or a fence,
      removes only stages, and may make the visible state durable. */
  ghost predicate Recovery(a: Namespace, b: Namespace) {
    && b.objects == a.objects && b.fences == a.fences && b.durFences == a.durFences
    && (b.durObjects == a.durObjects || b.durObjects == a.objects)
    && b.staged.Keys <= a.staged.Keys && (forall id | id in b.staged :: b.staged[id] == a.staged[id])
    && b.durStaged.Keys <= a.durFences
    && b.uploads <= a.uploads
    && b.corrupt == a.corrupt && b.born == a.born && b.clock == a.clock
  }

  lemma RecoverySound(a: Namespace, b: Namespace)
    requires Sound(a) && Recovery(a, b)
    ensures Sound(b) && Evolves(a, b, {}, {})
  {
  }

  lemma UploadsIrrelevant(a: Namespace, b: Namespace)
    requires Sound(a) && b == a.(uploads := b.uploads)
    ensures Sound(b)
  {
  }

  lemma EvolvesTransitive(a: Namespace, b: Namespace, c: Namespace,
                          fencing: set<ID>, putting: set<ID>, fencing': set<ID>, putting': set<ID>)
    requires Evolves(a, b, fencing, putting) && Evolves(b, c, fencing', putting')
    ensures Evolves(a, c, fencing + fencing', putting + putting')
  {
  }

  ghost predicate Settled(ns: Namespace) {
    ns.staged == map[] && ns.durStaged == map[] && ns.uploads == {} && ns.durObjects == ns.objects
  }

  datatype Lookup = Found(obj: Object) | Deleted | Missing | Invalid

  /** What a reader is told about an ID: the fence is consulted before the object. */
  function LookupIn(ns: Namespace, id: ID): Lookup {
    if id in ns.fences then Deleted
    else if id !in ns.objects then Missing
    else if id in ns.corrupt then Invalid
    else Found(ns.objects[id])
  }

  /** Once an ID is durably fenced, no evolution of the store, crashes and late uploads
      included, makes it readable again. */
  lemma FenceIsPermanent(a: Namespace, b: Namespace, fencing: set<ID>, putting: set<ID>, id: ID)
    requires Sound(a) && Sound(b) && Evolves(a, b, fencing, putting)
    requires id in a.durFences
    ensures LookupIn(b, id) == Deleted && id in b.durFences
  {
  }

  predicate Admissible(ns: Namespace, obj: Object) {
    && obj.id !in ns.fences && obj.id !in ns.objects
    && (obj.parent.Some? ==> LookupIn(ns, obj.parent.value).Found?)
  }

  /** Some published manifest names `id` as its parent, or cannot be read. */
  ghost predicate Blocked(ns: Namespace, id: ID) {
    exists c :: c in ns.objects && (c in ns.corrupt || ns.objects[c].parent == Some(id))
  }

  /** Object `c` has an unreadable manifest or a parent among `ids`. */
  predicate DependsOn(ns: Namespace, c: ID, ids: set<ID>) {
    c in ns.objects && (c in ns.corrupt || (ns.objects[c].parent.Some? && ns.objects[c].parent.value in ids))
  }

  ghost predicate DependedOn(ns: Namespace, ids: set<ID>) {
    exists c :: c !in ids && DependsOn(ns, c, ids)
  }

  /** Of a set nothing else depends on, every child is in the set. */
  lemma ChildrenFenced(a: Namespace, b: Namespace, ids: set<ID>, id: ID)
    requires !DependedOn(a, ids) && id in ids && ids <= b.durFences
    requires forall c | c in b.objects :: c in a.objects && b.objects[c] == a.objects[c]
    ensures forall c | c in b.objects && c !in b.durFences :: b.objects[c].parent != Some(id)
  {
    forall c | c in b.objects && c !in b.durFences
      ensures b.objects[c].parent != Some(id)
    {
      assert !DependsOn(a, c, ids);
    }
  }

  predicate Distinct(ids: seq<ID>) {
    forall i, j | 0 <= i < j < |ids| :: ids[i] != ids[j]
  }

  lemma RotSound(ns: Namespace, id: ID)
    requires Sound(ns)
    ensures Sound(ns.(corrupt := ns.corrupt + {id}))
  {
  }

  datatype Request =
    | StatRequest(id: ID) | PutRequest(obj: Object) | ReceiveRequest(obj: Object) | GetRequest(id: ID)
    | DeleteRequest(id: ID) | DiscardRequest(ids: seq<ID>)
    | CrashEvent(kept: set<ID>, keptFences: set<ID>, uploads: set<nat>) | RotEvent(id: ID)

  function Fencing(request: Request): set<ID> {
    match request
    case DeleteRequest(id) => {id}
    case DiscardRequest(ids) => set id | id in ids
    case _ => {}
  }

  function Putting(request: Request): set<ID> {
    match request
    case PutRequest(obj) => {obj.id}
    case ReceiveRequest(obj) => {obj.id}
    case _ => {}
  }

  datatype Reply = Reply(outcome: Outcome, found: Lookup)

  ghost predicate Deletes(request: Request, reply: Reply, id: ID) {
    reply.outcome.Ok? && (request == DeleteRequest(id) || (request.DiscardRequest? && id in request.ids))
  }

  /** The request read `id`, or published it. */
  ghost predicate Revives(request: Request, reply: Reply, id: ID) {
    reply.outcome.Ok? &&
    match request
    case StatRequest(x) => x == id && reply.found != Deleted
    case GetRequest(x) => x == id
    case PutRequest(obj) => obj.id == id
    case ReceiveRequest(obj) => obj.id == id
    case _ => false
  }

  /** Two reads of one ID that both find it find the same object. */
  ghost predicate SameObject(first: Reply, later: Reply) {
    (&& first.outcome.Ok? && first.found.Found?
     && later.outcome.Ok? && later.found.Found?
     && first.found.obj.id == later.found.obj.id) ==> first.found.obj == later.found.obj
  }

  /** What a successful read leaves true: the object is durable as read, or durably fenced. */
  ghost predicate Held(ns: Namespace, reply: Reply) {
    reply.outcome.Ok? && reply.found.Found? ==>
      var obj := reply.found.obj;
      obj.id in ns.durFences || (obj.id in ns.durObjects && ns.durObjects[obj.id] == obj)
  }

  /** What a successful reply says about the namespace before and after the request. */
  ghost predicate Answers(before: Namespace, after: Namespace, request: Request, reply: Reply) {
    match request
    case StatRequest(id) => reply.found == LookupIn(before, id)
    case GetRequest(id) => reply.found.Found? && reply.found == LookupIn(before, id)
    case PutRequest(obj) =>
      && obj.id !in before.fences && obj.id !in before.objects && (obj.parent.Some? ==> LookupIn(before, obj.parent.value).Found?)
      && obj.id in after.objects && obj.id in after.durObjects && after.durObjects[obj.id] == obj && obj.id !in after.fences
    case ReceiveRequest(obj) => obj.id in after.durObjects && after.durObjects[obj.id] == obj && obj.id !in after.fences
    case DeleteRequest(id) => id in after.durFences && id !in after.objects && after.objects == before.objects - {id}
    case DiscardRequest(ids) => forall id | id in ids :: id in after.durFences && id !in after.objects
    case _ => false
  }

  /** The request that a fault-free server carries out. */
  ghost predicate Servable(ns: Namespace, request: Request) {
    match request
    case StatRequest(_) => true
    case GetRequest(id) => LookupIn(ns, id).Found?
    case PutRequest(obj) => Admissible(ns, obj)
    case ReceiveRequest(obj) => LookupIn(ns, obj.id) == Found(obj) || Admissible(ns, obj)
    case DeleteRequest(id) => !(id in ns.objects && Blocked(ns, id))
    case DiscardRequest(ids) => ids != [] && Distinct(ids) && !DependedOn(ns, set id | id in ids)
    case _ => false
  }

  ghost predicate DeletionIsFinal(first: Request, firstReply: Reply, later: Request, laterReply: Reply) {
    forall id | Deletes(first, firstReply, id) :: !Revives(later, laterReply, id)
  }

  class Server {
    var ns: Namespace
    // IDs whose deletion or discard has been acknowledged to a caller.
    ghost var acknowledged: set<ID>
    // The namespaces that answered a stat, numbered in their order.
    ghost var answers: Log<Namespace>

    ghost predicate Valid()
      reads this
    {
      Sound(ns) && acknowledged <= ns.durFences && Numbered(answers)
    }

    constructor ()
      ensures Valid() && ns == EMPTY && acknowledged == {}
    {
      ns := EMPTY;
      acknowledged := {};
      answers := Log(0, {});
    }

    method SyncObjects(calm: bool) returns (o: Outcome)
      modifies this`ns
      ensures ns == old(ns) || ns == old(ns).(durObjects := old(ns).objects)
      ensures o.Ok? ==> ns == old(ns).(durObjects := old(ns).objects)
      ensures calm ==> o.Ok?
    {
      var f := Choose(calm);
      if f.Applied() {
        ns := ns.(durObjects := ns.objects);
      }
      return f.Reply();
    }

    method SyncRoot(calm: bool) returns (o: Outcome)
      modifies this`ns
      ensures ns == old(ns) || ns == old(ns).(durStaged := old(ns).staged)
      ensures o.Ok? ==> ns == old(ns).(durStaged := old(ns).staged)
      ensures calm ==> o.Ok?
    {
      var f := Choose(calm);
      if f.Applied() {
        ns := ns.(durStaged := ns.staged);
      }
      return f.Reply();
    }

    /** Sync both rename parents.  An error in one sync does not keep the other from being
        tried, and either may be durable without the other. */
    method SyncNamespace(calm: bool) returns (o: Outcome)
      requires Sound(ns)
      modifies this`ns
      ensures ns == old(ns).(durObjects := ns.durObjects, durStaged := ns.durStaged)
      ensures Sound(ns) && Recovery(old(ns), ns)
      ensures ns.durObjects == old(ns).durObjects || ns.durObjects == ns.objects
      ensures ns.durStaged == old(ns).durStaged || ns.durStaged == ns.staged
      ensures o.Ok? ==> ns == Synced(old(ns))
      ensures calm ==> o.Ok?
    {
      var objects := SyncObjects(calm);
      if objects.Crash? {
        return Crash;
      }
      o := SyncRoot(calm);
      if o.Ok? {
        o := objects;
      }
      RecoverySound(old(ns), ns);
    }

    /** Create the permanent record, or adopt one left by an earlier attempt, and make it
        durable before reporting success. */
    method DeletionRecord(id: ID, calm: bool) returns (o: Outcome)
      requires Sound(ns)
      modifies this`ns
      ensures Sound(ns)
      ensures ns == old(ns) || ns == Fenced(old(ns), id) || ns == DurablyFenced(old(ns), id)
      ensures o.Ok? ==> ns == DurablyFenced(old(ns), id)
      ensures calm ==> o.Ok?
    {
      FencedSound(ns, id);
      var f := Choose(calm);
      if f.Applied() {
        ns := Fenced(ns, id);
      }
      :- f.Reply();
      f := Choose(calm);
      if f.Applied() {
        ns := DurablyFenced(ns, id);
      }
      return f.Reply();
    }

    /** Remove one interrupted deletion.  A failure may leave part of the tree, under the
        same stage name. */
    method RemoveStage(id: ID, calm: bool) returns (o: Outcome)
      requires id in ns.durFences
      modifies this`ns
      ensures ns == old(ns) || ns == old(ns).(staged := old(ns).staged - {id})
      ensures o.Ok? ==> id !in ns.staged
      ensures calm ==> o.Ok?
    {
      var f := Choose(calm);
      if f.Applied() {
        ns := ns.(staged := ns.staged - {id});
      }
      return f.Reply();
    }

    method RemoveUpload(stage: nat, calm: bool) returns (o: Outcome)
      modifies this`ns
      ensures ns == old(ns) || ns == old(ns).(uploads := old(ns).uploads - {stage})
      ensures o.Ok? ==> stage !in ns.uploads
      ensures calm ==> o.Ok?
    {
      var f := Choose(calm);
      if f.Applied() {
        ns := ns.(uploads := ns.uploads - {stage});
      }
      return f.Reply();
    }

    /** Fence, then remove, every interrupted deletion. */
    method RecoverDeletions(calm: bool) returns (o: Outcome)
      requires Sound(ns) && ns.durObjects == ns.objects
      modifies this`ns
      ensures Recovery(old(ns), ns) && ns.durObjects == ns.objects && ns.uploads == old(ns.uploads)
      ensures o.Ok? ==> ns.staged == map[]
      ensures calm ==> o.Ok?
    {
      ghost var before := ns;
      var deletions := ns.staged.Keys;
      while deletions != {}
        invariant deletions <= before.staged.Keys && ns.staged.Keys <= deletions
        invariant Sound(ns) && ns == before.(staged := ns.staged)
        invariant forall id | id in ns.staged :: ns.staged[id] == before.staged[id]
        decreases deletions
      {
        var id :| id in deletions;
        assert ns.fences + {id} == ns.fences && ns.durFences + {id} == ns.durFences;
        :- DeletionRecord(id, calm);
        :- RemoveStage(id, calm);
        RecoverySound(before, ns);
        deletions := deletions - {id};
      }
      return Ok;
    }

    /** Remove every upload that was never published. */
    method RecoverUploads(calm: bool) returns (o: Outcome)
      modifies this`ns
      ensures ns == old(ns).(uploads := ns.uploads) && ns.uploads <= old(ns.uploads)
      ensures o.Ok? ==> ns.uploads == {}
      ensures calm ==> o.Ok?
    {
      var uploads := ns.uploads;
      while uploads != {}
        invariant uploads == ns.uploads <= old(ns.uploads) && ns == old(ns).(uploads := ns.uploads)
        decreases uploads
      {
        var stage :| stage in uploads;
        :- RemoveUpload(stage, calm);
        uploads := uploads - {stage};
      }
      return Ok;
    }

    /** Runs before every operation.  Both parents are synced before anything is removed. */
    method RecoverStages(calm: bool) returns (o: Outcome)
      requires Valid()
      modifies this`ns
      ensures Valid() && Recovery(old(ns), ns)
      ensures o.Ok? ==> Settled(ns)
      ensures calm ==> o.Ok?
    {
      ghost var before := ns;
      :- SyncNamespace(calm);
      :- RecoverDeletions(calm);
      RecoverySound(before, ns);
      :- RecoverUploads(calm);
      RecoverySound(before, ns);
      o := SyncRoot(calm);
      RecoverySound(before, ns);
    }

    /** Stat: what the namespace says once interrupted operations are settled.  An object
        that is found is therefore durable, even if the upload that published it failed. */
    method Stat(id: ID, calm: bool) returns (o: Outcome, found: Lookup)
      requires Valid()
      modifies this`ns, this`answers
      ensures answers == if o.Ok? then Extended(old(answers), ns) else old(answers)
      ensures Valid() && Recovery(old(ns), ns)
      ensures o.Ok? ==> found == LookupIn(old(ns), id)
      ensures o.Ok? && found.Found? ==> id in ns.durObjects && ns.durObjects[id] == found.obj
      ensures calm ==> o.Ok?
    {
      found := Missing;
      :- RecoverStages(calm);
      answers := Extended(answers, ns);
      return Ok, LookupIn(ns, id);
    }

    /** Get streams the exact published object. */
    method Get(id: ID, calm: bool) returns (o: Outcome, obj: Object)
      requires Valid()
      modifies this`ns, this`answers
      ensures Grows(old(answers), answers)
      ensures Valid() && Recovery(old(ns), ns)
      ensures o.Ok? ==> LookupIn(old(ns), id) == Found(obj) && id in ns.durObjects && ns.durObjects[id] == obj
      ensures calm && LookupIn(old(ns), id).Found? ==> o.Ok?
    {
      obj := Object(id, None, []);
      var found: Lookup;
      found :- Stat(id, calm);
      if !found.Found? {
        return Err, obj;
      }
      var f := Choose(calm);
      return f.Reply(), found.obj;
    }

    /** Receive into a private stage; nothing is visible yet. */
    method ReceiveStage(stage: nat, calm: bool) returns (o: Outcome)
      modifies this`ns
      ensures ns == old(ns) || ns == old(ns).(uploads := old(ns).uploads + {stage})
      ensures o.Ok? ==> ns == old(ns).(uploads := old(ns).uploads + {stage})
      ensures calm ==> o.Ok?
    {
      var f := Choose(calm);
      if f.Applied() {
        ns := ns.(uploads := ns.uploads + {stage});
      }
      :- f.Reply();
      f := Choose(calm); // receive, verify and write the manifest
      return f.Reply();
    }

    /** One rename publishes the stage.  After it nothing is rolled back. */
    method PublishStage(obj: Object, stage: nat, calm: bool) returns (o: Outcome)
      modifies this`ns
      ensures ns == old(ns) || ns == Published(old(ns), obj, stage)
      ensures o.Ok? ==> ns == Published(old(ns), obj, stage)
      ensures calm ==> o.Ok?
    {
      var f := Choose(calm);
      if f.Applied() {
        ns := Published(ns, obj, stage);
      }
      return f.Reply();
    }

    method Upload(obj: Object, stage: nat, calm: bool) returns (o: Outcome)
      requires Valid() && Settled(ns) && obj.id !in ns.fences && obj.id !in ns.objects
      requires obj.parent.Some? ==> LookupIn(ns, obj.parent.value).Found?
      modifies this`ns
      ensures Valid() && Evolves(old(ns), ns, {}, {obj.id})
      ensures ns.fences == old(ns.fences) && ns.durFences == old(ns.durFences)
      ensures ns.objects == old(ns.objects) || ns.objects == old(ns.objects)[obj.id := obj]
      ensures ns.uploads <= old(ns).uploads + {stage}
      ensures o.Ok? ==> obj.id in ns.durObjects && ns.durObjects[obj.id] == obj && ns.objects == old(ns.objects)[obj.id := obj] && ns.durObjects == ns.objects
      ensures calm ==> o.Ok?
    {
      ghost var before := ns;
      o := ReceiveStage(stage, calm);
      UploadsIrrelevant(before, ns);
      if !o.Ok? {
        return;
      }
      PublishedSound(ns, obj, stage);
      o := PublishStage(obj, stage, calm);
      if !o.Ok? {
        return;
      }
      o := SyncNamespace(calm);
    }

    /** `calmUndo` keeps faults out of the removal of a left-over stage alone. */
    method Put(obj: Object, calm: bool, calmUndo: bool) returns (o: Outcome)
      requires Valid()
      modifies this`ns
      ensures Valid() && Evolves(old(ns), ns, {}, {obj.id})
      ensures ns.fences == old(ns.fences) && ns.durFences == old(ns.durFences)
      ensures ns.objects == old(ns.objects) || (ns.objects == old(ns.objects)[obj.id := obj] && obj.id !in old(ns.objects))
      ensures o.Ok? ==> obj.id in ns.durObjects && ns.durObjects[obj.id] == obj && obj.id in ns.objects && obj.id !in ns.fences
      ensures o.Ok? && obj.parent.Some? ==> LookupIn(old(ns), obj.parent.value).Found?
      ensures o.Ok? ==> ns.objects == old(ns.objects)[obj.id := obj] && ns.durObjects == ns.objects
      ensures calmUndo && !o.Crash? ==> ns.uploads <= old(ns).uploads
      ensures obj.id in old(ns.fences) || obj.id in old(ns.objects) ==> !o.Ok? && ns.objects == old(ns.objects)
      ensures calm && Admissible(old(ns), obj) ==> o.Ok?
    {
      ghost var before := ns;
      o := RecoverStages(calm);
      RecoverySound(before, ns);
      if !o.Ok? {
        return;
      }
      if obj.id in ns.fences || obj.id in ns.objects {
        return Err;
      }
      if obj.parent.Some? && !LookupIn(ns, obj.parent.value).Found? {
        return Err;
      }
      var stage: nat := *;
      o := Upload(obj, stage, calm);
      if !o.Crash? {
        ghost var done := ns;
        var ignored := RemoveUpload(stage, calmUndo);
        assert Sound(ns) by { UploadsIrrelevant(done, ns); }
      }
    }

    /** The idempotent local receive: an exact existing object is kept. */
    method Receive(obj: Object, calm: bool) returns (o: Outcome)
      requires Valid()
      modifies this`ns, this`answers
      ensures Grows(old(answers), answers)
      ensures Valid() && Evolves(old(ns), ns, {}, {obj.id}) && ns.fences == old(ns.fences)
      ensures o.Ok? ==> obj.id in ns.durObjects && ns.durObjects[obj.id] == obj && obj.id !in ns.fences
      ensures obj.id in old(ns.objects) ==> ns.objects == old(ns.objects)
      ensures calm && (LookupIn(old(ns), obj.id) == Found(obj) || Admissible(old(ns), obj)) ==> o.Ok?
    {
      var found: Lookup;
      ghost var before := ns;
      o, found := Stat(obj.id, calm);
      RecoverySound(before, ns);
      if !o.Ok? {
        return;
      }
      match found
      case Found(actual) =>
        return if actual == obj then Ok else Err;
      case Missing =>
        ghost var mid := ns;
        o := Put(obj, calm, calm);
        EvolvesTransitive(before, mid, ns, {}, {}, {}, {obj.id});
      case Deleted =>
        return Err;
      case Invalid =>
        return Err;
    }

    method Referenced(id: ID) returns (blocked: bool)
      ensures blocked <==> Blocked(ns, id)
    {
      var entries := ns.objects.Keys;
      while entries != {}
        invariant entries <= ns.objects.Keys
        invariant forall c :: c in ns.objects && c !in entries ==> c !in ns.corrupt && ns.objects[c].parent != Some(id)
        decreases entries
      {
        var c :| c in entries;
        if c in ns.corrupt || ns.objects[c].parent == Some(id) {
          return true;
        }
        entries := entries - {c};
      }
      return false;
    }

    method RenameToStage(id: ID, calm: bool) returns (o: Outcome)
      requires id in ns.objects
      modifies this`ns
      ensures ns == old(ns) || ns == Renamed(old(ns), id)
      ensures o.Ok? ==> ns == Renamed(old(ns), id)
      ensures calm ==> o.Ok?
    {
      var f := Choose(calm);
      if f.Applied() {
        ns := Renamed(ns, id);
      }
      return f.Reply();
    }

    /** Delete fences the ID durably, also when the object is absent, before the object
        can leave the namespace; a referenced object is refused untouched. */
    method Delete(id: ID, calm: bool) returns (o: Outcome)
      requires Valid()
      modifies this`ns, this`acknowledged
      ensures Valid() && Evolves(old(ns), ns, {id}, {})
      ensures o.Ok? ==> id in ns.durFences && id !in ns.objects
      ensures acknowledged == old(acknowledged) + (if o.Ok? then {id} else {})
      ensures ns.objects == old(ns.objects) || ns.objects == old(ns.objects) - {id}
      ensures o.Ok? ==> ns.objects == old(ns.objects) - {id} && Settled(ns)
      ensures id in old(ns.objects) && Blocked(old(ns), id) ==>
                !o.Ok? && ns.objects == old(ns.objects) && ns.fences == old(ns.fences)
      ensures calm && !(id in old(ns.objects) && Blocked(old(ns), id)) ==> o.Ok?
    {
      ghost var before := ns;
      o := RecoverStages(calm);
      RecoverySound(before, ns);
      if !o.Ok? {
        return;
      }
      if id !in ns.objects {
        o := DeletionRecord(id, calm);
        if o.Ok? {
          acknowledged := acknowledged + {id};
        }
        return;
      }
      var blocked := Referenced(id);
      if blocked {
        return Err;
      }
      o := DeletionRecord(id, calm);
      if !o.Ok? {
        return;
      }
      RenamedSound(ns, id);
      o := RenameToStage(id, calm);
      if !o.Ok? {
        return;
      }
      ghost var renamed := ns;
      o := RecoverStages(calm);
      RecoverySound(renamed, ns);
      if o.Ok? {
        acknowledged := acknowledged + {id};
      }
    }

    /** Check the whole disposition before any irreversible step. */
    method SurveyDiscard(ids: set<ID>) returns (allowed: bool, present: set<ID>)
      ensures allowed <==> !DependedOn(ns, ids)
      ensures allowed ==> present == ids * ns.objects.Keys
    {
      var entries := ns.objects.Keys;
      present := {};
      while entries != {}
        invariant entries <= ns.objects.Keys
        invariant present == (ids * ns.objects.Keys) - entries
        invariant forall c :: c in ns.objects && c !in entries && c !in ids ==> !DependsOn(ns, c, ids)
        decreases entries
      {
        var c :| c in entries;
        if c !in ids {
          if DependsOn(ns, c, ids) {
            return false, {};
          }
        } else {
          present := present + {c};
        }
        entries := entries - {c};
      }
      return true, present;
    }

    method FenceAll(ids: seq<ID>, calm: bool) returns (o: Outcome)
      requires Sound(ns)
      modifies this`ns
      ensures Sound(ns) && Evolves(old(ns), ns, set id | id in ids, {})
      ensures ns == old(ns).(fences := ns.fences, durFences := ns.durFences)
      ensures o.Ok? ==> forall id | id in ids :: id in ns.durFences
      ensures calm ==> o.Ok?
    {
      var i := 0;
      while i < |ids|
        invariant 0 <= i <= |ids|
        invariant Sound(ns) && Evolves(old(ns), ns, set id | id in ids, {})
        invariant ns == old(ns).(fences := ns.fences, durFences := ns.durFences)
        invariant forall k | 0 <= k < i :: ids[k] in ns.durFences
      {
        assert ids[i] in ids;
        :- DeletionRecord(ids[i], calm);
        i := i + 1;
      }
      return Ok;
    }

    method RenameAll(present: set<ID>, ghost ids: set<ID>, calm: bool) returns (o: Outcome)
      requires Sound(ns) && present <= ids <= ns.durFences && present <= ns.objects.Keys && !DependedOn(ns, ids)
      modifies this`ns
      ensures Sound(ns) && Evolves(old(ns), ns, {}, {})
      ensures ns.objects.Keys >= old(ns.objects).Keys - present && ns.objects.Keys <= old(ns.objects).Keys
      ensures ns.fences == old(ns.fences) && ns.durFences == old(ns.durFences)
      ensures o.Ok? ==> ns.objects.Keys == old(ns.objects).Keys - present
      ensures calm ==> o.Ok?
    {
      ghost var before := ns;
      var rest := present;
      while rest != {}
        invariant rest <= present && rest <= ns.objects.Keys
        invariant Sound(ns) && Evolves(before, ns, {}, {}) && ns.objects == before.objects - (present - rest)
        invariant ns == before.(objects := ns.objects, staged := ns.staged)
        decreases rest
      {
        var id :| id in rest;
        ChildrenFenced(before, ns, ids, id);
        RenamedSound(ns, id);
        assert present - (rest - {id}) == present - rest + {id};
        :- RenameToStage(id, calm);
        rest := rest - {id};
      }
      return Ok;
    }

    /** The administrator's discard of a whole set.  Every ID is durably fenced before the
        first rename, so an interrupted discard leaves the namespace sound, and a set that a
        retained object depends on is refused untouched. */
    method Discard(ids: seq<ID>, calm: bool) returns (o: Outcome)
      requires Valid()
      modifies this`ns, this`acknowledged
      ensures Valid() && Evolves(old(ns), ns, set id | id in ids, {})
      ensures o.Ok? ==> forall id | id in ids :: id in ns.durFences && id !in ns.objects
      ensures acknowledged == old(acknowledged) + (if o.Ok? then set id | id in ids else {})
      ensures ns.objects.Keys >= old(ns.objects).Keys - (set id | id in ids) && ns.objects.Keys <= old(ns.objects).Keys
      ensures ids == [] || !Distinct(ids) ==> o == Err && ns == old(ns)
      ensures o.Ok? ==> Settled(ns)
      ensures DependedOn(old(ns), set id | id in ids) ==>
                !o.Ok? && ns.objects == old(ns.objects) && ns.fences == old(ns.fences)
      ensures calm && ids != [] && Distinct(ids) && !DependedOn(old(ns), set id | id in ids) ==> o.Ok?
    {
      ghost var before := ns;
      var chosen := set id | id in ids;
      if ids == [] || !Distinct(ids) {
        return Err;
      }
      o := RecoverStages(calm);
      RecoverySound(before, ns);
      if !o.Ok? {
        return;
      }
      var allowed, present := SurveyDiscard(chosen);
      assert DependedOn(ns, chosen) <==> DependedOn(before, chosen) by {
        assert forall c :: DependsOn(ns, c, chosen) <==> DependsOn(before, c, chosen);
      }
      if !allowed {
        return Err;
      }
      ghost var surveyed := ns;
      o := FenceAll(ids, calm);
      EvolvesTransitive(before, surveyed, ns, {}, {}, chosen, {});
      if !o.Ok? {
        return;
      }
      ghost var fenced := ns;
      assert !DependedOn(ns, chosen) by {
        assert forall c :: DependsOn(ns, c, chosen) <==> DependsOn(surveyed, c, chosen);
      }
      o := RenameAll(present, chosen, calm);
      EvolvesTransitive(before, fenced, ns, chosen, {}, {}, {});
      if !o.Ok? {
        return;
      }
      ghost var renamed := ns;
      o := RecoverStages(calm);
      RecoverySound(renamed, ns);
      EvolvesTransitive(before, renamed, ns, chosen, {}, {}, {});
      if o.Ok? {
        acknowledged := acknowledged + chosen;
      }
    }

    /** The machine loses power: unsynced renames and fences survive or not, one by one. */
    method MachineCrash(kept: set<ID>, keptFences: set<ID>, uploads: set<nat>)
      requires Valid()
      modifies this`ns
      ensures Valid() && ns == AfterCrash(old(ns), kept, keptFences, uploads) && Evolves(old(ns), ns, {}, {})
    {
      CrashSound(ns, kept, keptFences, uploads);
      ns := AfterCrash(ns, kept, keptFences, uploads);
    }

    /** A manifest rots: it can no longer be read, though its object is still there. */
    method Rot(id: ID)
      requires Valid()
      modifies this`ns
      ensures Valid() && ns == old(ns).(corrupt := old(ns).corrupt + {id})
    {
      ghost var before := ns;
      ns := ns.(corrupt := ns.corrupt + {id});
      RotSound(before, id);
    }

    method Serve(request: Request, calm: bool) returns (reply: Reply)
      requires Valid()
      modifies this
      ensures Grows(old(answers), answers)
      ensures Valid() && old(acknowledged) <= acknowledged && old(ns.durFences) <= ns.durFences
      ensures forall id | Deletes(request, reply, id) :: id in acknowledged
      ensures forall id | id in old(ns.durFences) :: !Revives(request, reply, id)
      ensures forall r: Reply | Held(old(ns), r) :: Held(ns, r) && SameObject(r, reply)
      ensures Held(ns, reply)
      ensures reply.outcome.Ok? ==> Answers(old(ns), ns, request, reply)
      ensures calm && Servable(old(ns), request) ==> reply.outcome.Ok?
      ensures match request
              case CrashEvent(kept, keptFences, uploads) => ns == AfterCrash(old(ns), kept, keptFences, uploads)
              case RotEvent(id) => ns == old(ns).(corrupt := old(ns).corrupt + {id})
              case _ => true
      ensures !request.RotEvent? ==> Evolves(old(ns), ns, Fencing(request), Putting(request))
    {
      ghost var before := ns;
      match request
      case StatRequest(id) =>
        var o, found := Stat(id, calm);
        RecoverySound(before, ns);
        reply := Reply(o, found);
      case PutRequest(obj) =>
        var o := Put(obj, calm, calm);
        reply := Reply(o, Missing);
      case ReceiveRequest(obj) =>
        var o := Receive(obj, calm);
        reply := Reply(o, Missing);
      case GetRequest(id) =>
        var o, obj := Get(id, calm);
        RecoverySound(before, ns);
        reply := Reply(o, if o.Ok? then Found(obj) else Missing);
      case DeleteRequest(id) =>
        var o := Delete(id, calm);
        reply := Reply(o, Missing);
      case DiscardRequest(ids) =>
        var o := Discard(ids, calm);
        reply := Reply(o, Missing);
      case CrashEvent(kept, keptFences, uploads) =>
        MachineCrash(kept, keptFences, uploads);
        reply := Reply(Crash, Missing);
      case RotEvent(id) =>
        Rot(id);
        reply := Reply(Crash, Missing);
    }

    /** Any sequence of requests, failures, machine crashes and rot.  The log shows that
        after an acknowledged deletion of an ID nobody reads or publishes it again, and
        that two reads of one ID never differ. */
    method Run(requests: seq<Request>) returns (log: seq<Reply>)
      requires Valid() && acknowledged == {}
      modifies this
      ensures Valid() && |log| == |requests|
      ensures forall i, j | 0 <= i < j < |log| :: DeletionIsFinal(requests[i], log[i], requests[j], log[j])
      ensures forall i, j | 0 <= i < j < |log| :: SameObject(log[i], log[j])
    {
      log := [];
      var n := 0;
      while n < |requests|
        invariant 0 <= n == |log| <= |requests|
        invariant Valid()
        invariant forall i | 0 <= i < n :: forall id | Deletes(requests[i], log[i], id) :: id in acknowledged
        invariant forall i, j | 0 <= i < j < n :: DeletionIsFinal(requests[i], log[i], requests[j], log[j])
        invariant forall i | 0 <= i < n :: Held(ns, log[i])
        invariant forall i, j | 0 <= i < j < n :: SameObject(log[i], log[j])
      {
        ghost var acked := acknowledged;
        var reply := Serve(requests[n], false);
        forall i | 0 <= i < n ensures DeletionIsFinal(requests[i], log[i], requests[n], reply) {
          forall id | Deletes(requests[i], log[i], id) ensures !Revives(requests[n], reply, id) {
            assert id in acked;
          }
        }
        log := log + [reply];
        n := n + 1;
      }
    }
  }
}
