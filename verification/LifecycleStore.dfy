/** The request, cleanup and bootstrap tables.  Every method is one guarded statement or
    one transaction: it commits whole or not at all, and its reply can be lost. */
module LifecycleStore {
  import opened Faults

  type RequestID = nat
  type InstanceID = nat
  type Actor = nat

  /** Instances of an orb carry a digest of the orb and of the incarnation they replace;
      digests do not collide. */
  datatype Name = Plain(number: nat) | OrbName(orb: nat, previous: Option<InstanceID>)

  datatype Command = Start | Stop | Bootstrap | Delete | DeleteProof

  datatype Phase = Admitted | Executing | Done | Failed | Rejected | Cancelled | Interrupted

  /** `subject` and `generation` stand for the bound argument list. */
  datatype Binding = Binding(actor: Actor, command: Command, name: Name, subject: InstanceID, generation: int)

  datatype Request = Request(binding: Binding, phase: Phase, exitCode: int)

  datatype State = Ready | Stopped | FailedState | Provisioning | AwaitingGuest | Stopping | Deleting | Deleted

  datatype Row = Row(name: Name, created: nat, state: State)

  /** What an instance can still hold in the world outside the tables. */
  datatype Resource = Gateway | Runtime | RemoteDisk | Network | LocalDisk

  const EVERYTHING: set<Resource> := {Gateway, Runtime, RemoteDisk, Network, LocalDisk}

  type World = set<(Resource, InstanceID)>

  lemma EveryResource(x: Resource)
    ensures x in EVERYTHING
  {
  }

  /** `absent` are the resources proved gone. */
  datatype Receipt = Receipt(request: RequestID, actor: Actor, instance: InstanceID, name: Name, created: nat, absent: set<Resource>)

  /** `used` are the incarnation IDs ever given out. */
  datatype Tables = Tables(
    requests: map<RequestID, Request>, instances: map<InstanceID, Row>,
    fences: map<InstanceID, RequestID>, receipts: map<RequestID, Receipt>,
    generations: map<InstanceID, int>, used: set<InstanceID>)

  const EMPTY := Tables(map[], map[], map[], map[], map[], {})

  predicate Deletes(c: Command) {
    c.Delete? || c.DeleteProof?
  }

  // ---- Requests run at most once ----

  function Progress(p: Phase): nat {
    match p
    case Admitted => 1
    case Executing => 2
    case _ => 3
  }

  /** How far a request has come; an unknown ID has rank 0. */
  function Rank(t: Tables, id: RequestID): nat {
    if id in t.requests then Progress(t.requests[id].phase) else 0
  }

  /** A binding never changes, and a start, stop or bootstrap only moves forward and never
      leaves a final phase. */
  predicate Forward(x: Request, y: Request) {
    && x.binding == y.binding
    && (!Deletes(x.binding.command) ==> Progress(x.phase) <= Progress(y.phase) && (Progress(x.phase) == 3 ==> x == y))
  }

  /** One statement: requests move forward, and receipts, incarnation IDs and high-water
      marks are never lost. */
  ghost predicate Advances(a: Tables, b: Tables) {
    && (forall id | id in a.requests :: id in b.requests && Forward(a.requests[id], b.requests[id]))
    && a.used <= b.used
    && (forall q | q in a.receipts :: q in b.receipts && b.receipts[q] == a.receipts[q])
    && (forall i | i in a.generations :: i in b.generations && a.generations[i] <= b.generations[i])
  }

  ghost predicate History(trace: seq<Tables>) {
    forall k | 0 <= k < |trace| - 1 :: Advances(trace[k], trace[k + 1])
  }

  /** How often `id` enters execution along a history. */
  function Entries(trace: seq<Tables>, id: RequestID): nat {
    if |trace| < 2 then 0
    else (if Rank(trace[0], id) != 2 && Rank(trace[1], id) == 2 then 1 else 0) + Entries(trace[1..], id)
  }

  lemma {:induction false} NoEntryAfter(trace: seq<Tables>, id: RequestID)
    requires History(trace) && trace != [] && Rank(trace[0], id) >= 2
    requires id in trace[0].requests && !Deletes(trace[0].requests[id].binding.command)
    ensures Entries(trace, id) == 0
  {
    if |trace| >= 2 {
      assert Advances(trace[0], trace[1]);
      assert History(trace[1..]) by {
        forall k | 0 <= k < |trace[1..]| - 1 ensures Advances(trace[1..][k], trace[1..][k + 1]) {
          assert Advances(trace[k + 1], trace[k + 2]);
        }
      }
      NoEntryAfter(trace[1..], id);
    }
  }

  /** Along any history a start, stop or bootstrap request executes at most once.  The
      command is the one its ID is bound to, whenever that happens. */
  lemma {:induction false} ExecutesAtMostOnce(trace: seq<Tables>, id: RequestID)
    requires History(trace)
    requires forall k | 0 <= k < |trace| && id in trace[k].requests :: !Deletes(trace[k].requests[id].binding.command)
    ensures Entries(trace, id) <= 1
    decreases |trace|
  {
    if |trace| >= 2 {
      assert Advances(trace[0], trace[1]);
      var rest := trace[1..];
      assert History(rest) by {
        forall k | 0 <= k < |rest| - 1 ensures Advances(rest[k], rest[k + 1]) {
          assert Advances(trace[k + 1], trace[k + 2]);
        }
      }
      assert forall k | 0 <= k < |rest| && id in rest[k].requests :: !Deletes(rest[k].requests[id].binding.command) by {
        forall k | 0 <= k < |rest| && id in rest[k].requests ensures !Deletes(rest[k].requests[id].binding.command) {
          assert rest[k] == trace[k + 1];
        }
      }
      if Rank(trace[1], id) >= 2 {
        NoEntryAfter(rest, id);
      } else {
        ExecutesAtMostOnce(rest, id);
      }
    }
  }

  // ---- Fences, tombstones and receipts ----

  /** `q` owns the unresolved cleanup of `i`. */
  ghost predicate OwnedBy(t: Tables, i: InstanceID, q: RequestID) {
    && i in t.instances && t.instances[i].state == Deleting
    && q in t.requests && Deletes(t.requests[q].binding.command) && t.requests[q].binding.name == t.instances[i].name
    && (t.requests[q].phase == Executing || t.requests[q].phase == Interrupted)
  }

  predicate Unresolved(r: Request) {
    Deletes(r.binding.command) && (r.phase == Executing || r.phase == Interrupted)
  }

  /** An unresolved delete request owns a fence; a fence means an unresolved delete. */
  ghost predicate Fenced(t: Tables) {
    && (forall i | i in t.fences :: OwnedBy(t, i, t.fences[i]))
    && (forall i | i in t.instances && t.instances[i].state == Deleting :: i in t.fences)
    && (forall i, j | i in t.fences && j in t.fences && i != j :: t.fences[i] != t.fences[j])
    && (forall q | q in t.requests && Unresolved(t.requests[q]) :: exists i :: i in t.fences && t.fences[i] == q)
  }

  ghost predicate ProperReceipt(t: Tables, q: RequestID, r: Receipt) {
    && r.request == q && r.instance in t.used && r.absent == EVERYTHING
    && (r.instance in t.instances ==>
          && t.instances[r.instance].state == Deleted
          && t.instances[r.instance].name == r.name && t.instances[r.instance].created == r.created)
    && q in t.requests && t.requests[q].phase == Done && Deletes(t.requests[q].binding.command)
    && t.requests[q].binding.actor == r.actor && t.requests[q].binding.name == r.name
  }

  ghost predicate Receipted(t: Tables) {
    && (forall i | i in t.instances && t.instances[i].state == Deleted ::
          exists q :: q in t.receipts && t.receipts[q].instance == i)
    && (forall q | q in t.receipts :: ProperReceipt(t, q, t.receipts[q]))
    && (forall p, q | p in t.receipts && q in t.receipts && p != q :: t.receipts[p].instance != t.receipts[q].instance)
  }

  ghost predicate Named(t: Tables) {
    && t.instances.Keys <= t.used && t.generations.Keys <= t.used
    && (forall i | i in t.generations :: t.generations[i] >= 0)
    && (forall i, j | i in t.instances && j in t.instances && i != j :: t.instances[i].name != t.instances[j].name)
  }

  /** A recorded bootstrap was admitted with its generation, and is never cancelled. */
  ghost predicate BootstrapRecorded(t: Tables, r: Request) {
    && r.binding.subject in t.generations && r.binding.generation <= t.generations[r.binding.subject]
    && r.phase != Cancelled && r.phase != Admitted
  }

  ghost predicate Recorded(t: Tables) {
    forall q | q in t.requests && t.requests[q].binding.command == Bootstrap :: BootstrapRecorded(t, t.requests[q])
  }

  ghost predicate Sound(t: Tables) {
    Fenced(t) && Receipted(t) && Named(t) && Recorded(t)
  }

  /** A row is a tombstone exactly when a receipt for it exists, and then exactly one. */
  lemma TombstoneIffReceipt(t: Tables, i: InstanceID)
    requires Sound(t) && i in t.instances
    ensures t.instances[i].state == Deleted <==> exists q :: q in t.receipts && t.receipts[q].instance == i
    ensures forall p, q | p in t.receipts && q in t.receipts && t.receipts[p].instance == i && t.receipts[q].instance == i :: p == q
  {
  }

  /** The fence of an incarnation, its `deleting` row and its unresolved request come and
      go together. */
  lemma FenceIffDeleting(t: Tables, i: InstanceID)
    requires Sound(t)
    ensures i in t.fences <==> i in t.instances && t.instances[i].state == Deleting
    ensures i in t.fences ==> Unresolved(t.requests[t.fences[i]])
    ensures forall q | q in t.requests && Unresolved(t.requests[q]) ::
              exists j :: j in t.fences && t.fences[j] == q && t.instances[j].name == t.requests[q].binding.name
  {
  }

  /** Nothing that a fence depends on changed. */
  lemma KeepFences(a: Tables, b: Tables)
    requires Fenced(a) && a.fences == b.fences
    requires forall i | i in a.fences && i in a.instances :: i in b.instances && b.instances[i] == a.instances[i]
    requires forall i | i in b.instances && b.instances[i].state == Deleting :: i in a.instances && a.instances[i] == b.instances[i]
    requires forall q | q in a.requests && Unresolved(a.requests[q]) ::
               q in b.requests && Unresolved(b.requests[q]) && a.requests[q].binding == b.requests[q].binding
    requires forall q | q in b.requests && Unresolved(b.requests[q]) :: q in a.requests && Unresolved(a.requests[q])
    ensures Fenced(b)
  {
  }

  /** Nothing that a receipt depends on changed. */
  lemma KeepReceipts(a: Tables, b: Tables)
    requires Receipted(a) && a.receipts == b.receipts && a.used <= b.used
    requires forall q | q in a.requests && a.requests[q].phase == Done :: q in b.requests && b.requests[q] == a.requests[q]
    requires forall i | i in b.instances && b.instances[i].state == Deleted :: i in a.instances && a.instances[i] == b.instances[i]
    requires forall i | i in a.used && i in b.instances && !(i in a.instances && a.instances[i] == b.instances[i]) ::
               (forall q | q in a.receipts :: a.receipts[q].instance != i)
    ensures Receipted(b)
  {
  }

  /** No receipt speaks of a row that is not a tombstone. */
  lemma Unreceipted(t: Tables, i: InstanceID)
    requires Sound(t) && i in t.instances && t.instances[i].state != Deleted
    ensures forall q | q in t.receipts :: t.receipts[q].instance != i
  {
  }

  /** A statement that neither adds, removes nor renames a row. */
  ghost predicate SameRows(a: Tables, b: Tables) {
    && a.instances.Keys == b.instances.Keys && a.generations == b.generations && a.used == b.used
    && (forall i | i in a.instances :: a.instances[i].name == b.instances[i].name && a.instances[i].created == b.instances[i].created)
  }

  lemma AdvancesTransitive(a: Tables, b: Tables, c: Tables)
    requires Advances(a, b) && Advances(b, c)
    ensures Advances(a, c)
    ensures SameRows(a, b) && SameRows(b, c) ==> SameRows(a, c)
  {
  }

  /** Adding or moving a request that is no delete under way keeps the rest. */
  lemma Proper(a: Tables, b: Tables)
    requires Sound(a)
    requires a == b.(requests := a.requests)
    requires forall q | q in a.requests :: q in b.requests && b.requests[q].binding == a.requests[q].binding
    requires forall q | q in a.requests && b.requests[q] != a.requests[q] ::
               && a.requests[q].phase in {Admitted, Executing}
               && (Unresolved(a.requests[q]) <==> Unresolved(b.requests[q]))
               && b.requests[q].phase != Admitted && (b.requests[q].phase == Cancelled ==> a.requests[q].phase == Admitted)
    requires forall q | q in b.requests && q !in a.requests :: !Unresolved(b.requests[q])
    requires forall q | q in b.requests && q !in a.requests && b.requests[q].binding.command == Bootstrap :: BootstrapRecorded(b, b.requests[q])
    ensures Sound(b)
  {
  }

  lemma BootstrapSound(a: Tables, id: RequestID, b: Binding)
    requires Sound(a) && b.command == Bootstrap && b.subject in a.generations && a.generations[b.subject] < b.generation && id !in a.requests
    ensures Sound(a.(requests := a.requests[id := Request(b, Executing, 0)], generations := a.generations[b.subject := b.generation]))
    ensures forall q | q in a.requests && a.requests[q].binding.command == Bootstrap && a.requests[q].binding.subject == b.subject ::
              a.requests[q].binding.generation < b.generation
  {
    assert forall q | q in a.requests && a.requests[q].binding.command == Bootstrap :: BootstrapRecorded(a, a.requests[q]);
    var raised := a.(generations := a.generations[b.subject := b.generation]);
    KeepFences(a, raised);
    KeepReceipts(a, raised);
    Proper(raised, raised.(requests := a.requests[id := Request(b, Executing, 0)]));
  }

  /** Changing one unfenced row that no receipt speaks of keeps the rest. */
  lemma Reshaped(a: Tables, b: Tables, i: InstanceID)
    requires Sound(a)
    requires a.requests == b.requests && a.fences == b.fences && a.receipts == b.receipts && a.used <= b.used
    requires b.instances.Keys <= b.used && b.generations.Keys <= b.used && forall j | j in b.generations :: b.generations[j] >= 0
    requires forall j | j != i && (j in a.instances || j in b.instances) :: j in a.instances && j in b.instances && a.instances[j] == b.instances[j]
    requires forall j | j in a.generations :: j in b.generations && a.generations[j] <= b.generations[j]
    requires i in b.instances ==> b.instances[i].state != Deleting && b.instances[i].state != Deleted
    requires i in b.instances ==> forall j | j in a.instances && j != i :: a.instances[j].name != b.instances[i].name
    requires i in a.instances ==> a.instances[i].state != Deleting
    requires i in b.instances ==> forall q | q in a.receipts :: a.receipts[q].instance != i
    ensures Sound(b)
  {
  }

  // ---- Finishing a request ----

  predicate Finishable(r: Request, actor: Actor, exitCode: int) {
    r.binding.actor == actor && (r.phase == Executing || (r.phase == Admitted && exitCode != 0))
  }

  function Finished(t: Tables, id: RequestID, actor: Actor, exitCode: int): Tables {
    if id in t.requests && Finishable(t.requests[id], actor, exitCode)
    then t.(requests := t.requests[id := t.requests[id].(phase := if exitCode == 0 then Done else Failed, exitCode := exitCode)])
    else t
  }

  lemma FinishedIs(t: Tables, id: RequestID, actor: Actor, exitCode: int)
    ensures var n := Finished(t, id, actor, exitCode);
            && n == t.(requests := n.requests) && n.requests.Keys == t.requests.Keys
            && (forall q | q in t.requests && q != id :: n.requests[q] == t.requests[q])
            && (id in t.requests && Finishable(t.requests[id], actor, exitCode) ==>
                  n.requests[id] == Request(t.requests[id].binding, if exitCode == 0 then Done else Failed, exitCode))
  {
  }

  /** An executing delete of this actor. */
  predicate Strands(t: Tables, id: RequestID, actor: Actor) {
    && id in t.requests && t.requests[id].binding.actor == actor
    && t.requests[id].phase == Executing && Deletes(t.requests[id].binding.command)
  }

  /** The statement takes any executing request of the actor.  It keeps fences and
      requests in step exactly when that request is not a delete. */
  lemma FinishKeepsFences(t: Tables, id: RequestID, actor: Actor, exitCode: int)
    requires Sound(t)
    ensures Sound(Finished(t, id, actor, exitCode)) <==> !Strands(t, id, actor)
  {
    var next := Finished(t, id, actor, exitCode);
    if id in t.requests && Finishable(t.requests[id], actor, exitCode) {
      if Unresolved(t.requests[id]) {
        var i :| i in t.fences && t.fences[i] == id;
        assert !OwnedBy(next, i, id);
      } else {
        Proper(t, next);
      }
    }
  }

  /** Nothing a receipt vouches for is left in the world. */
  ghost predicate Vouched(t: Tables, held: World) {
    forall q, r | q in t.receipts && r in EVERYTHING :: (r, t.receipts[q].instance) !in held
  }

  lemma FinishAdvances(t: Tables, id: RequestID, actor: Actor, exitCode: int, held: World)
    requires Vouched(t, held)
    ensures Advances(t, Finished(t, id, actor, exitCode)) && Vouched(Finished(t, id, actor, exitCode), held)
  {
  }

  /** A deletion under way that its own actor reports finished: the fence stays, its
      owner is no longer allowed to resume it. */
  lemma FinishCanStrandAFence()
    ensures exists t: Tables, id, actor :: Sound(t) && id in t.requests && !Sound(Finished(t, id, actor, 0))
  {
    var r := Request(Binding(1, Delete, Plain(2), 3, 0), Executing, 0);
    var t := Tables(map[4 := r], map[3 := Row(Plain(2), 0, Deleting)], map[3 := 4], map[], map[], {3});
    assert OwnedBy(t, 3, t.fences[3]);
    assert t.fences[3] == 4;
    FinishKeepsFences(t, 4, 1, 0);
  }

  // ---- Starting, admitting and cancelling a request ----

  function Moved(t: Tables, id: RequestID, phase: Phase, exitCode: int): Tables
    requires id in t.requests
  {
    t.(requests := t.requests[id := t.requests[id].(phase := phase, exitCode := exitCode)])
  }

  /** A start, stop or bootstrap goes one step forward. */
  lemma MovedSound(t: Tables, id: RequestID, phase: Phase, exitCode: int)
    requires Sound(t) && id in t.requests && !Deletes(t.requests[id].binding.command)
    requires (t.requests[id].phase == Admitted && phase == Executing) || (t.requests[id].phase == Executing && phase == Rejected)
    ensures Sound(Moved(t, id, phase, exitCode)) && Advances(t, Moved(t, id, phase, exitCode)) && Moved(t, id, phase, exitCode) != t
  {
    assert Moved(t, id, phase, exitCode).requests[id] != t.requests[id];
    Proper(t, Moved(t, id, phase, exitCode));
  }

  predicate Startable(t: Tables, id: RequestID, actor: Actor) {
    id in t.requests && t.requests[id].binding.actor == actor && t.requests[id].phase == Admitted
  }

  /** The statement starts any admitted request of the actor.  It keeps fences and requests
      in step exactly when that request is not a delete. */
  lemma BeginKeepsFences(t: Tables, id: RequestID, actor: Actor)
    requires Sound(t) && Startable(t, id, actor)
    ensures Sound(Moved(t, id, Executing, t.requests[id].exitCode)) <==> !Deletes(t.requests[id].binding.command)
  {
    var next := Moved(t, id, Executing, t.requests[id].exitCode);
    if Deletes(t.requests[id].binding.command) {
      assert Unresolved(next.requests[id]);
      assert forall i | i in t.fences :: OwnedBy(t, i, t.fences[i]);
    } else {
      MovedSound(t, id, Executing, t.requests[id].exitCode);
    }
  }

  /** A delete that was admitted and then started like a stop: unresolved, without a fence. */
  lemma BeginCanLackAFence()
    ensures exists t: Tables, id, actor :: Sound(t) && Startable(t, id, actor) && !Sound(Moved(t, id, Executing, t.requests[id].exitCode))
  {
    var t := EMPTY.(requests := map[4 := Request(Binding(1, Delete, Plain(2), 3, 0), Admitted, 0)]);
    assert Sound(t) && Startable(t, 4, 1);
    BeginKeepsFences(t, 4, 1);
  }

  function Inserted(t: Tables, id: RequestID, b: Binding, phase: Phase): Tables {
    if id in t.requests then t else t.(requests := t.requests[id := Request(b, phase, 0)])
  }

  /** Admission and cancellation insert any binding.  They keep the bootstrap account exactly
      when they insert no bootstrap, which has a statement of its own. */
  lemma InsertKeepsRecordsIff(t: Tables, id: RequestID, b: Binding, phase: Phase)
    requires Sound(t) && (phase == Admitted || phase == Cancelled)
    ensures Sound(Inserted(t, id, b, phase)) <==> id in t.requests || b.command != Bootstrap
  {
    var next := Inserted(t, id, b, phase);
    if id !in t.requests {
      if b.command == Bootstrap {
        assert !BootstrapRecorded(next, next.requests[id]);
      } else {
        Proper(t, next);
      }
    }
  }

  // ---- Rows that are written or removed by name ----

  /** The row statements have no guard of their own.  A write of an ordinary state keeps the
      tables sound exactly on a row that is neither being deleted nor deleted. */
  lemma RowWriteIsSoundIff(t: Tables, i: InstanceID, s: State)
    requires Sound(t) && i in t.instances && s != Deleting && s != Deleted
    ensures Sound(t.(instances := t.instances[i := t.instances[i].(state := s)]))
            <==> t.instances[i].state != Deleting && t.instances[i].state != Deleted
  {
    var next := t.(instances := t.instances[i := t.instances[i].(state := s)]);
    if t.instances[i].state == Deleting {
      assert !OwnedBy(next, i, t.fences[i]);
    } else if t.instances[i].state == Deleted {
      var q :| q in t.receipts && t.receipts[q].instance == i;
      assert !ProperReceipt(next, q, t.receipts[q]);
    } else {
      Unreceipted(t, i);
      Reshaped(t, next, i);
    }
  }

  /** A removal keeps them sound exactly on a row that is not being deleted. */
  lemma RowRemovalIsSoundIff(t: Tables, i: InstanceID)
    requires Sound(t) && i in t.instances
    ensures Sound(t.(instances := t.instances - {i})) <==> t.instances[i].state != Deleting
  {
    var next := t.(instances := t.instances - {i});
    if t.instances[i].state == Deleting {
      assert !OwnedBy(next, i, t.fences[i]);
    } else {
      Reshaped(t, next, i);
    }
  }

  // ---- The tables in use ----

  function Created(t: Tables, i: InstanceID, name: Name, created: nat, orb: bool): Tables {
    t.(instances := t.instances[i := Row(name, created, Provisioning)], used := t.used + {i},
       generations := if orb && i !in t.generations then t.generations[i := 0] else t.generations)
  }

  lemma CreatedSound(t: Tables, i: InstanceID, name: Name, created: nat, orb: bool)
    requires Sound(t) && i !in t.used && forall j | j in t.instances :: t.instances[j].name != name
    ensures Sound(Created(t, i, name, created, orb)) && Advances(t, Created(t, i, name, created, orb)) && Created(t, i, name, created, orb) != t
    ensures orb ==> Created(t, i, name, created, orb).generations == t.generations[i := 0]
  {
    assert i in Created(t, i, name, created, orb).used;
    forall q | q in t.receipts
      ensures t.receipts[q].instance != i
    {
      assert ProperReceipt(t, q, t.receipts[q]);
    }
    Reshaped(t, Created(t, i, name, created, orb), i);
  }

  predicate Deletable(r: Row, name: Name, created: nat) {
    r.name == name && r.created == created && r.state != Deleting && r.state != Deleted
  }

  /** Who may start or resume the cleanup of `i`: the fence's own request, or, without a
      fence, a delete request of the same actor and name that has not executed. */
  ghost predicate MayBegin(t: Tables, id: RequestID, actor: Actor, i: InstanceID, name: Name, created: nat) {
    && id in t.requests && t.requests[id].binding.actor == actor && t.requests[id].binding.name == name
    && Deletes(t.requests[id].binding.command)
    && i in t.instances && t.instances[i].name == name && t.instances[i].created == created
    && if i in t.fences then t.fences[i] == id
       else t.instances[i].state != Deleted && t.requests[id].phase in {Admitted, Failed, Cancelled}
  }

  /** A bound delete that is new and finds a row it may delete, or is under way, or done. */
  ghost predicate Retriable(t: Tables, id: RequestID, actor: Actor, i: InstanceID, name: Name, created: nat) {
    if id in t.requests then
      t.requests[id].binding == Binding(actor, DeleteProof, name, i, 0) && (id in t.receipts || MayBegin(t, id, actor, i, name, created))
    else
      i in t.instances && Deletable(t.instances[i], name, created)
  }

  function AfterRestart(r: Request): Request {
    r.(phase := if r.phase == Admitted then Cancelled else if r.phase == Executing then Interrupted else r.phase)
  }

  function Restarted(t: Tables): Tables {
    t.(requests := map q | q in t.requests :: AfterRestart(t.requests[q]))
  }

  lemma RestartedSound(t: Tables)
    requires Sound(t)
    ensures Sound(Restarted(t)) && Advances(t, Restarted(t))
  {
    Proper(t, Restarted(t));
  }

  function Begun(t: Tables, id: RequestID, i: InstanceID): Tables
    requires id in t.requests && i in t.instances
  {
    t.(requests := t.requests[id := t.requests[id].(phase := Executing, exitCode := 0)],
       instances := t.instances[i := t.instances[i].(state := Deleting)], fences := t.fences[i := id])
  }

  ghost predicate MayCommit(t: Tables, r: Receipt) {
    && r.absent == EVERYTHING
    && r.instance in t.fences && t.fences[r.instance] == r.request
    && r.request in t.requests && t.requests[r.request].phase == Executing
    && t.requests[r.request].binding.actor == r.actor && t.requests[r.request].binding.name == r.name
    && r.instance in t.instances && t.instances[r.instance].created == r.created
  }

  function Committed(t: Tables, r: Receipt): Tables
    requires r.request in t.requests && r.instance in t.instances
  {
    t.(requests := t.requests[r.request := t.requests[r.request].(phase := Done, exitCode := 0)],
       instances := t.instances[r.instance := t.instances[r.instance].(state := Deleted)],
       receipts := t.receipts[r.request := r], fences := t.fences - {r.instance})
  }

  /** The outcome of a whole deletion: fenced, receipted, and the fence gone again. */
  function Cleaned(t: Tables, id: RequestID, actor: Actor, i: InstanceID, name: Name, created: nat): Tables
    requires id in t.requests && i in t.instances
  {
    Committed(Begun(t, id, i), Receipt(id, actor, i, name, created, EVERYTHING))
  }

  lemma BegunOwners(t: Tables, id: RequestID, actor: Actor, i: InstanceID, name: Name, created: nat)
    requires Fenced(t) && MayBegin(t, id, actor, i, name, created)
    ensures forall j | j in Begun(t, id, i).fences :: OwnedBy(Begun(t, id, i), j, Begun(t, id, i).fences[j])
    ensures forall j | j in t.fences && j != i :: t.fences[j] != id
  {
    forall j | j in Begun(t, id, i).fences
      ensures OwnedBy(Begun(t, id, i), j, Begun(t, id, i).fences[j])
      ensures j in t.fences && j != i ==> t.fences[j] != id
    {
      assert j in t.fences ==> OwnedBy(t, j, t.fences[j]);
    }
  }

  lemma BegunFenced(t: Tables, id: RequestID, actor: Actor, i: InstanceID, name: Name, created: nat)
    requires Fenced(t) && MayBegin(t, id, actor, i, name, created)
    ensures Fenced(Begun(t, id, i))
  {
    var n := Begun(t, id, i);
    BegunOwners(t, id, actor, i, name, created);
    assert n.fences[i] == id;
    forall q | q in n.requests && Unresolved(n.requests[q])
      ensures exists j :: j in n.fences && n.fences[j] == q
    {
      if q != id {
        var j :| j in t.fences && t.fences[j] == q;
        assert n.fences[j] == q;
      }
    }
  }

  lemma BegunReceipted(t: Tables, id: RequestID, actor: Actor, i: InstanceID, name: Name, created: nat)
    requires Sound(t) && MayBegin(t, id, actor, i, name, created)
    ensures Receipted(Begun(t, id, i))
  {
  }

  lemma BegunRecorded(t: Tables, id: RequestID, i: InstanceID)
    requires Named(t) && Recorded(t)
    requires id in t.requests && Deletes(t.requests[id].binding.command) && i in t.instances
    ensures Named(Begun(t, id, i)) && Recorded(Begun(t, id, i)) && Advances(t, Begun(t, id, i)) && SameRows(t, Begun(t, id, i))
  {
  }

  lemma BegunSound(t: Tables, id: RequestID, actor: Actor, i: InstanceID, name: Name, created: nat)
    requires Sound(t) && MayBegin(t, id, actor, i, name, created)
    ensures Sound(Begun(t, id, i)) && Advances(t, Begun(t, id, i)) && SameRows(t, Begun(t, id, i))
  {
    BegunFenced(t, id, actor, i, name, created);
    BegunReceipted(t, id, actor, i, name, created);
    BegunRecorded(t, id, i);
  }

  lemma CommittedFenced(t: Tables, r: Receipt)
    requires Fenced(t) && MayCommit(t, r)
    ensures Fenced(Committed(t, r))
  {
    var n := Committed(t, r);
    forall j | j in n.fences
      ensures OwnedBy(n, j, n.fences[j])
    {
      assert OwnedBy(t, j, t.fences[j]);
    }
    forall q | q in n.requests && Unresolved(n.requests[q])
      ensures exists j :: j in n.fences && n.fences[j] == q
    {
      var j :| j in t.fences && t.fences[j] == q;
      assert n.fences[j] == q;
    }
  }

  lemma CommittedReceipted(t: Tables, r: Receipt)
    requires Sound(t) && MayCommit(t, r)
    ensures Receipted(Committed(t, r)) && r.request !in t.receipts
  {
    var n := Committed(t, r);
    assert OwnedBy(t, r.instance, r.request);
    assert r.request in t.receipts ==> ProperReceipt(t, r.request, t.receipts[r.request]);
    Unreceipted(t, r.instance);
    forall q | q in n.receipts
      ensures ProperReceipt(n, q, n.receipts[q])
    {
      assert q in t.receipts ==> ProperReceipt(t, q, t.receipts[q]);
    }
    assert n.receipts[r.request].instance == r.instance;
    forall j | j in n.instances && n.instances[j].state == Deleted
      ensures exists q :: q in n.receipts && n.receipts[q].instance == j
    {
      if j != r.instance {
        var q :| q in t.receipts && t.receipts[q].instance == j;
        assert n.receipts[q].instance == j;
      }
    }
  }

  lemma CommittedRecorded(t: Tables, r: Receipt)
    requires Named(t) && Recorded(t) && MayCommit(t, r) && Deletes(t.requests[r.request].binding.command) && r.request !in t.receipts
    ensures Named(Committed(t, r)) && Recorded(Committed(t, r)) && Advances(t, Committed(t, r)) && SameRows(t, Committed(t, r))
  {
  }

  lemma CommittedSound(t: Tables, r: Receipt)
    requires Sound(t) && MayCommit(t, r)
    ensures Sound(Committed(t, r)) && Advances(t, Committed(t, r)) && SameRows(t, Committed(t, r)) && r.request !in t.receipts
  {
    assert OwnedBy(t, r.instance, r.request);
    CommittedFenced(t, r);
    CommittedReceipted(t, r);
    CommittedRecorded(t, r);
  }

  lemma CommittedVouched(t: Tables, r: Receipt, held: World)
    requires Vouched(t, held) && r.request in t.requests && r.instance in t.instances
    requires forall x | x in r.absent :: (x, r.instance) !in held
    requires r.absent == EVERYTHING
    ensures Vouched(Committed(t, r), held)
  {
  }

  /** The deletion is over: a tombstone, its receipt for this request, and nothing held. */
  ghost predicate Vanished(t: Tables, held: World, id: RequestID, actor: Actor, i: InstanceID, name: Name, created: nat) {
    && id in t.receipts && t.receipts[id] == Receipt(id, actor, i, name, created, EVERYTHING)
    && i in t.instances && t.instances[i].state == Deleted && (forall x :: (x, i) !in held)
  }

  /** From admission to the end of a start or stop that succeeds. */
  lemma ExecutedSteps(t: Tables, id: RequestID, b: Binding)
    requires id !in t.requests && (b.command == Start || b.command == Stop)
    ensures var admitted := Inserted(t, id, b, Admitted);
            && Startable(admitted, id, b.actor) && admitted != t
            && var begun := Moved(admitted, id, Executing, 0);
               && !Strands(begun, id, b.actor)
               && Finished(begun, id, b.actor, 0) == t.(requests := t.requests[id := Request(b, Done, 0)])
  {
  }

  lemma BootstrapSteps(t: Tables, id: RequestID, b: Binding)
    requires b.command == Bootstrap && id !in t.requests
    ensures var admitted := t.(requests := t.requests[id := Request(b, Executing, 0)], generations := t.generations[b.subject := b.generation]);
            && !Strands(admitted, id, b.actor)
            && Finished(admitted, id, b.actor, 0) == t.(requests := t.requests[id := Request(b, Done, 0)], generations := t.generations[b.subject := b.generation])
  {
  }

  class Store {
    var t: Tables
    var held: World
    // What the tables have been, numbered by the commits before.
    ghost var log: Log<Tables>

    ghost predicate Logged()
      reads this`t, this`log
    {
      (log.now, t) in log.moments && Numbered(log)
    }

    ghost predicate Valid()
      reads this
    {
      Sound(t) && Vouched(t, held) && Logged()
    }

    constructor ()
      ensures Valid() && t == EMPTY && held == {}
    {
      t, held, log := EMPTY, {}, Log(0, {(0, EMPTY)});
    }

    /** One statement or transaction: all of it or nothing. */
    method Commit(calm: bool, next: Tables) returns (out: Outcome)
      requires Logged()
      modifies this`t, this`log
      ensures t == old(t) || t == next
      ensures out.Ok? ==> t == next
      ensures calm ==> out.Ok?
      ensures Logged() && Grows(old(log), log)
      ensures Sound(old(t)) && Vouched(old(t), held) && Sound(next) && Vouched(next, held) ==> Valid()
      ensures (Advances(old(t), next) ==> Advances(old(t), t)) && (SameRows(old(t), next) ==> SameRows(old(t), t))
    {
      var f := Choose(calm);
      if f.Applied() {
        t := next;
        log := Extended(log, t);
      }
      return f.Reply();
    }

    method Admit(calm: bool, id: RequestID, b: Binding) returns (out: Outcome, admitted: bool)
      requires Valid()
      modifies this`t, this`log
      ensures Grows(old(log), log)
      ensures Advances(old(t), t) && Vouched(t, held) && Logged()
      ensures id in old(t).requests || b.command != Bootstrap ==> Valid()
      ensures t == old(t) || (id !in old(t).requests && t == Inserted(old(t), id, b, Admitted))
      ensures out.Ok? ==> id in t.requests && t.requests[id].binding == b && (admitted <==> id !in old(t).requests)
      ensures out.Ok? && admitted ==> t == old(t).(requests := old(t).requests[id := Request(b, Admitted, 0)])
      ensures id in old(t).requests ==> t == old(t) && (out.Ok? <==> old(t).requests[id].binding == b)
      ensures calm ==> (out.Ok? <==> id in old(t).requests ==> old(t).requests[id].binding == b) && !out.Crash?
    {
      admitted := false;
      InsertKeepsRecordsIff(t, id, b, Admitted);
      if id !in t.requests {
        out := Commit(calm, Inserted(t, id, b, Admitted));
        admitted := out.Ok?;
        return;
      }
      out := if t.requests[id].binding == b then Ok else Err;
    }

    method Begin(calm: bool, id: RequestID, actor: Actor) returns (out: Outcome)
      requires Valid()
      modifies this`t, this`log
      ensures Grows(old(log), log)
      ensures Advances(old(t), t) && Vouched(t, held) && Logged()
      ensures t != old(t) ==> Startable(old(t), id, actor) && t == Moved(old(t), id, Executing, old(t).requests[id].exitCode)
      ensures t == old(t) || !Deletes(old(t).requests[id].binding.command) ==> Valid()
      ensures out.Ok? ==> id in t.requests && t.requests[id].phase == Executing && Startable(old(t), id, actor)
      ensures calm ==> (out.Ok? <==> Startable(old(t), id, actor))
    {
      if !Startable(t, id, actor) {
        return Err;
      }
      BeginKeepsFences(t, id, actor);
      var next := Moved(t, id, Executing, t.requests[id].exitCode);
      assert next.requests[id] != t.requests[id];
      out := Commit(calm, next);
    }

    method Finish(calm: bool, id: RequestID, actor: Actor, exitCode: int) returns (out: Outcome, finished: bool)
      requires Valid()
      modifies this`t, this`log
      ensures Grows(old(log), log)
      ensures Advances(old(t), t) && Vouched(t, held) && Logged()
      ensures t == old(t) || !Strands(old(t), id, actor) ==> Valid()
      ensures t == old(t) || t == Finished(old(t), id, actor, exitCode)
      ensures out.Ok? ==> t == Finished(old(t), id, actor, exitCode)
      ensures out.Ok? ==>
                (finished <==>
                   && id in old(t).requests && old(t).requests[id].binding.actor == actor
                   && (old(t).requests[id].phase == Executing || (old(t).requests[id].phase == Admitted && exitCode != 0)))
      ensures out.Ok? && finished ==>
                && id in t.requests && t.requests[id].binding == old(t).requests[id].binding && t.requests[id].exitCode == exitCode
                && t.requests[id].phase == (if exitCode == 0 then Done else Failed)
      ensures out.Ok? && !finished ==> t == old(t)
      ensures t == old(t).(requests := t.requests) && t.requests.Keys == old(t).requests.Keys
      ensures forall q | q in old(t).requests && q != id :: t.requests[q] == old(t).requests[q]
      ensures calm ==> out.Ok?
    {
      finished := id in t.requests && Finishable(t.requests[id], actor, exitCode);
      FinishedIs(t, id, actor, exitCode);
      FinishKeepsFences(t, id, actor, exitCode);
      FinishAdvances(t, id, actor, exitCode, held);
      out := Commit(calm, Finished(t, id, actor, exitCode));
    }

    /** A start or stop admitted, begun and finished without a fault. */
    method Execute(id: RequestID, b: Binding)
      requires Valid() && (b.command == Start || b.command == Stop)
      modifies this`t, this`log
      ensures Grows(old(log), log)
      ensures Valid() && Advances(old(t), t)
      ensures t == if id in old(t).requests then old(t) else old(t).(requests := old(t).requests[id := Request(b, Done, 0)])
    {
      if id !in t.requests {
        ghost var was := t;
        var out, flag := Admit(true, id, b);
        ExecutedSteps(was, id, b);
        ghost var admitted := t;
        out := Begin(true, id, b.actor);
        assert t == Moved(admitted, id, Executing, 0);
        ghost var begun := t;
        out, flag := Finish(true, id, b.actor, 0);
        assert t == Finished(begun, id, b.actor, 0);
        AdvancesTransitive(was, admitted, begun);
        AdvancesTransitive(was, begun, t);
      }
    }

    method RejectStart(calm: bool, id: RequestID, actor: Actor) returns (out: Outcome)
      requires Valid()
      modifies this`t, this`log
      ensures Grows(old(log), log)
      ensures Valid() && Advances(old(t), t)
      ensures var may := id in old(t).requests && old(t).requests[id].binding.actor == actor
                         && old(t).requests[id].binding.command == Start && old(t).requests[id].phase == Executing;
              && (t != old(t) ==> may && t == Moved(old(t), id, Rejected, 1))
              && (out.Ok? ==> may && id in t.requests && t.requests[id].phase == Rejected && t.requests[id].exitCode == 1)
              && (calm ==> (out.Ok? <==> may))
    {
      if id !in t.requests || t.requests[id].binding.actor != actor || t.requests[id].binding.command != Start || t.requests[id].phase != Executing {
        return Err;
      }
      MovedSound(t, id, Rejected, 1);
      out := Commit(calm, Moved(t, id, Rejected, 1));
    }

    /** Service start: admitted requests can never have begun, executing ones may have had
        any effect. */
    method Interrupt(calm: bool) returns (out: Outcome)
      requires Valid()
      modifies this`t, this`log
      ensures Grows(old(log), log)
      ensures Valid() && Advances(old(t), t)
      ensures t == old(t).(requests := t.requests)
      ensures out.Ok? ==> forall q | q in t.requests :: t.requests[q].phase != Admitted && t.requests[q].phase != Executing
      ensures calm ==> out.Ok?
    {
      RestartedSound(t);
      out := Commit(calm, Restarted(t));
    }

    method Cancel(calm: bool, id: RequestID, b: Binding) returns (out: Outcome)
      requires Valid()
      modifies this`t, this`log
      ensures Grows(old(log), log)
      ensures Advances(old(t), t) && Vouched(t, held) && Logged()
      ensures id in old(t).requests || b.command != Bootstrap ==> Valid()
      ensures t == old(t) || (id !in old(t).requests && t == Inserted(old(t), id, b, Cancelled))
      ensures out.Ok? ==> id in t.requests && t.requests[id].binding == b
      ensures out.Ok? && id !in old(t).requests ==> t.requests[id].phase == Cancelled
      ensures calm ==> (out.Ok? <==> id in old(t).requests ==> old(t).requests[id].binding == b)
    {
      InsertKeepsRecordsIff(t, id, b, Cancelled);
      if id !in t.requests {
        out := Commit(calm, Inserted(t, id, b, Cancelled));
        return;
      }
      out := if t.requests[id].binding == b then Ok else Err;
    }

    /** The high-water mark and the executing request commit together, so a bootstrap that
        was overtaken by a newer one can never be admitted afterwards. */
    method AdmitBootstrap(calm: bool, id: RequestID, b: Binding) returns (out: Outcome)
      requires Valid() && b.command == Bootstrap
      modifies this`t, this`log
      ensures Grows(old(log), log)
      ensures Valid() && Advances(old(t), t)
      ensures var may := && b.generation > 0 && b.subject in old(t).generations && old(t).generations[b.subject] < b.generation
                         && id !in old(t).requests;
              && (t != old(t) ==> may && t == old(t).(requests := old(t).requests[id := Request(b, Executing, 0)],
                                                       generations := old(t).generations[b.subject := b.generation]))
              && (out.Ok? ==> may && t != old(t))
              && (calm ==> (out.Ok? <==> may))
      ensures t != old(t) ==> forall q | q in old(t).requests && old(t).requests[q].binding.command == Bootstrap && old(t).requests[q].binding.subject == b.subject ::
                old(t).requests[q].binding.generation < b.generation
    {
      if b.generation <= 0 || b.subject !in t.generations || t.generations[b.subject] >= b.generation || id in t.requests {
        return Err;
      }
      var next := t.(requests := t.requests[id := Request(b, Executing, 0)], generations := t.generations[b.subject := b.generation]);
      BootstrapSound(t, id, b);
      out := Commit(calm, next);
    }

    // ---- Rows ----

    /** A newer bootstrap admitted and finished without a fault. */
    method ExecuteBootstrap(id: RequestID, b: Binding)
      requires Valid() && b.command == Bootstrap && id !in t.requests
      requires b.generation > 0 && b.subject in t.generations && t.generations[b.subject] < b.generation
      modifies this`t, this`log
      ensures Grows(old(log), log)
      ensures Valid() && Advances(old(t), t)
      ensures t == old(t).(requests := old(t).requests[id := Request(b, Done, 0)], generations := old(t).generations[b.subject := b.generation])
    {
      ghost var was := t;
      var out := AdmitBootstrap(true, id, b);
      BootstrapSteps(was, id, b);
      ghost var admitted := t;
      var flag;
      out, flag := Finish(true, id, b.actor, 0);
      assert t == Finished(admitted, id, b.actor, 0);
      AdvancesTransitive(was, admitted, t);
    }

    method CreateInstance(calm: bool, i: InstanceID, name: Name, created: nat, orb: bool) returns (out: Outcome)
      requires Valid() && i !in t.used
      modifies this`t, this`log
      ensures Grows(old(log), log)
      ensures Valid() && Advances(old(t), t)
      ensures t != old(t) ==> (forall j | j in old(t).instances :: old(t).instances[j].name != name) && t == Created(old(t), i, name, created, orb)
      ensures out.Ok? ==> i in t.instances && t.instances[i] == Row(name, created, Provisioning) && (orb ==> i in t.generations && t.generations[i] == 0)
      ensures calm && (forall j | j in old(t).instances :: old(t).instances[j].name != name) ==> out.Ok?
    {
      if j :| j in t.instances && t.instances[j].name == name {
        return Err;
      }
      CreatedSound(t, i, name, created, orb);
      out := Commit(calm, Created(t, i, name, created, orb));
    }

    /** Lifecycle commands write the row only after checking the fence. */
    method UpdateState(calm: bool, i: InstanceID, s: State) returns (out: Outcome)
      requires Valid() && s != Deleting && s != Deleted
      modifies this`t, this`log
      ensures Grows(old(log), log)
      ensures Valid() && Advances(old(t), t)
      ensures i in old(t).fences || i !in old(t).instances || old(t).instances[i].state == Deleted ==> out == Err && t == old(t)
      ensures t == old(t) || t == old(t).(instances := old(t).instances[i := old(t).instances[i].(state := s)])
      ensures out.Ok? ==> i in t.instances && t.instances[i].state == s
      ensures calm && i in old(t).instances && old(t).instances[i].state != Deleting && old(t).instances[i].state != Deleted ==> out.Ok?
    {
      if i in t.fences || i !in t.instances || t.instances[i].state == Deleting || t.instances[i].state == Deleted {
        return Err;
      }
      RowWriteIsSoundIff(t, i, s);
      out := Commit(calm, t.(instances := t.instances[i := t.instances[i].(state := s)]));
    }

    /** Callers remove a tombstone or a failed row to free its name, and the provisioning row
        of an import or a creation that failed.  Receipts stay. */
    method DeleteInstance(calm: bool, i: InstanceID) returns (out: Outcome)
      requires Valid()
      modifies this`t, this`log
      ensures Grows(old(log), log)
      ensures Valid() && Advances(old(t), t)
      ensures t != old(t) ==> i in old(t).instances && old(t).instances[i].state in {FailedState, Deleted, Provisioning}
                              && t == old(t).(instances := old(t).instances - {i})
      ensures out.Ok? ==> i in old(t).instances && i !in t.instances
      ensures calm ==> (out.Ok? <==> i in old(t).instances && old(t).instances[i].state in {FailedState, Deleted, Provisioning})
    {
      if i !in t.instances || t.instances[i].state !in {FailedState, Deleted, Provisioning} {
        return Err;
      }
      RowRemovalIsSoundIff(t, i);
      out := Commit(calm, t.(instances := t.instances - {i}));
    }

    // ---- Cleanup ----

    method CheckCleanupFence(i: InstanceID) returns (out: Outcome)
      requires Valid()
      ensures out.Ok? <==> !(i in t.instances && t.instances[i].state == Deleting)
    {
      FenceIffDeleting(t, i);
      out := if i in t.fences then Err else Ok;
    }

    /** The owner is found from any state, also after the service restarted. */
    method CleanupRequest(i: InstanceID) returns (owner: Option<RequestID>)
      requires Valid()
      ensures owner.Some? <==> i in t.instances && t.instances[i].state == Deleting
      ensures owner.Some? ==> owner.value in t.requests && Unresolved(t.requests[owner.value])
                              && t.requests[owner.value].binding.name == t.instances[i].name
    {
      FenceIffDeleting(t, i);
      if i in t.fences {
        assert OwnedBy(t, i, t.fences[i]);
        return Some(t.fences[i]);
      }
      return None;
    }

    /** The guards of the transaction, in the order of its statements.  They come down to:
        the fence's own request, or a delete that has not executed. */
    method CheckBegin(id: RequestID, actor: Actor, i: InstanceID, name: Name, created: nat) returns (out: Outcome)
      requires Valid()
      ensures out.Ok? <==> MayBegin(t, id, actor, i, name, created)
      ensures !out.Crash?
    {
      var resume := i in t.fences;
      if resume && t.fences[i] != id {
        return Err;
      }
      if id !in t.requests || t.requests[id].binding.actor != actor {
        return Err;
      }
      var r := t.requests[id];
      if r.binding.command == Delete && !resume {
        if q :| q in t.requests && t.requests[q].binding.name == name && Unresolved(t.requests[q]) {
          return Err;
        }
      }
      var phases := if resume then {Executing, Interrupted} else {Admitted, Failed, Cancelled};
      if !Deletes(r.binding.command) || r.binding.name != name || r.phase !in phases {
        return Err;
      }
      if i !in t.instances || t.instances[i].name != name || t.instances[i].created != created {
        return Err;
      }
      var s := t.instances[i].state;
      if s == Deleted || (resume && s != Deleting) || (!resume && s == Deleting && r.binding.command != Delete) {
        return Err;
      }
      if !resume {
        if j :| j in t.fences && t.fences[j] == id {
          return Err;
        }
      }
      return Ok;
    }

    method BeginCleanup(calm: bool, id: RequestID, actor: Actor, i: InstanceID, name: Name, created: nat) returns (out: Outcome)
      requires Valid()
      modifies this`t, this`log
      ensures Grows(old(log), log)
      ensures Valid() && Advances(old(t), t)
      ensures t.receipts == old(t).receipts && SameRows(old(t), t)
      ensures t != old(t) ==> MayBegin(old(t), id, actor, i, name, created) && t == Begun(old(t), id, i)
      ensures out.Ok? ==> MayBegin(old(t), id, actor, i, name, created) && t == Begun(old(t), id, i)
      ensures calm ==> (out.Ok? <==> MayBegin(old(t), id, actor, i, name, created)) && !out.Crash?
    {
      out := Ok;
      :- CheckBegin(id, actor, i, name, created);
      BegunSound(t, id, actor, i, name, created);
      out := Commit(calm, Begun(t, id, i));
    }

    method CheckCommit(r: Receipt) returns (out: Outcome)
      requires Valid()
      ensures out.Ok? <==> MayCommit(t, r)
      ensures !out.Crash?
    {
      FenceIffDeleting(t, r.instance);
      assert r.instance in t.fences ==> OwnedBy(t, r.instance, t.fences[r.instance]);
      if r.absent != EVERYTHING {
        return Err;
      }
      if r.request !in t.requests || t.requests[r.request].binding.actor != r.actor || t.requests[r.request].phase != Executing
         || !Deletes(t.requests[r.request].binding.command) || t.requests[r.request].binding.name != r.name
      {
        return Err;
      }
      if r.instance !in t.instances || t.instances[r.instance] != Row(r.name, r.created, Deleting) {
        return Err;
      }
      if r.instance !in t.fences || t.fences[r.instance] != r.request {
        return Err;
      }
      return Ok;
    }

    method CommitChecked(calm: bool, r: Receipt) returns (out: Outcome)
      requires Valid() && MayCommit(t, r) && forall x | x in r.absent :: (x, r.instance) !in held
      modifies this`t, this`log
      ensures Grows(old(log), log)
      ensures Valid() && Advances(old(t), t) && SameRows(old(t), t)
      ensures t == old(t) || t == Committed(old(t), r)
      ensures out.Ok? ==> t == Committed(old(t), r)
      ensures calm ==> out.Ok?
    {
      CommittedSound(t, r);
      CommittedVouched(t, r, held);
      out := Commit(calm, Committed(t, r));
    }

    /** Fence, tombstone and receipt change in one transaction. */
    method CommitCleanup(calm: bool, r: Receipt) returns (out: Outcome)
      requires Valid() && forall x | x in r.absent :: (x, r.instance) !in held
      modifies this`t, this`log
      ensures Grows(old(log), log)
      ensures Valid() && Advances(old(t), t)
      ensures SameRows(old(t), t)
      ensures t == old(t) || (MayCommit(old(t), r) && t == Committed(old(t), r))
      ensures out.Ok? ==> MayCommit(old(t), r) && t == Committed(old(t), r)
      ensures calm ==> (out.Ok? <==> MayCommit(old(t), r))
    {
      out := CheckCommit(r);
      if out.Ok? {
        out := CommitChecked(calm, r);
      }
    }

    /** The service gives a resource to a running instance only outside any cleanup. */
    method Acquire(x: Resource, i: InstanceID) returns (out: Outcome)
      requires Valid()
      modifies this`held
      ensures Valid()
      ensures out.Ok? ==> held == old(held) + {(x, i)}
      ensures out.Ok? <==> i !in t.fences && i in t.instances && t.instances[i].state != Deleted
      ensures !out.Ok? ==> held == old(held)
    {
      if i in t.fences || i !in t.instances || t.instances[i].state == Deleted {
        return Err;
      }
      Unreceipted(t, i);
      held := held + {(x, i)};
      return Ok;
    }

    /** One step of the teardown: it fails, or the resource is proved gone. */
    method Release(calm: bool, x: Resource, i: InstanceID) returns (out: Outcome)
      requires Valid()
      modifies this`held
      ensures Valid() && held <= old(held) && old(held) <= held + {(x, i)}
      ensures out.Ok? ==> (x, i) !in held
      ensures calm ==> out.Ok?
    {
      var f := Choose(calm);
      if f.Applied() {
        held := held - {(x, i)};
      }
      return f.Reply();
    }

    method TearDown(calm: bool, i: InstanceID) returns (out: Outcome)
      requires Valid()
      modifies this`held
      ensures Valid() && held <= old(held) && (forall x, j | (x, j) in old(held) && j != i :: (x, j) in held)
      ensures out.Ok? ==> forall x :: (x, i) !in held
      ensures calm ==> out.Ok?
    {
      out := Ok;
      :- Release(calm, Gateway, i);
      :- Release(calm, Runtime, i);
      :- Release(calm, RemoteDisk, i);
      :- Release(calm, Network, i);
      :- Release(calm, LocalDisk, i);
      forall x: Resource
        ensures (x, i) !in held
      {
        match x
        case Gateway => assert (x, i) !in held;
        case Runtime => assert (x, i) !in held;
        case RemoteDisk => assert (x, i) !in held;
        case Network => assert (x, i) !in held;
        case LocalDisk => assert (x, i) !in held;
      }
      return Ok;
    }

    /** The effects between the fence and the receipt. */
    method ProveGone(calm: bool, ghost was: Tables, id: RequestID, actor: Actor, i: InstanceID, name: Name, created: nat) returns (out: Outcome)
      requires Valid() && MayBegin(was, id, actor, i, name, created) && t == Begun(was, id, i) && Advances(was, t) && SameRows(was, t)
      modifies this
      ensures Grows(old(log), log)
      ensures Valid() && Advances(was, t) && SameRows(was, t)
      ensures held <= old(held) && (forall x, j | (x, j) in old(held) && j != i :: (x, j) in held)
      ensures t == old(t) || t == Cleaned(was, id, actor, i, name, created)
      ensures out.Ok? ==> t == Cleaned(was, id, actor, i, name, created) && (forall x :: (x, i) !in held)
      ensures calm ==> out.Ok?
    {
      out := TearDown(calm, i);
      if out.Ok? {
        out := CommitCleanup(calm, Receipt(id, actor, i, name, created, EVERYTHING));
        AdvancesTransitive(was, old(t), t);
      }
    }

    /** The deletion engine.  A retry repeats every step with the same request. */
    method DeleteWithProof(calm: bool, id: RequestID, actor: Actor, i: InstanceID, name: Name, created: nat) returns (out: Outcome)
      requires Valid()
      modifies this
      ensures Grows(old(log), log)
      ensures Valid() && Advances(old(t), t)
      ensures SameRows(old(t), t)
      ensures held <= old(held) && (forall x, j | (x, j) in old(held) && j != i :: (x, j) in held)
      ensures t != old(t) ==> MayBegin(old(t), id, actor, i, name, created)
                              && (t == Begun(old(t), id, i) || t == Cleaned(old(t), id, actor, i, name, created))
      ensures out.Ok? ==> MayBegin(old(t), id, actor, i, name, created) && t == Cleaned(old(t), id, actor, i, name, created)
      ensures out.Ok? ==> forall x :: (x, i) !in held
      ensures calm ==> (out.Ok? <==> MayBegin(old(t), id, actor, i, name, created)) && !out.Crash?
    {
      out := Ok;
      :- BeginCleanup(calm, id, actor, i, name, created);
      out := ProveGone(calm, old(t), id, actor, i, name, created);
    }

    /** A deletion that was only admitted is recorded as failed. */
    method CloseRefused(calm: bool, id: RequestID, actor: Actor) returns (out: Outcome)
      requires Valid()
      modifies this`t, this`log
      ensures Grows(old(log), log)
      ensures Valid() && Advances(old(t), t) && SameRows(old(t), t) && !out.Ok?
      ensures id in old(t).requests && old(t).requests[id].phase != Admitted ==> t == old(t)
      ensures calm && id in old(t).requests && old(t).requests[id].binding.actor == actor && old(t).requests[id].phase == Admitted ==>
                id in t.requests && t.requests[id].phase == Failed && t.requests[id].exitCode == 75
      ensures calm ==> !out.Crash?
    {
      out := Err;
      if id in t.requests && t.requests[id].phase == Admitted {
        var closing, finished := Finish(calm, id, actor, 75);
        out := if closing.Crash? then Crash else Err;
      }
    }

    /** A request that failed before the fence was taken is closed; `calmClose` keeps faults out
        of that write alone. */
    method DeleteOrClose(calm: bool, calmClose: bool, id: RequestID, actor: Actor, i: InstanceID, name: Name, created: nat) returns (out: Outcome)
      requires Valid() && id in t.requests
      modifies this
      ensures Grows(old(log), log)
      ensures Valid() && Advances(old(t), t) && SameRows(old(t), t)
      ensures out.Ok? ==> Vanished(t, held, id, actor, i, name, created)
      ensures calm && MayBegin(old(t), id, actor, i, name, created) ==> out.Ok?
      ensures calm && calmClose ==> !out.Crash?
      ensures calmClose && out.Err? && old(t).requests[id].binding.actor == actor ==> id in t.requests && t.requests[id].phase != Admitted
    {
      out := DeleteWithProof(calm, id, actor, i, name, created);
      if out.Err? {
        ghost var attempt := t;
        out := CloseRefused(calmClose, id, actor);
        AdvancesTransitive(old(t), attempt, t);
      }
    }

    /** Admits the request, or finds it admitted, and deletes exactly the row it is bound to. */
    method DeleteAdmitted(calm: bool, calmClose: bool, id: RequestID, actor: Actor, i: InstanceID, name: Name, created: nat) returns (out: Outcome)
      requires Valid()
      modifies this
      ensures Grows(old(log), log)
      ensures Valid() && Advances(old(t), t) && SameRows(old(t), t)
      ensures out.Ok? ==> id in t.requests && t.requests[id].binding == Binding(actor, DeleteProof, name, i, 0)
      ensures out.Ok? ==> Vanished(t, held, id, actor, i, name, created)
      ensures i !in old(t).instances || old(t).instances[i].name != name || old(t).instances[i].created != created ==> out == Err && t == old(t)
      ensures calmClose && out.Err? && id in old(t).requests && old(t).requests[id].binding == Binding(actor, DeleteProof, name, i, 0)
              && i in old(t).instances && old(t).instances[i].name == name && old(t).instances[i].created == created ==>
                id in t.requests && t.requests[id].phase != Admitted
      ensures calm && Retriable(old(t), id, actor, i, name, created) && id !in old(t).receipts ==> out.Ok?
      ensures calm && calmClose ==> !out.Crash?
    {
      if i !in t.instances || t.instances[i].name != name || t.instances[i].created != created {
        return Err;
      }
      FenceIffDeleting(t, i);
      var admitted;
      out, admitted := Admit(calm, id, Binding(actor, DeleteProof, name, i, 0));
      if out.Ok? {
        ghost var admission := t;
        out := DeleteOrClose(calm, calmClose, id, actor, i, name, created);
        AdvancesTransitive(old(t), admission, t);
      }
    }

    /** The bound form of delete: a repeated request returns its receipt, and a request that
        failed before the fence was taken is closed. */
    method DeleteExpected(calm: bool, calmClose: bool, id: RequestID, actor: Actor, i: InstanceID, name: Name, created: nat) returns (out: Outcome)
      requires Valid()
      modifies this
      ensures Grows(old(log), log)
      ensures Valid() && Advances(old(t), t)
      ensures SameRows(old(t), t)
      ensures out.Ok? ==> id in t.receipts && t.requests[id].binding == Binding(actor, DeleteProof, name, i, 0)
      ensures id in old(t).requests && old(t).requests[id].binding != Binding(actor, DeleteProof, name, i, 0) ==> out == Err && t == old(t)
      ensures id in old(t).receipts && old(t).requests[id].binding == Binding(actor, DeleteProof, name, i, 0) ==> out.Ok? && t == old(t)
      ensures calmClose && out.Err? && id in old(t).requests && old(t).requests[id].binding == Binding(actor, DeleteProof, name, i, 0)
              && i in old(t).instances && old(t).instances[i].name == name && old(t).instances[i].created == created ==>
                id in t.requests && t.requests[id].phase != Admitted
      ensures out.Ok? ==> if id in old(t).receipts then t == old(t) else Vanished(t, held, id, actor, i, name, created)
      ensures calm && Retriable(old(t), id, actor, i, name, created) ==> out.Ok?
      ensures calm && calmClose ==> !out.Crash?
    {
      var b := Binding(actor, DeleteProof, name, i, 0);
      if id in t.requests {
        if t.requests[id].binding != b {
          return Err;
        }
        if id in t.receipts {
          return Ok;
        }
      }
      out := DeleteAdmitted(calm, calmClose, id, actor, i, name, created);
    }

    /** Whatever the service and its callers do next. */
    method Step(calm: bool)
      requires Valid()
      modifies this
      ensures Grows(old(log), log)
      ensures Valid() && Advances(old(t), t)
    {
      var id: RequestID, actor: Actor, b: Binding, exitCode: int, i: InstanceID, name: Name, created: nat, s: State, x: Resource, orb: bool := *, *, *, *, *, *, *, *, *, *;
      var op: nat := *;
      var out, flag := Ok, false;
      if
      case op == 0 && !b.command.Bootstrap? => out, flag := Admit(calm, id, b);
      case op == 1 && (id in t.requests ==> !Deletes(t.requests[id].binding.command)) => out := Begin(calm, id, actor);
      case op == 2 && !Strands(t, id, actor) =>
        out, flag := Finish(calm, id, actor, exitCode);
      case op == 3 => out := RejectStart(calm, id, actor);
      case op == 4 => out := Interrupt(calm);
      case op == 5 && !b.command.Bootstrap? => out := Cancel(calm, id, b);
      case op == 6 && b.command.Bootstrap? => out := AdmitBootstrap(calm, id, b);
      case op == 7 && i !in t.used => out := CreateInstance(calm, i, name, created, orb);
      case op == 8 && s != Deleting && s != Deleted => out := UpdateState(calm, i, s);
      case op == 9 => out := DeleteInstance(calm, i);
      case op == 10 => out := BeginCleanup(calm, id, actor, i, name, created);
      case op == 11 => out := DeleteWithProof(calm, id, actor, i, name, created);
      case op == 12 => out := Acquire(x, i);
      case op == 13 => out := DeleteExpected(calm, false, id, actor, i, name, created);
      case true =>
    }

    /** Every run, of any length, over any schedule, faults and restarts: no start, stop or
        bootstrap executes twice, and no ID is ever bound to a second operation. */
    method Run(steps: nat) returns (ghost trace: seq<Tables>)
      requires Valid()
      modifies this
      ensures Grows(old(log), log)
      ensures Valid()
      ensures |trace| == steps + 1 && trace[0] == old(t) && trace[steps] == t && History(trace)
      ensures forall id | id in t.requests && !Deletes(t.requests[id].binding.command) :: Entries(trace, id) <= 1
      ensures forall k, id | 0 <= k < |trace| && id in trace[k].requests :: id in t.requests && t.requests[id].binding == trace[k].requests[id].binding
    {
      trace := [t];
      for n := 0 to steps
        invariant Valid() && Grows(old(log), log) && |trace| == n + 1 && trace[0] == old(t) && trace[n] == t && History(trace)
        invariant forall k, id | 0 <= k < |trace| && id in trace[k].requests :: id in t.requests && t.requests[id].binding == trace[k].requests[id].binding
      {
        ghost var was := t;
        Step(false);
        trace := trace + [t];
        assert trace[n] == was;
      }
      forall id | id in t.requests && !Deletes(t.requests[id].binding.command)
        ensures Entries(trace, id) <= 1
      {
        ExecutesAtMostOnce(trace, id);
      }
    }
  }
}
