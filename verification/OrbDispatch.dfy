/** The dispatcher of one orb: a durable record, jobs that are serialised by a lock, and a
    backend that other clients use too.  A command sent to the backend may be lost, answered
    or not, or take effect long after the job that sent it has ended. */
module OrbDispatch {
  import opened Faults
  import S = LifecycleStore

  const MAX_GENERATION := 0x7fff_ffff_ffff_ffff

  datatype Operation = Spawn | Pause | Delete | Bind | Cancel

  predicate ByProvider(op: Operation) {
    op == Spawn || op == Pause || op == Delete
  }

  datatype Stage = New | Creating | Managed | Deleting | Deleted

  datatype Record = Record(
    previous: Option<S.InstanceID>, stage: Stage, instance: Option<S.InstanceID>, created: nat,
    pending: Option<S.Command>, request: Option<S.RequestID>, generation: Option<int>, floor: int)

  /** What the backend reports about an instance. */
  datatype View = View(id: S.InstanceID, created: nat, state: S.State, generation: int)

  datatype CreateReply = Created | Rejected | Unknown

  /** `unanswered` are creates that may still arrive, `bootstraps` every bootstrap ever sent:
      one may arrive at any time, and more than once.  `born` are the orb's instances ever
      created, with the name each was created under; `previous` is the predecessor named by
      the last record, even when that record was lost. */
  datatype Ledger = Ledger(
    record: Option<Record>, locked: bool, proofs: map<S.Name, S.Receipt>,
    unanswered: set<S.Name>, bootstraps: set<(S.RequestID, S.Binding)>,
    born: map<S.InstanceID, S.Name>, previous: Option<S.InstanceID>)

  const BLANK := Record(None, New, None, 0, None, None, None, 0)

  const UNUSED := Ledger(None, false, map[], {}, {}, map[], None)

  function Current(orb: nat, l: Ledger): S.Name {
    S.OrbName(orb, l.previous)
  }

  function Put(l: Ledger, r: Record): Ledger {
    l.(record := Some(r), previous := r.previous)
  }

  // ---- What holds between any two durable effects ----

  ghost predicate Receipted(t: S.Tables, i: S.InstanceID) {
    exists q :: q in t.receipts && t.receipts[q].instance == i
  }

  predicate BornCurrent(orb: nat, l: Ledger, i: S.InstanceID) {
    i in l.born && l.born[i] == Current(orb, l)
  }

  predicate Unborn(l: Ledger, n: S.Name) {
    forall i | i in l.born :: l.born[i] != n
  }

  /** A predecessor named anywhere is an older instance of this orb. */
  predicate Older(orb: nat, l: Ledger, p: Option<S.InstanceID>) {
    p.Some? ==> p.value in l.born && l.born[p.value] != Current(orb, l)
  }

  ghost predicate Birth(orb: nat, l: Ledger, t: S.Tables, i: S.InstanceID)
    requires i in l.born
  {
    && l.born[i].OrbName? && l.born[i].orb == orb && Older(orb, l, l.born[i].previous)
    && i in t.used && i in t.generations
    && (i in t.instances ==> t.instances[i].name == l.born[i])
    && (l.born[i] != Current(orb, l) ==> Receipted(t, i))
  }

  /** The first instance of an orb has no predecessor. */
  ghost predicate Rooted(orb: nat, born: map<S.InstanceID, S.Name>) {
    born != map[] ==> exists i | i in born :: born[i] == S.OrbName(orb, None)
  }

  ghost predicate Births(orb: nat, l: Ledger, t: S.Tables) {
    && (forall i | i in t.instances && t.instances[i].name.OrbName? && t.instances[i].name.orb == orb :: i in l.born)
    && (forall i | i in l.born :: Birth(orb, l, t, i))
    && (forall i, j | i in l.born && j in l.born && i != j :: l.born[i] != l.born[j])
    && Older(orb, l, l.previous) && Rooted(orb, l.born)
  }

  /** Nothing was ever created for the orb, and nothing may still be. */
  predicate Untouched(l: Ledger) {
    l.born == map[] && l.unanswered == {}
  }

  predicate Sent(orb: nat, l: Ledger, b: S.Binding) {
    && b.command == S.Bootstrap && b.subject in l.born
    && (l.record.Some? && BornCurrent(orb, l, b.subject) ==> l.record.value.instance == Some(b.subject))
  }

  /** A create can only be on its way for the current name, and only before it was used. */
  ghost predicate Travelling(orb: nat, l: Ledger) {
    && (forall n | n in l.unanswered :: n == Current(orb, l) && Unborn(l, n))
    && (forall m | m in l.bootstraps :: Sent(orb, l, m.1))
  }

  /** The bootstrap counters: the record brackets the backend, and with no bootstrap
      pending all three agree. */
  ghost predicate Sandwich(t: S.Tables, i: S.InstanceID, r: Record) {
    && r.generation.Some? && i in t.generations
    && 0 <= r.floor <= t.generations[i] <= r.generation.value <= MAX_GENERATION
    && (r.pending != Some(S.Bootstrap) ==> r.floor == r.generation.value)
  }

  ghost predicate Bound(orb: nat, l: Ledger, t: S.Tables, r: Record) {
    && r.instance.Some? && BornCurrent(orb, l, r.instance.value)
    && Sandwich(t, r.instance.value, r)
    && (forall m | m in l.bootstraps && m.1.subject == r.instance.value :: m.1.generation <= r.generation.value)
    && (r.pending.Some? ==> r.pending.value in {S.Start, S.Stop, S.Bootstrap} && r.request.Some?)
    && (r.stage == Deleting ==> r.request.Some?)
    && (r.stage == Deleted ==> Receipted(t, r.instance.value))
  }

  ghost predicate Unbound(orb: nat, l: Ledger, t: S.Tables, r: Record) {
    && r.instance.None? && r.pending.None? && r.generation.None? && r.floor == 0
    && (r.stage == New ==> Current(orb, l) !in l.unanswered && Unborn(l, Current(orb, l)))
    && (forall i | BornCurrent(orb, l, i) :: i in t.generations && t.generations[i] == 0)
  }

  ghost predicate Tracks(orb: nat, l: Ledger, t: S.Tables, r: Record) {
    && r.previous == l.previous
    && if r.stage == New || r.stage == Creating then Unbound(orb, l, t, r) else Bound(orb, l, t, r)
  }

  ghost predicate Sound(orb: nat, l: Ledger, t: S.Tables) {
    && (!l.locked ==> l == UNUSED.(previous := l.previous, proofs := l.proofs) && l.previous.None?)
    && Births(orb, l, t) && Travelling(orb, l)
    && (forall n | n in l.proofs :: l.proofs[n].request in t.receipts && t.receipts[l.proofs[n].request] == l.proofs[n])
    && (l.record.Some? ==> Tracks(orb, l, t, l.record.value))
  }

  // ---- The main results ----

  /** At most one VM of the orb is not deleted, and every other one that ever existed has
      given back everything it held. */
  lemma OneVM(orb: nat, l: Ledger, t: S.Tables, held: S.World, i: S.InstanceID, j: S.InstanceID)
    requires Sound(orb, l, t) && S.Sound(t) && S.Vouched(t, held)
    requires i in l.born && j in l.born && i != j
    ensures Receipted(t, i) || Receipted(t, j)
    ensures i in t.instances && j in t.instances ==> t.instances[i].state == S.Deleted || t.instances[j].state == S.Deleted
    ensures (forall x :: (x, i) !in held) || (forall x :: (x, j) !in held)
  {
    var old_ := if l.born[i] == Current(orb, l) then j else i;
    assert Birth(orb, l, t, old_);
    var q :| q in t.receipts && t.receipts[q].instance == old_;
    assert S.ProperReceipt(t, q, t.receipts[q]);
    forall x
      ensures (x, old_) !in held
    {
      S.EveryResource(x);
      assert (x, t.receipts[q].instance) !in held;
    }
  }

  /** Each name is created at most once, and a name that replaces an incarnation exists only
      when that incarnation has its cleanup receipt. */
  lemma CreatedOnce(orb: nat, l: Ledger, t: S.Tables, i: S.InstanceID, j: S.InstanceID)
    requires Sound(orb, l, t) && i in l.born && j in l.born
    ensures l.born[i] == l.born[j] ==> i == j
    ensures l.born[i].previous.Some? ==> Receipted(t, l.born[i].previous.value)
    ensures l.record.Some? && l.record.value.previous.Some? ==> Receipted(t, l.record.value.previous.value)
  {
  }

  /** With no bootstrap pending no bootstrap still on its way can be admitted, now or ever,
      until a newer one is sent. */
  lemma NothingLateIsAdmitted(orb: nat, l: Ledger, t: S.Tables, later: S.Tables, q: S.RequestID, b: S.Binding)
    requires Sound(orb, l, t) && (q, b) in l.bootstraps && S.Advances(t, later)
    requires l.record.Some? && l.record.value.instance == Some(b.subject)
    ensures l.record.value.pending != Some(S.Bootstrap) ==> b.subject in later.generations && later.generations[b.subject] >= b.generation
    ensures b.generation <= l.record.value.generation.value
  {
  }

  /** A crash between lock and first record leaves a sound ledger, refused to every job that
      looks afterwards. */
  lemma LockAloneIsSound(orb: nat)
    ensures Sound(orb, UNUSED.(locked := true), S.EMPTY) && S.Sound(S.EMPTY)
  {
  }

  ghost predicate LiveVM(orb: nat, t: S.Tables, i: S.InstanceID) {
    i in t.instances && t.instances[i].name.OrbName? && t.instances[i].name.orb == orb && t.instances[i].state != S.Deleted
  }

  lemma OneLiveVM(orb: nat, l: Ledger, t: S.Tables, held: S.World)
    requires Sound(orb, l, t) && S.Sound(t) && S.Vouched(t, held)
    ensures forall i, j | LiveVM(orb, t, i) && LiveVM(orb, t, j) :: i == j
    ensures forall i, j, x, y | i in l.born && j in l.born && (x, i) in held && (y, j) in held :: i == j
  {
    forall i, j | LiveVM(orb, t, i) && LiveVM(orb, t, j)
      ensures i == j
    {
      if i != j {
        OneVM(orb, l, t, held, i, j);
      }
    }
    forall i, j, x, y | i in l.born && j in l.born && (x, i) in held && (y, j) in held
      ensures i == j
    {
      if i != j {
        OneVM(orb, l, t, held, i, j);
      }
    }
  }

  /** A job that looked before the lock existed and finds no record behind it writes a blank
      one.  That is safe exactly when the orb is untouched, however the record got lost. */
  lemma EarlyJobIsSafeIff(orb: nat, l: Ledger, t: S.Tables)
    requires Sound(orb, l, t) && l.record.None? && l.locked
    ensures Sound(orb, Put(l, BLANK), t) <==> Untouched(l)
  {
    var n := Put(l, BLANK);
    if Sound(orb, n, t) {
      assert Unborn(n, S.OrbName(orb, None));
      assert n.unanswered <= {Current(orb, n)};
    }
  }

  /** An orb with a deleted first VM 1 and a live successor 2 whose record was lost. */
  function LostLedger(orb: nat): Ledger {
    UNUSED.(locked := true, born := map[1 := S.OrbName(orb, None), 2 := S.OrbName(orb, Some(1))], previous := Some(1))
  }

  function LostTables(orb: nat): S.Tables {
    S.Tables(
      map[1 := S.Request(S.Binding(0, S.Delete, S.OrbName(orb, None), 0, 0), S.Done, 0)],
      map[2 := S.Row(S.OrbName(orb, Some(1)), 0, S.Ready)], map[],
      map[1 := S.Receipt(1, 0, 1, S.OrbName(orb, None), 0, S.EVERYTHING)], map[1 := 0, 2 := 0], {1, 2})
  }

  lemma LostSoundly(orb: nat)
    ensures Sound(orb, LostLedger(orb), LostTables(orb))
  {
    assert LostLedger(orb).born[1] == S.OrbName(orb, None);
    assert LostTables(orb).receipts[1].instance == 1;
  }

  /** There an early job writes a blank record and can create the first VM again, beside the
      successor. */
  lemma EarlyJobCanRecreate(orb: nat)
    ensures var l, t := LostLedger(orb), LostTables(orb);
            var n := Put(l, BLANK);
            && S.Sound(t) && Sound(orb, l, t) && l.record.None? && l.locked && !Sound(orb, n, t)
            && 3 !in t.used && (forall i | i in t.instances :: t.instances[i].name != Current(orb, n))
            && LiveVM(orb, S.Created(t, 3, Current(orb, n), 0, true), 2)
            && LiveVM(orb, S.Created(t, 3, Current(orb, n), 0, true), 3)
  {
    LostSoundly(orb);
    EarlyJobIsSafeIff(orb, LostLedger(orb), LostTables(orb));
  }

  // ---- What others may do ----

  /** The backend as seen by other clients: they never use this orb's names or counters. */
  ghost predicate Elsewhere(orb: nat, l: Ledger, a: S.Tables, b: S.Tables) {
    && S.Advances(a, b)
    && (forall i | i in b.instances && (i in a.used || (b.instances[i].name.OrbName? && b.instances[i].name.orb == orb)) ::
          i in a.instances && a.instances[i].name == b.instances[i].name)
    && (forall i | i in l.born && i in a.generations :: b.generations[i] == a.generations[i])
  }

  lemma ElsewhereSound(orb: nat, l: Ledger, a: S.Tables, b: S.Tables)
    requires Sound(orb, l, a) && Elsewhere(orb, l, a, b)
    ensures Sound(orb, l, b)
  {
  }

  function Delivered(orb: nat, l: Ledger, i: S.InstanceID): Ledger {
    l.(born := l.born[i := Current(orb, l)], unanswered := l.unanswered - {Current(orb, l)})
  }

  lemma BirthUnbound(orb: nat, l: Ledger, a: S.Tables, b: S.Tables, i: S.InstanceID, r: Record)
    requires Unbound(orb, l, a, r) && r.stage == Creating && b.generations == a.generations[i := 0]
    ensures Unbound(orb, Delivered(orb, l, i), b, r)
  {
  }

  /** What a job can rely on while it waits for the network or the disk: its own record is
      under its lock, late creates and bootstraps arrive, other clients use the backend. */
  ghost predicate Rely(l0: Ledger, t0: S.Tables, l: Ledger, t: S.Tables) {
    && l == l0.(unanswered := l.unanswered, born := l.born) && l.unanswered <= l0.unanswered
    && (forall i | i in l0.born :: i in l.born && l.born[i] == l0.born[i])
    && (forall i | i in l.born && i !in l0.born :: l.born[i] in l0.unanswered)
    && S.Advances(t0, t)
  }

  lemma BirthRely(orb: nat, l: Ledger, a: S.Tables, b: S.Tables, i: S.InstanceID)
    requires S.Advances(a, b) && i !in l.born
    ensures Rely(l.(unanswered := l.unanswered + {Current(orb, l)}), a, Delivered(orb, l, i), b)
  {
  }

  lemma BirthTravelling(orb: nat, l: Ledger, i: S.InstanceID)
    requires Travelling(orb, l) && Unborn(l, Current(orb, l)) && i !in l.born
    ensures Travelling(orb, Delivered(orb, l, i))
  {
  }

  lemma BirthUnique(l: Ledger, n: Ledger, i: S.InstanceID, name: S.Name)
    requires Unborn(l, name) && n.born == l.born[i := name]
    requires forall j, k | j in l.born && k in l.born && j != k :: l.born[j] != l.born[k]
    ensures forall j, k | j in n.born && k in n.born && j != k :: n.born[j] != n.born[k]
  {
  }

  lemma BirthRooted(orb: nat, l: Ledger, n: Ledger, i: S.InstanceID)
    requires Rooted(orb, l.born) && Older(orb, l, l.previous) && i !in l.born && n.born == l.born[i := Current(orb, l)]
    ensures Rooted(orb, n.born)
  {
    if l.previous.None? {
      assert n.born[i] == S.OrbName(orb, None);
    } else {
      assert l.previous.value in l.born;
      var j :| j in l.born && l.born[j] == S.OrbName(orb, None);
      assert n.born[j] == l.born[j];
    }
  }

  lemma BirthKept(orb: nat, l: Ledger, a: S.Tables, n: Ledger, b: S.Tables, j: S.InstanceID)
    requires j in l.born && Birth(orb, l, a, j) && Unborn(l, Current(orb, l))
    requires a.used <= b.used && a.generations.Keys <= b.generations.Keys && a.receipts == b.receipts
    requires n.previous == l.previous && j in n.born && n.born[j] == l.born[j]
    requires forall k | k in l.born :: k in n.born && n.born[k] == l.born[k]
    requires j in b.instances ==> j in a.instances && b.instances[j].name == a.instances[j].name
    ensures Birth(orb, n, b, j)
  {
  }

  lemma BirthIsNew(orb: nat, l: Ledger, a: S.Tables, i: S.InstanceID)
    requires Births(orb, l, a) && i !in a.used
    ensures i !in l.born
  {
    assert i in l.born ==> Birth(orb, l, a, i);
  }

  lemma BirthRows(orb: nat, l: Ledger, a: S.Tables, n: Ledger, b: S.Tables, i: S.InstanceID)
    requires Births(orb, l, a) && n.born == l.born[i := Current(orb, l)] && b.instances.Keys == a.instances.Keys + {i}
    requires forall j | j in a.instances && j != i :: b.instances[j] == a.instances[j]
    ensures forall k | k in b.instances && b.instances[k].name.OrbName? && b.instances[k].name.orb == orb :: k in n.born
  {
    forall k | k in b.instances && b.instances[k].name.OrbName? && b.instances[k].name.orb == orb
      ensures k in n.born
    {
      assert k != i ==> b.instances[k] == a.instances[k];
    }
  }

  lemma BirthNew(orb: nat, l: Ledger, n: Ledger, b: S.Tables, i: S.InstanceID)
    requires Older(orb, l, l.previous) && i !in l.born
    requires n.born == l.born[i := Current(orb, l)] && n.previous == l.previous
    requires i in b.instances && b.instances[i].name == Current(orb, l) && i in b.used && i in b.generations
    ensures Birth(orb, n, b, i)
  {
  }

  lemma BirthBirths(orb: nat, l: Ledger, a: S.Tables, n: Ledger, b: S.Tables, i: S.InstanceID)
    requires Births(orb, l, a) && Unborn(l, Current(orb, l)) && i !in a.used
    requires a.used <= b.used && a.generations.Keys <= b.generations.Keys && a.receipts == b.receipts
    requires n.born == l.born[i := Current(orb, l)] && n.previous == l.previous
    requires b.instances.Keys == a.instances.Keys + {i} && b.instances[i].name == Current(orb, l)
    requires forall j | j in a.instances && j != i :: b.instances[j] == a.instances[j]
    requires i in b.used && i in b.generations
    ensures Births(orb, n, b) && i !in l.born
  {
    BirthIsNew(orb, l, a, i);
    BirthRows(orb, l, a, n, b, i);
    forall j | j in n.born
      ensures Birth(orb, n, b, j)
    {
      if j == i {
        BirthNew(orb, l, n, b, i);
      } else {
        BirthKept(orb, l, a, n, b, j);
      }
    }
    BirthUnique(l, n, i, Current(orb, l));
    BirthRooted(orb, l, n, i);
  }

  /** A create arrives, in time or late: its name was never used before. */
  lemma BirthSound(orb: nat, l: Ledger, a: S.Tables, b: S.Tables, i: S.InstanceID, created: nat)
    requires Sound(orb, l, a) && S.Named(a)
    requires l.record.Some? ==> l.record.value.stage == Creating
    requires l.locked && Unborn(l, Current(orb, l)) && i !in a.used
    requires b == S.Created(a, i, Current(orb, l), created, true)
    ensures Sound(orb, Delivered(orb, l, i), b) && i !in l.born
  {
    var n := Delivered(orb, l, i);
    BirthBirths(orb, l, a, n, b, i);
    BirthTravelling(orb, l, i);
    if l.record.Some? {
      BirthUnbound(orb, l, a, b, i, l.record.value);
    }
  }

  lemma TravelsSound(orb: nat, l: Ledger, t: S.Tables)
    requires Sound(orb, l, t) && l.record.Some? && l.record.value.stage == Creating && Unborn(l, Current(orb, l))
    ensures Sound(orb, l.(unanswered := l.unanswered + {Current(orb, l)}), t)
  {
  }

  lemma LostSound(orb: nat, l: Ledger, t: S.Tables)
    requires Sound(orb, l, t) && l.locked
    ensures var n := l.(unanswered := l.unanswered - {Current(orb, l)});
            Sound(orb, n, t) && Rely(l.(unanswered := l.unanswered + {Current(orb, l)}), t, n, t)
  {
  }

  /** A bootstrap arrives, in time or late. */
  lemma BootstrapSound(orb: nat, l: Ledger, a: S.Tables, b: S.Tables, m: (S.RequestID, S.Binding))
    requires Sound(orb, l, a) && m in l.bootstraps && S.Advances(a, b)
    requires m.1.subject in a.generations && a.generations[m.1.subject] < m.1.generation
    requires b == a.(requests := b.requests, generations := a.generations[m.1.subject := m.1.generation])
    ensures Sound(orb, l, b)
  {
  }

  lemma RelyTransitive(l0: Ledger, t0: S.Tables, l1: Ledger, t1: S.Tables, l2: Ledger, t2: S.Tables)
    requires Rely(l0, t0, l1, t1) && Rely(l1, t1, l2, t2)
    ensures Rely(l0, t0, l2, t2)
  {
  }

  // ---- What a job sees and achieves ----

  predicate Free(t: S.Tables, n: S.Name) {
    forall j | j in t.instances :: t.instances[j].name != n
  }

  /** The row of the current name. */
  predicate Here(orb: nat, l: Ledger, t: S.Tables, i: S.InstanceID) {
    i in t.instances && t.instances[i].name == Current(orb, l)
  }

  function ViewOf(t: S.Tables, i: S.InstanceID): View
    requires i in t.instances && i in t.generations
  {
    View(i, t.instances[i].created, t.instances[i].state, t.generations[i])
  }

  /** The report is what these tables say. */
  predicate Shows(orb: nat, l: Ledger, t: S.Tables, v: View) {
    Here(orb, l, t, v.id) && v.id in t.generations && v == ViewOf(t, v.id)
  }

  /** The current name has a row that is no tombstone. */
  predicate Standing(orb: nat, l: Ledger, t: S.Tables) {
    exists i | i in t.instances :: t.instances[i].name == Current(orb, l) && t.instances[i].state != S.Deleted
  }

  /** A VM just created, and nothing else. */
  predicate Newborn(orb: nat, l: Ledger, before: S.Tables, t: S.Tables, i: S.InstanceID) {
    && Here(orb, l, t, i) && t.instances[i].state == S.Provisioning && i in t.generations && t.generations[i] == 0
    && t.requests == before.requests
  }

  lemma NewbornSeen(orb: nat, l: Ledger, before: S.Tables, t: S.Tables, v: Option<View>)
    requires S.Named(t) && exists i :: Newborn(orb, l, before, t, i)
    requires (v.Some? <==> Standing(orb, l, t)) && (v.Some? ==> Shows(orb, l, t, v.value))
    ensures v.Some? && v.value.state == S.Provisioning && v.value.generation == 0 && t.requests == before.requests
  {
    var i :| Newborn(orb, l, before, t, i);
    assert Here(orb, l, t, i);
  }

  lemma OneRow(orb: nat, l: Ledger, t: S.Tables, i: S.InstanceID, j: S.InstanceID)
    requires S.Named(t) && Here(orb, l, t, i) && Here(orb, l, t, j)
    ensures i == j
  {
  }

  /** Where a completed start or stop leaves the machine. */
  function After(c: S.Command): S.State {
    if c == S.Stop then S.Stopped else S.AwaitingGuest
  }

  predicate OperatedAs(a: S.Tables, b: S.Tables, q: S.RequestID, binding: S.Binding) {
    && binding.subject in a.instances
    && b.requests == a.requests[q := S.Request(binding, S.Done, 0)] && b.generations == a.generations
    && b.instances == a.instances[binding.subject := a.instances[binding.subject].(state := After(binding.command))]
  }

  predicate Matches(r: Record, v: View) {
    && r.instance == Some(v.id) && r.created == v.created
    && r.generation.Some? && r.floor <= v.generation <= r.generation.value
    && (r.pending != Some(S.Bootstrap) ==> v.generation == r.generation.value)
  }

  /** The record is bound to the row of its name, and the two agree. */
  predicate Bindable(orb: nat, l: Ledger, t: S.Tables, r: Record) {
    && r.stage == Managed && r.instance.Some? && Here(orb, l, t, r.instance.value) && r.instance.value in t.generations
    && Matches(r, ViewOf(t, r.instance.value))
  }

  predicate Coming(s: S.State) {
    s == S.Ready || s == S.Provisioning || s == S.AwaitingGuest
  }

  /** The recorded guest is coming up, or is up. */
  predicate Awaited(orb: nat, l: Ledger, t: S.Tables, r: Record) {
    Bindable(orb, l, t, r) && Coming(t.instances[r.instance.value].state)
  }

  /** Fresh request IDs for one job. */
  predicate Unused(t: S.Tables, q: S.RequestID, q2: S.RequestID) {
    q !in t.requests && q2 !in t.requests && q != q2
  }

  predicate Spawnable(orb: nat, l: Ledger, t: S.Tables, r: Record) {
    Bindable(orb, l, t, r) && r.generation.value < MAX_GENERATION
    && (Coming(t.instances[r.instance.value].state) || t.instances[r.instance.value].state == S.Stopped)
  }

  predicate Stoppable(orb: nat, l: Ledger, t: S.Tables, r: Record) {
    Bindable(orb, l, t, r) && t.instances[r.instance.value].state != S.Deleting && t.instances[r.instance.value].state != S.Deleted
  }

  lemma StoppableIsDeletable(orb: nat, l: Ledger, t: S.Tables, r: Record)
    requires Stoppable(orb, l, t, r)
    ensures r.instance.value in t.instances && S.Deletable(t.instances[r.instance.value], Current(orb, l), r.created)
  {
  }

  /** What a calm job can do for a VM that is there. */
  predicate Performable(op: Operation, orb: nat, l: Ledger, t: S.Tables, r: Record) {
    && r.pending.None?
    && match op
       case Spawn => Spawnable(orb, l, t, r)
       case Pause => Stoppable(orb, l, t, r)
       case Delete => Stoppable(orb, l, t, r) && Current(orb, l) !in l.proofs
       case Bind => Stoppable(orb, l, t, r)
       case Cancel => false
  }

  /** A record whose VM is still to be created. */
  predicate Awaits(r: Record) {
    r.stage == New && r.instance.None? && r.pending.None?
  }

  /** A record without a VM, for a name that no row has. */
  predicate Creatable(op: Operation, orb: nat, l: Ledger, t: S.Tables, r: Record) {
    ByProvider(op) && Awaits(r) && Free(t, Current(orb, l))
  }

  /** The receipt is complete and is about exactly the recorded incarnation and request. */
  predicate Validates(orb: nat, r: Record, p: S.Receipt) {
    && r.request == Some(p.request) && r.instance == Some(p.instance)
    && p.name == S.OrbName(orb, r.previous) && p.created == r.created && p.absent == S.EVERYTHING
  }

  /** The archived receipt lets a deleted record have a successor. */
  predicate Archived(orb: nat, l: Ledger, r: Record) {
    Current(orb, l) in l.proofs && Validates(orb, r, l.proofs[Current(orb, l)])
  }

  /** A receipt that ends the deletion of the recorded incarnation, and no other is saved. */
  ghost predicate Proves(orb: nat, l: Ledger, t: S.Tables, r: Record, q: S.RequestID) {
    && q in t.receipts && Validates(orb, r.(request := Some(q)), t.receipts[q])
    && (Current(orb, l) in l.proofs ==> l.proofs[Current(orb, l)] == t.receipts[q])
  }

  /** An incarnation has one receipt. */
  lemma OneProof(orb: nat, l: Ledger, t: S.Tables, r: Record, p: S.Receipt)
    requires S.Sound(t) && exists q :: Proves(orb, l, t, r, q)
    ensures r.instance.Some? && Receipted(t, r.instance.value)
    ensures p.request in t.receipts && t.receipts[p.request] == p && p.instance == r.instance.value ==> Proves(orb, l, t, r, p.request)
  {
    var q :| Proves(orb, l, t, r, q);
    assert q in t.receipts && t.receipts[q].instance == r.instance.value;
  }

  /** A deletion that a calm run finishes: somebody's receipt is there, or the request can go
      on. */
  ghost predicate Endable(orb: nat, me: S.Actor, l: Ledger, t: S.Tables, r: Record) {
    && r.request.Some? && r.instance.Some?
    && ((r.request.value in t.receipts && t.receipts[r.request.value].actor == me && Proves(orb, l, t, r, r.request.value))
        || (r.request.value !in t.receipts && exists q :: Proves(orb, l, t, r, q))
        || (r.request.value !in t.receipts && Current(orb, l) !in l.proofs
            && S.Retriable(t, r.request.value, me, r.instance.value, Current(orb, l), r.created)))
  }

  /** An incarnation has one receipt, and it stays. */
  lemma AnothersReceipt(orb: nat, me: S.Actor, l: Ledger, t: S.Tables, n: S.Tables, r: Record, p: S.Receipt)
    requires S.Sound(n) && S.Advances(t, n) && Endable(orb, me, l, t, r) && r.request.value !in t.receipts
    requires !S.Retriable(t, r.request.value, me, r.instance.value, Current(orb, l), r.created)
    ensures Receipted(n, r.instance.value)
    ensures p.request in n.receipts && n.receipts[p.request] == p && p.instance == r.instance.value ==> Proves(orb, l, n, r, p.request)
  {
    var q :| Proves(orb, l, t, r, q);
    assert Proves(orb, l, n, r, q);
    OneProof(orb, l, n, r, p);
  }

  /** The VM is gone, and there is a receipt for it. */
  ghost predicate Releasable(op: Operation, orb: nat, l: Ledger, t: S.Tables, r: Record) {
    && ByProvider(op) && r.stage == Managed && !Standing(orb, l, t) && (exists q :: Proves(orb, l, t, r, q))
    && (op == Spawn ==> Free(t, S.OrbName(orb, r.instance)))
  }

  /** The record was released over a receipt that is saved now. */
  ghost predicate Left(orb: nat, was: Ledger, l: Ledger, before: S.Tables, t: S.Tables, r: Record, r2: Record) {
    r2 == r.(stage := Deleted, request := r2.request) && Archived(orb, l, r2) && Current(orb, l) == Current(orb, was) && t == before
  }

  /** The receipt says that exactly this operation has come to an end. */
  predicate Terminal(t: S.Tables, q: S.RequestID, b: S.Binding) {
    && q in t.requests && t.requests[q].binding == b
    && ((t.requests[q].phase in {S.Done, S.Cancelled} && t.requests[q].exitCode == 0)
        || (t.requests[q].phase == S.Rejected && t.requests[q].exitCode != 0 && b.command == S.Start))
  }

  function OperationOf(orb: nat, me: S.Actor, r: Record): S.Binding
    requires r.pending.Some? && r.instance.Some? && r.generation.Some?
  {
    S.Binding(me, r.pending.value, S.OrbName(orb, r.previous), r.instance.value, if r.pending.value == S.Bootstrap then r.generation.value else 0)
  }

  lemma OperatedIsTerminal(a: S.Tables, b: S.Tables, q: S.RequestID, binding: S.Binding)
    ensures OperatedAs(a, b, q, binding) ==> Terminal(b, q, binding)
  {
  }

  /** The start or stop that an operator may cancel: it never arrived, or has ended. */
  predicate Cancellable(orb: nat, me: S.Actor, t: S.Tables, r: Record, target: S.RequestID) {
    && r.stage == Managed && r.pending.Some? && r.pending.value in {S.Start, S.Stop} && r.request == Some(target)
    && r.instance.Some? && r.generation.Some?
    && (target !in t.requests || Terminal(t, target, OperationOf(orb, me, r)))
  }

  /** A record that may get a successor. */
  predicate Succeedable(op: Operation, orb: nat, l: Ledger, t: S.Tables, r: Record) {
    op == Spawn && r.stage == Deleted && Archived(orb, l, r) && Free(t, S.OrbName(orb, r.instance))
  }

  ghost predicate Doable(op: Operation, orb: nat, l: Ledger, t: S.Tables, r: Record) {
    Creatable(op, orb, l, t, r) || Performable(op, orb, l, t, r) || Succeedable(op, orb, l, t, r) || Releasable(op, orb, l, t, r)
  }

  /** There is a record, and the job does not mean another name. */
  predicate Expected(op: Operation, orb: nat, l: Ledger, admitted: S.Name) {
    l.record.Some? && (ByProvider(op) ==> S.OrbName(orb, l.record.value.previous) == admitted)
  }

  /** A job that a calm run carries out: of the current name, on a record it can do something
      for, or the first of all. */
  ghost predicate Welcome(op: Operation, orb: nat, l: Ledger, t: S.Tables, admitted: S.Name, sawLock: bool) {
    match l.record
    case Some(r) => Doable(op, orb, l, t, r) && Expected(op, orb, l, admitted)
    case None => !sawLock && ByProvider(op) && S.OrbName(orb, None) == admitted && Free(t, S.OrbName(orb, None))
  }

  lemma DoableIsOpen(op: Operation, orb: nat, l: Ledger, t: S.Tables, r: Record)
    requires Doable(op, orb, l, t, r)
    ensures r.stage != Deleting && (r.stage == Deleted ==> op == Spawn)
  {
  }

  /** A job that only has to end what is under way: a deletion begun or done, or a start or
      stop to cancel. */
  ghost predicate Ending(op: Operation, target: S.RequestID, orb: nat, me: S.Actor, l: Ledger, t: S.Tables, r: Record) {
    match r.stage
    case Deleted => op != Spawn
    case Deleting => op == Delete && Endable(orb, me, l, t, r)
    case _ => op == Cancel && Cancellable(orb, me, t, r, target)
  }

  /** What `Find` leaves of a doable job. */
  predicate Ready(op: Operation, orb: nat, l: Ledger, t: S.Tables, r: Record, v: Option<View>) {
    r.pending.None? && if v.None? then Creatable(op, orb, l, t, r) else Performable(op, orb, l, t, r)
  }

  /** The row of the current name is a VM just created. */
  predicate Dawning(orb: nat, l: Ledger, t: S.Tables) {
    exists i | i in t.instances ::
      t.instances[i].name == Current(orb, l) && t.instances[i].state == S.Provisioning && i in t.generations && t.generations[i] == 0
  }

  lemma DawningIsSpawnable(orb: nat, l: Ledger, t: S.Tables, r: Record)
    requires S.Named(t) && Dawning(orb, l, t) && Bindable(orb, l, t, r) && r.generation == Some(0)
    ensures Spawnable(orb, l, t, r)
  {
    var i :| i in t.instances && t.instances[i].name == Current(orb, l) && t.instances[i].state == S.Provisioning;
    OneRow(orb, l, t, i, r.instance.value);
  }

  lemma BindableIsSeen(orb: nat, l: Ledger, t: S.Tables, r: Record, v: View)
    requires S.Named(t) && Bindable(orb, l, t, r) && Shows(orb, l, t, v)
    ensures r.instance == Some(v.id) && Matches(r, v)
  {
    OneRow(orb, l, t, v.id, r.instance.value);
  }

  /** The row of the current name has seen no bootstrap. */
  predicate Newest(orb: nat, l: Ledger, t: S.Tables) {
    exists i | i in t.instances :: t.instances[i].name == Current(orb, l) && i in t.generations && t.generations[i] == 0
  }

  lemma NewestIsSeen(orb: nat, l: Ledger, t: S.Tables, v: View)
    requires S.Named(t) && Newest(orb, l, t) && Shows(orb, l, t, v)
    ensures v.generation == 0
  {
    var i :| i in t.instances && t.instances[i].name == Current(orb, l) && i in t.generations && t.generations[i] == 0;
    OneRow(orb, l, t, v.id, i);
  }

  lemma ComesUp(orb: nat, l: Ledger, t: S.Tables, n: S.Tables, r: Record, s: S.State)
    requires Bindable(orb, l, t, r)
    requires n == t.(instances := t.instances[r.instance.value := t.instances[r.instance.value].(state := s)])
    ensures Bindable(orb, l, n, r) && n.instances[r.instance.value].state == s
  {
  }

  lemma PerformableStands(op: Operation, orb: nat, l: Ledger, t: S.Tables, r: Record)
    requires Performable(op, orb, l, t, r)
    ensures Standing(orb, l, t) && r.stage == Managed
  {
  }

  lemma BlankIsCreatable(op: Operation, orb: nat, l: Ledger, t: S.Tables)
    ensures ByProvider(op) && Free(t, S.OrbName(orb, None)) ==> Creatable(op, orb, Put(l, BLANK).(locked := true), t, BLANK)
  {
  }

  lemma SucceededIsCreatable(op: Operation, orb: nat, l: Ledger, t: S.Tables, r: Record)
    requires Succeedable(op, orb, l, t, r)
    ensures var next := BLANK.(previous := r.instance); Creatable(op, orb, Put(l, next), t, next)
  {
  }

  predicate Rowed(orb: nat, l: Ledger, t: S.Tables) {
    exists i | i in t.instances :: t.instances[i].name == Current(orb, l)
  }

  /** A report about an instance of the current name; it may be out of date already. */
  ghost predicate Seen(orb: nat, l: Ledger, t: S.Tables, v: View) {
    && BornCurrent(orb, l, v.id) && v.id in t.generations && 0 <= v.generation <= t.generations[v.id]
  }

  ghost predicate KeepsProofs(a: Ledger, b: Ledger) {
    forall n | n in a.proofs :: n in b.proofs && b.proofs[n] == a.proofs[n]
  }

  /** The report was true of these tables. */
  predicate Reported(at: S.Tables, v: View) {
    v.id in at.instances && at.instances[v.id].state == v.state
  }

  /** The report was true of the backend at some moment of this log from `from` on. */
  ghost predicate ReportedSince(log: Log<S.Tables>, from: nat, v: View) {
    exists m | m in log.moments :: from <= m.0 && Reported(m.1, v)
  }

  lemma SinceStays(a: Log<S.Tables>, b: Log<S.Tables>, from: nat, earlier: nat, v: View)
    requires ReportedSince(a, from, v) && Grows(a, b) && earlier <= from
    ensures ReportedSince(b, earlier, v)
  {
    var m :| m in a.moments && from <= m.0 && Reported(m.1, v);
    assert m in b.moments;
  }

  /** The instance was stopped at some moment from `from` on. */
  ghost predicate StoppedSince(log: Log<S.Tables>, from: nat, i: S.InstanceID) {
    exists m | m in log.moments :: from <= m.0 && i in m.1.instances && m.1.instances[i].state == S.Stopped
  }

  ghost predicate HasRun(t: S.Tables, b: S.Binding) {
    exists q :: q in t.requests && t.requests[q].phase == S.Done && t.requests[q].binding == b
  }

  /** The orb's last bootstrap has reached the guest of the recorded incarnation. */
  ghost predicate Bootstrapped(orb: nat, me: S.Actor, t: S.Tables, r: Record) {
    && r.stage == Managed && r.pending.None? && r.instance.Some? && r.generation.Some?
    && r.instance.value in t.generations && r.floor == r.generation.value == t.generations[r.instance.value]
    && HasRun(t, OperationOf(orb, me, r.(pending := Some(S.Bootstrap))))
  }

  /** The backend's receipt: exactly this operation under this ID has come to an end.  Only
      a start can have been rejected. */
  predicate Ended(t: S.Tables, q: S.RequestID, b: S.Binding) {
    && q in t.requests && t.requests[q].binding == b
    && (t.requests[q].phase in {S.Done, S.Cancelled} || (t.requests[q].phase == S.Rejected && b.command == S.Start))
  }

  lemma EndedStays(a: S.Tables, b: S.Tables, q: S.RequestID, binding: S.Binding)
    requires Ended(a, q, binding) && S.Advances(a, b) && !S.Deletes(binding.command)
    ensures Ended(b, q, binding) && b.requests[q] == a.requests[q]
  {
  }

  /** What a successful pause rests on: the VM was stopped at some moment of the job, which
      began at `from` in the backend's log, or the job's own stop `q` has ended. */
  ghost predicate Paused(orb: nat, me: S.Actor, t: S.Tables, log: Log<S.Tables>, from: nat, q: S.RequestID, r: Record) {
    && r.stage == Managed && r.pending.None? && r.instance.Some? && r.generation.Some?
    && (StoppedSince(log, from, r.instance.value) || Ended(t, q, OperationOf(orb, me, r.(pending := Some(S.Stop)))))
  }

  /** What a job that reports success has achieved. */
  ghost predicate Done(op: Operation, orb: nat, me: S.Actor, t: S.Tables, log: Log<S.Tables>, from: nat, q: S.RequestID, r: Record) {
    match op
    case Spawn => Bootstrapped(orb, me, t, r)
    case Pause => r.stage == Deleted || (r.stage == New && r.pending.None?) || Paused(orb, me, t, log, from, q, r)
    case Delete => r.stage == New || (r.stage == Deleted && r.instance.Some? && Receipted(t, r.instance.value))
    case Bind => r.stage == Deleted || (r.stage == Managed && r.instance.Some? && r.pending.None?)
    case Cancel => r.stage == Deleted || (r.stage == Managed && r.pending.None?)
  }

  lemma DeletedIsDone(op: Operation, orb: nat, me: S.Actor, l: Ledger, t: S.Tables, log: Log<S.Tables>, from: nat, q: S.RequestID, r: Record)
    requires Sound(orb, l, t) && l.record == Some(r) && r.stage == Deleted && op != Spawn
    ensures Done(op, orb, me, t, log, from, q, r)
  {
  }

  // ---- Each write of the record keeps the invariant ----

  function Resolved(r: Record): Record {
    r.(pending := None, request := None, floor := if r.pending == Some(S.Bootstrap) && r.generation.Some? then r.generation.value else r.floor)
  }

  /** Rewriting the record of the same incarnation. */
  lemma Kept(orb: nat, l: Ledger, t: S.Tables, r: Record)
    requires Sound(orb, l, t) && l.record.Some? && l.locked
    requires r.previous == l.record.value.previous && (l.record.value.instance.Some? ==> r.instance == l.record.value.instance)
    requires Tracks(orb, l, t, r)
    ensures Sound(orb, Put(l, r), t)
  {
  }

  /** The backend counter reached the recorded generation when it recorded the request. */
  lemma ResolvedSound(orb: nat, me: S.Actor, l: Ledger, t: S.Tables, r: Record)
    requires Sound(orb, l, t) && S.Recorded(t) && l.record == Some(r) && l.locked && r.stage == Managed && r.pending.Some?
    requires r.request.value in t.requests && t.requests[r.request.value].binding == OperationOf(orb, me, r)
    ensures Sound(orb, Put(l, Resolved(r)), t)
    ensures r.pending == Some(S.Bootstrap) ==> t.requests[r.request.value].phase != S.Cancelled
  {
  }

  lemma ReachedGuest(orb: nat, me: S.Actor, l: Ledger, t: S.Tables, r: Record, q: S.RequestID)
    requires Sound(orb, l, t) && r.stage == Managed && r.pending == Some(S.Bootstrap) && r.instance.Some? && r.generation.Some?
    requires l.record == Some(Resolved(r)) && q in t.requests && t.requests[q].phase == S.Done && t.requests[q].binding == OperationOf(orb, me, r)
    ensures Bootstrapped(orb, me, t, Resolved(r))
  {
  }

  lemma AdoptedSound(orb: nat, l: Ledger, t: S.Tables, r: Record, r2: Record, v: View)
    requires Sound(orb, l, t) && l.locked && l.record == Some(r) && (r.stage == Creating || r.stage == Managed)
    requires Seen(orb, l, t, v)
    requires r2.stage == Managed && r2.instance == Some(v.id)
    requires if r.instance.None? then r2 == r.(stage := Managed, instance := Some(v.id), created := r2.created, generation := Some(0)) else r2 == r.(stage := Managed)
    ensures Sound(orb, Put(l, r2), t)
  {
  }

  lemma DeletedSound(orb: nat, l: Ledger, t: S.Tables, r: Record, p: S.Receipt)
    requires Sound(orb, l, t) && l.locked && p.request in t.receipts && t.receipts[p.request] == p && Validates(orb, r, p)
    requires l.record.Some? && r == l.record.value.(request := r.request) && (r.stage == Managed || r.stage == Deleting)
    ensures Sound(orb, Put(l, r.(stage := Deleted)), t)
  {
  }

  /** Every instance of the old name has its receipt, and nothing was ever created or sent
      under the new one. */
  lemma FreshSound(orb: nat, l: Ledger, t: S.Tables, r: Record)
    requires Sound(orb, l, t) && l.record == Some(r) && r.stage == Deleted && l.locked
    ensures Sound(orb, Put(l, BLANK.(previous := r.instance)), t)
  {
  }

  /** A job that waits for the lock, with what it read before. */
  datatype Job = Job(op: Operation, target: nat, admitted: S.Name, sawLock: bool)

  /** Some job looked before the lock existed. */
  predicate Early(waiting: seq<Job>) {
    exists j | j in waiting :: !j.sawLock
  }

  class Dispatcher {
    const orb: nat
    const me: S.Actor
    const backend: S.Store
    var l: Ledger

    ghost predicate Valid()
      reads this, backend
    {
      backend.Valid() && Sound(orb, l, backend.t)
    }

    constructor (orb: nat, me: S.Actor, backend: S.Store)
      requires backend.Valid() && backend.t == S.EMPTY
      ensures Valid() && this.orb == orb && this.me == me && this.backend == backend && l == UNUSED
    {
      this.orb, this.me, this.backend := orb, me, backend;
      l := UNUSED;
    }

    // ---- The surroundings ----

    method OtherRequest()
      requires Valid()
      modifies backend
      ensures Grows(old(backend.log), backend.log)
      ensures Valid() && Rely(l, old(backend.t), l, backend.t)
    {
      var id: S.RequestID, actor: S.Actor, b: S.Binding, exitCode: int, op: nat := *, *, *, *, *;
      var out, flag := Ok, false;
      if {
      case op == 0 && !b.command.Bootstrap? => out, flag := backend.Admit(false, id, b);
      case op == 1 && (id in backend.t.requests ==> !S.Deletes(backend.t.requests[id].binding.command)) => out := backend.Begin(false, id, actor);
      case op == 2 && !S.Strands(backend.t, id, actor) =>
        out, flag := backend.Finish(false, id, actor, exitCode);
      case op == 3 => out := backend.RejectStart(false, id, actor);
      case op == 4 => out := backend.Interrupt(false);
      case op == 5 && !b.command.Bootstrap? => out := backend.Cancel(false, id, b);
      case op == 6 && b.command.Bootstrap? && b.subject !in l.born => out := backend.AdmitBootstrap(false, id, b);
      case true =>
      }
      ElsewhereSound(orb, l, old(backend.t), backend.t);
    }

    method OtherRow()
      requires Valid()
      modifies backend
      ensures Grows(old(backend.log), backend.log)
      ensures Valid() && Rely(l, old(backend.t), l, backend.t)
    {
      var i: S.InstanceID, name: S.Name, created: nat, s: S.State, kind: bool, op: nat := *, *, *, *, *, *;
      var out := Ok;
      ghost var was := backend.t;
      if {
      case op == 0 && i !in backend.t.used && !(name.OrbName? && name.orb == orb) =>
        out := backend.CreateInstance(false, i, name, created, kind);
        assert i in l.born ==> Birth(orb, l, was, i);
      case op == 1 && s != S.Deleting && s != S.Deleted => out := backend.UpdateState(false, i, s);
      case op == 2 => out := backend.DeleteInstance(false, i);
      case true =>
      }
      ElsewhereSound(orb, l, was, backend.t);
    }

    method OtherDelete()
      requires Valid()
      modifies backend
      ensures Grows(old(backend.log), backend.log)
      ensures Valid() && Rely(l, old(backend.t), l, backend.t)
    {
      var id: S.RequestID, actor: S.Actor, i: S.InstanceID, name: S.Name, created: nat, bound: bool := *, *, *, *, *, *;
      var out;
      if bound {
        out := backend.DeleteExpected(false, false, id, actor, i, name, created);
      } else {
        out := backend.DeleteWithProof(false, id, actor, i, name, created);
      }
      ElsewhereSound(orb, l, old(backend.t), backend.t);
    }

    method OtherCleanup()
      requires Valid()
      modifies backend
      ensures Grows(old(backend.log), backend.log)
      ensures Valid() && Rely(l, old(backend.t), l, backend.t)
    {
      var id: S.RequestID, actor: S.Actor, i: S.InstanceID, name: S.Name, created: nat, x: S.Resource, op: nat := *, *, *, *, *, *, *;
      var out := Ok;
      if {
      case op == 5 => out := backend.BeginCleanup(false, id, actor, i, name, created);
      case op == 6 => out := backend.Acquire(x, i);
      case true =>
      }
      ElsewhereSound(orb, l, old(backend.t), backend.t);
    }

    /** The create for the current name takes effect, if its transaction commits. */
    method Arrive(i: S.InstanceID, created: nat, calm: bool) returns (out: Outcome)
      requires Valid() && l.locked && i !in backend.t.used
      requires l.record.Some? ==> l.record.value.stage == Creating
      requires Unborn(l, Current(orb, l))
      modifies this, backend
      ensures Grows(old(backend.log), backend.log)
      ensures Valid() && Current(orb, l) !in l.unanswered
      ensures Rely(old(l).(unanswered := old(l).unanswered + {Current(orb, l)}), old(backend.t), l, backend.t)
      ensures calm && Free(old(backend.t), Current(orb, old(l))) ==>
                out.Ok? && l == Delivered(orb, old(l), i) && backend.t == S.Created(old(backend.t), i, Current(orb, l), created, true)
    {
      var was := backend.t;
      out := backend.CreateInstance(calm, i, Current(orb, l), created, true);
      if backend.t == was {
        LostSound(orb, l, was);
        l := l.(unanswered := l.unanswered - {Current(orb, l)});
        return;
      }
      BirthSound(orb, l, was, backend.t, i, created);
      BirthRely(orb, l, was, backend.t, i);
      l := Delivered(orb, l, i);
    }

    method ArriveBootstrap(m: (S.RequestID, S.Binding))
      requires Valid() && m in l.bootstraps
      modifies backend
      ensures Grows(old(backend.log), backend.log)
      ensures Valid() && Rely(l, old(backend.t), l, backend.t)
    {
      assert Sent(orb, l, m.1);
      var out := backend.AdmitBootstrap(false, m.0, m.1);
      if backend.t != old(backend.t) {
        BootstrapSound(orb, l, old(backend.t), backend.t, m);
      }
    }

    method ArriveLate()
      requires Valid()
      modifies this, backend
      ensures Grows(old(backend.log), backend.log)
      ensures Valid() && Rely(old(l), old(backend.t), l, backend.t)
    {
      var i: S.InstanceID, created: nat, m: (S.RequestID, S.Binding) := *, *, *;
      if Current(orb, l) in l.unanswered && i !in backend.t.used {
        assert old(l).(unanswered := old(l).unanswered + {Current(orb, l)}) == l;
        var out := Arrive(i, created, false);
      } else if m in l.bootstraps {
        ArriveBootstrap(m);
      }
    }

    method Others(calm: bool)
      requires Valid()
      modifies this, backend
      ensures Grows(old(backend.log), backend.log)
      ensures Valid() && Rely(old(l), old(backend.t), l, backend.t)
      ensures calm ==> l == old(l) && backend.t == old(backend.t)
    {
      if calm {
        return;
      }
      var k: nat := *;
      while k > 0
        invariant Valid() && Rely(old(l), old(backend.t), l, backend.t)
        invariant Grows(old(backend.log), backend.log)
      {
        ghost var l1, t1 := l, backend.t;
        if {
        case true => OtherRequest();
        case true => OtherRow();
        case true => OtherDelete();
        case true => OtherCleanup();
        case true => ArriveLate();
        }
        k := k - 1;
        RelyTransitive(old(l), old(backend.t), l1, t1, l, backend.t);
      }
    }

    // ---- One durable effect, or one exchange with the backend ----

    /** A synced replacement of the record. */
    method Save(r: Record, calm: bool, quiet: bool) returns (out: Outcome)
      requires Valid() && Sound(orb, Put(l, r), backend.t)
      modifies this, backend
      ensures Grows(old(backend.log), backend.log)
      ensures Valid() && S.Advances(old(backend.t), backend.t)
      ensures l.record == Some(r) || l.record == old(l.record)
      ensures l.proofs == old(l).proofs && l.locked == old(l).locked
      ensures out.Ok? ==> Rely(Put(old(l), r), old(backend.t), l, backend.t)
      ensures calm ==> out.Ok?
      ensures calm && quiet ==> l == Put(old(l), r) && backend.t == old(backend.t)
    {
      var f := Choose(calm);
      if f.Applied() {
        l := Put(l, r);
      }
      Others(quiet);
      return f.Reply();
    }

    method SaveProof(p: S.Receipt, calm: bool) returns (out: Outcome)
      requires Valid() && p.request in backend.t.receipts && backend.t.receipts[p.request] == p
      modifies this, backend
      ensures Grows(old(backend.log), backend.log)
      ensures Valid() && l.record == old(l.record)
      ensures p.request in backend.t.receipts && backend.t.receipts[p.request] == p
      ensures l.previous == old(l).previous && (l.proofs == old(l).proofs || l.proofs == old(l).proofs[Current(orb, l) := p])
      ensures out.Ok? ==> Current(orb, l) in l.proofs && l.proofs[Current(orb, l)] == p
      ensures calm ==> out.Ok? && l == old(l).(proofs := old(l).proofs[Current(orb, old(l)) := p]) && backend.t == old(backend.t)
    {
      var f := Choose(calm);
      if f.Applied() {
        l := l.(proofs := l.proofs[Current(orb, l) := p]);
      }
      Others(calm);
      return f.Reply();
    }

    method Look(i: S.InstanceID) returns (v: Option<View>)
      requires Valid() && i in backend.t.instances && backend.t.instances[i].name == Current(orb, l)
      ensures i in backend.t.generations && v == Some(ViewOf(backend.t, i)) && Seen(orb, l, backend.t, v.value) && Reported(backend.t, v.value)
    {
      assert Birth(orb, l, backend.t, i);
      return Some(ViewOf(backend.t, i));
    }

    /** The inventory shows every row of the current name that is no tombstone. */
    method Locate(calm: bool) returns (out: Outcome, v: Option<View>)
      requires Valid()
      modifies this, backend
      ensures Grows(old(backend.log), backend.log)
      ensures Valid() && Rely(old(l), old(backend.t), l, backend.t)
      ensures v.Some? ==> Seen(orb, l, backend.t, v.value)
      ensures calm ==> out.Ok? && l == old(l) && backend.t == old(backend.t)
      ensures calm ==> (v.Some? <==> Standing(orb, l, backend.t))
      ensures calm && v.Some? ==> Shows(orb, l, backend.t, v.value)
    {
      var f := Choose(calm);
      v := None;
      if i: S.InstanceID :| i in backend.t.instances && backend.t.instances[i].name == Current(orb, l) && backend.t.instances[i].state != S.Deleted {
        v := Look(i);
      }
      Others(calm);
      return f.Reply(), v;
    }

    method Inspect(calm: bool) returns (out: Outcome, v: View)
      requires Valid()
      modifies this, backend
      ensures Grows(old(backend.log), backend.log)
      ensures Valid() && Rely(old(l), old(backend.t), l, backend.t)
      ensures out.Ok? ==> Seen(orb, l, backend.t, v) && ReportedSince(backend.log, old(backend.log).now, v)
      ensures calm ==> l == old(l) && backend.t == old(backend.t)
      ensures calm && Rowed(orb, l, backend.t) ==> out.Ok? && Shows(orb, l, backend.t, v)
    {
      var found := None;
      var f := Choose(calm);
      v := View(0, 0, S.Ready, 0);
      ghost var now := (backend.log.now, backend.t);
      if i: S.InstanceID :| i in backend.t.instances && backend.t.instances[i].name == Current(orb, l) {
        found := Look(i);
        v := found.value;
        assert now in backend.log.moments && Reported(now.1, v);
      }
      Others(calm);
      assert found.Some? ==> now in backend.log.moments && Reported(now.1, v);
      return if f == Clean && found.None? then Err else f.Reply(), v;
    }

    /** What the backend recorded about an operation; final phases stay as reported. */
    method Result(q: S.RequestID, calm: bool) returns (out: Outcome, res: S.Request)
      requires Valid()
      modifies this, backend
      ensures Grows(old(backend.log), backend.log)
      ensures Valid() && Rely(old(l), old(backend.t), l, backend.t)
      ensures out.Ok? ==> q in backend.t.requests && backend.t.requests[q].binding == res.binding
                          && (S.Progress(res.phase) == 3 && !S.Deletes(res.binding.command) ==> backend.t.requests[q] == res)
      ensures calm ==> l == old(l) && backend.t == old(backend.t) && !out.Crash?
      ensures calm && q in backend.t.requests && backend.t.requests[q].binding.actor == me && backend.t.requests[q].binding.command in {S.Start, S.Stop, S.Bootstrap} ==>
                out.Ok? && res == backend.t.requests[q]
    {
      var f := Choose(calm);
      res := S.Request(S.Binding(me, S.Delete, S.Plain(0), 0, 0), S.Admitted, 0);
      var known := q in backend.t.requests && backend.t.requests[q].binding.actor == me
                   && backend.t.requests[q].binding.command in {S.Start, S.Stop, S.Bootstrap};
      if known {
        res := backend.t.requests[q];
      }
      Others(calm);
      return if f == Clean && !known then Err else f.Reply(), res;
    }

    method ReceiptOf(q: S.RequestID, calm: bool) returns (out: Outcome, p: S.Receipt)
      requires Valid()
      modifies this, backend
      ensures Grows(old(backend.log), backend.log)
      ensures Valid() && Rely(old(l), old(backend.t), l, backend.t)
      ensures out.Ok? ==> p.request == q && q in backend.t.receipts && backend.t.receipts[q] == p
      ensures calm ==> l == old(l) && backend.t == old(backend.t)
      ensures calm && q in backend.t.receipts && backend.t.receipts[q].actor == me ==> out.Ok? && p == backend.t.receipts[q]
      ensures calm && q !in backend.t.receipts ==> out.Err?
    {
      var f := Choose(calm);
      p := S.Receipt(0, me, 0, S.Plain(0), 0, {});
      var known := q in backend.t.receipts && backend.t.receipts[q].actor == me;
      if known {
        p := backend.t.receipts[q];
        assert S.ProperReceipt(backend.t, q, p);
      }
      Others(calm);
      return if f == Clean && !known then Err else f.Reply(), p;
    }

    method ReceiptFor(i: S.InstanceID, calm: bool) returns (out: Outcome, p: S.Receipt)
      requires Valid()
      modifies this, backend
      ensures Grows(old(backend.log), backend.log)
      ensures Valid() && Rely(old(l), old(backend.t), l, backend.t)
      ensures out.Ok? ==> p.request in backend.t.receipts && backend.t.receipts[p.request] == p
      ensures calm ==> l == old(l) && backend.t == old(backend.t)
      ensures calm && Receipted(backend.t, i) ==> out.Ok? && p.instance == i
    {
      var known := false;
      var f := Choose(calm);
      p := S.Receipt(0, me, 0, S.Plain(0), 0, {});
      if q: S.RequestID :| q in backend.t.receipts && backend.t.receipts[q].instance == i {
        p, known := backend.t.receipts[q], true;
        assert S.ProperReceipt(backend.t, q, p);
      }
      Others(calm);
      return if f == Clean && !known then Err else f.Reply(), p;
    }

    /** An ID that was never given out. */
    method FreshID() returns (i: S.InstanceID)
      ensures i !in backend.t.used
    {
      var rest := backend.t.used;
      i := 0;
      while rest != {}
        invariant rest <= backend.t.used
        invariant forall j | j in backend.t.used && j !in rest :: j < i
        decreases rest
      {
        var j :| j in rest;
        i := if j < i then i else j + 1;
        rest := rest - {j};
      }
    }

    /** The fate of one create on the network. */
    method Carry(calm: bool) returns (reply: CreateReply)
      requires Valid() && l.record.Some? && l.record.value.stage == Creating
      requires Unborn(l, Current(orb, l)) && Current(orb, l) !in l.unanswered
      modifies this, backend
      ensures Grows(old(backend.log), backend.log)
      ensures Valid() && l.record == old(l.record)
      ensures reply.Rejected? ==> l == old(l)
      ensures calm && Free(old(backend.t), Current(orb, old(l))) ==>
                reply.Created? && exists i :: Newborn(orb, l, old(backend.t), backend.t, i)
    {
      var i: S.InstanceID, created: nat, fate: int := *, *, *;
      if calm {
        i := FreshID();
        fate := 2;
      }
      if fate == 0 {
        return Rejected;
      }
      if fate == 1 {
        TravelsSound(orb, l, backend.t);
        l := l.(unanswered := l.unanswered + {Current(orb, l)});
      } else if fate == 2 && i !in backend.t.used {
        var out := Arrive(i, created, calm);
        assert calm && Free(old(backend.t), Current(orb, old(l))) ==> Newborn(orb, l, old(backend.t), backend.t, i);
        return if out.Ok? then Created else Unknown;
      }
      return Unknown;
    }

    /** A create is sent once.  Only an explicit refusal says that it will never arrive. */
    method SubmitCreate(calm: bool) returns (reply: CreateReply)
      requires Valid() && l.record.Some? && l.record.value.stage == Creating
      requires Unborn(l, Current(orb, l)) && Current(orb, l) !in l.unanswered
      modifies this, backend
      ensures Grows(old(backend.log), backend.log)
      ensures Valid() && l.record == old(l.record)
      ensures reply.Rejected? ==> Unborn(l, Current(orb, l)) && Current(orb, l) !in l.unanswered
      ensures calm && Free(old(backend.t), Current(orb, old(l))) ==>
                reply.Created? && exists i :: Newborn(orb, l, old(backend.t), backend.t, i)
    {
      reply := Carry(calm);
      Others(calm);
    }

    /** A delete that reaches the backend runs there to its end or its first fault. */
    method SubmitDelete(r: Record, q: S.RequestID, calm: bool) returns (out: Outcome)
      requires Valid() && r.instance.Some?
      modifies this, backend
      ensures Grows(old(backend.log), backend.log)
      ensures Valid() && l.record == old(l.record)
      ensures calm ==> l == old(l) && !out.Crash? && S.Advances(old(backend.t), backend.t)
      ensures calm && S.Retriable(old(backend.t), q, me, r.instance.value, Current(orb, old(l)), r.created) ==> out.Ok?
      ensures calm && out.Ok? && q !in old(backend.t).receipts ==>
                q in backend.t.receipts
                && backend.t.receipts[q] == S.Receipt(q, me, r.instance.value, Current(orb, old(l)), r.created, S.EVERYTHING)
    {
      ghost var was := backend.t;
      var f := Choose(calm);
      out := f.Reply();
      if f.Applied() {
        var done := backend.DeleteExpected(calm, calm, q, me, r.instance.value, Current(orb, l), r.created);
        ElsewhereSound(orb, l, was, backend.t);
        out := if out.Ok? then done else out;
      }
      Others(calm);
    }

    method SubmitCancel(q: S.RequestID, b: S.Binding, calm: bool) returns (out: Outcome)
      requires Valid() && (b.command == S.Start || b.command == S.Stop)
      modifies this, backend
      ensures Grows(old(backend.log), backend.log)
      ensures Valid() && l.record == old(l.record)
      ensures calm ==> l == old(l)
      ensures calm && q !in old(backend.t).requests ==>
                out.Ok? && backend.t == old(backend.t).(requests := old(backend.t).requests[q := S.Request(b, S.Cancelled, 0)])
      ensures calm && q in old(backend.t).requests && old(backend.t).requests[q].binding == b ==> out.Ok? && backend.t == old(backend.t)
    {
      ghost var was := backend.t;
      out := backend.Cancel(calm, q, b);
      ElsewhereSound(orb, l, was, backend.t);
      Others(calm);
    }

    /** The backend admits a newer bootstrap at once and the guest runs it. */
    method CarryOutBootstrap(q: S.RequestID, b: S.Binding)
      requires Valid() && (q, b) in l.bootstraps && b.command == S.Bootstrap
      modifies backend
      ensures Grows(old(backend.log), backend.log)
      ensures Valid()
      ensures q !in old(backend.t).requests && b.generation > 0 && b.subject in old(backend.t).generations
              && old(backend.t).generations[b.subject] < b.generation ==>
                q in backend.t.requests && backend.t.requests[q] == S.Request(b, S.Done, 0) && backend.t.instances == old(backend.t).instances
    {
      if q !in backend.t.requests && b.generation > 0 && b.subject in backend.t.generations && backend.t.generations[b.subject] < b.generation {
        ghost var was := backend.t;
        backend.ExecuteBootstrap(q, b);
        BootstrapSound(orb, l, was, backend.t, (q, b));
      }
    }

    /** A bootstrap is sent: from now on it may arrive at any time. */
    method SubmitBootstrap(q: S.RequestID, b: S.Binding, calm: bool) returns (out: Outcome)
      requires Valid() && l.record.Some? && l.record.value.stage == Managed && b.command == S.Bootstrap
      requires l.record.value.instance == Some(b.subject) && l.record.value.generation == Some(b.generation)
      modifies this, backend
      ensures Grows(old(backend.log), backend.log)
      ensures Valid() && l.record == old(l.record)
      ensures calm && q !in old(backend.t).requests && b.actor == me && b.generation > 0 && b.subject in old(backend.t).generations
              && old(backend.t).generations[b.subject] < b.generation ==>
                out.Ok? && Terminal(backend.t, q, b) && backend.t.instances == old(backend.t).instances
    {
      var sent := l.(bootstraps := l.bootstraps + {(q, b)});
      assert Bound(orb, l, backend.t, l.record.value);
      assert forall m | m in l.bootstraps :: Sent(orb, l, m.1) ==> Sent(orb, sent, m.1);
      assert Sent(orb, sent, b);
      l := sent;
      if calm {
        CarryOutBootstrap(q, b);
        return Ok;
      }
      Others(false);
      var f := Choose(false);
      return f.Reply();
    }

    /** A guest changes its state. */
    method Become(i: S.InstanceID, s: S.State)
      requires Valid() && s != S.Deleting && s != S.Deleted
      modifies backend
      ensures Grows(old(backend.log), backend.log)
      ensures Valid() && Rely(l, old(backend.t), l, backend.t)
      ensures i in old(backend.t).instances && old(backend.t).instances[i].state != S.Deleting && old(backend.t).instances[i].state != S.Deleted ==>
                backend.t == old(backend.t).(instances := old(backend.t).instances[i := old(backend.t).instances[i].(state := s)])
    {
      ghost var was := backend.t;
      var out := backend.UpdateState(true, i, s);
      ElsewhereSound(orb, l, was, backend.t);
    }

    /** A start or stop is sent; what the backend does with it is up to the backend, which in
        a calm run carries it out. */
    method SubmitOperation(q: S.RequestID, b: S.Binding, calm: bool) returns (out: Outcome)
      requires Valid() && (b.command == S.Start || b.command == S.Stop)
      modifies this, backend
      ensures Grows(old(backend.log), backend.log)
      ensures Valid() && l.record == old(l.record)
      ensures calm && q !in old(backend.t).requests && b.subject in old(backend.t).instances
              && old(backend.t).instances[b.subject].state != S.Deleting && old(backend.t).instances[b.subject].state != S.Deleted ==>
                out.Ok? && l == old(l) && OperatedAs(old(backend.t), backend.t, q, b)
    {
      if calm {
        ghost var was := backend.t;
        backend.Execute(q, b);
        ElsewhereSound(orb, l, was, backend.t);
        Become(b.subject, After(b.command));
        return Ok;
      }
      var f := Choose(false);
      return f.Reply();
    }

    // ---- Jobs ----

    /** The lock file is created and never removed. */
    method TakeLock()
      requires Valid() && !l.locked
      modifies this`l
      ensures Valid() && l == old(l).(locked := true)
    {
      l := l.(locked := true);
    }

    /** The lock outlives the record: a job that saw the lock and finds no record behind it
        refuses.  A job that read another name before it got the lock is stale.  What a job
        saw it saw before it waited, so an early job may find a lost record missing. */
    method Open(op: Operation, admitted: S.Name, sawLock: bool, calm: bool) returns (out: Outcome, r: Record)
      requires Valid() && (sawLock ==> l.locked)
      modifies this`l
      ensures Valid() <==> l.record == old(l).record || Untouched(old(l))
      ensures l == old(l) || l == old(l).(locked := true) || l == Put(old(l), BLANK).(locked := true)
      ensures out.Ok? ==> l.record == Some(r)
      ensures old(l).record.Some? || sawLock ==> l == old(l)
      ensures old(l).record.Some? ==> (out.Ok? ==> r == old(l).record.value) && !out.Crash?
      ensures old(l).record.Some? && ByProvider(op) ==> (out.Ok? <==> S.OrbName(orb, old(l).record.value.previous) == admitted)
      ensures old(l).record.Some? && !ByProvider(op) ==> out.Ok?
      ensures old(l).record.None? && sawLock ==> out == Err
      ensures calm && old(l).record.None? ==> (out.Ok? <==> !sawLock && (ByProvider(op) ==> admitted == S.OrbName(orb, None)))
    {
      r := BLANK;
      if l.record.Some? {
        r := l.record.value;
      } else if sawLock {
        return Err, r;
      } else {
        if !l.locked {
          TakeLock();
        }
        EarlyJobIsSafeIff(orb, l, backend.t);
        var f := Choose(calm);
        if f.Applied() {
          l := Put(l, BLANK);
        }
        :- f.Reply();
      }
      return if ByProvider(op) && S.OrbName(orb, r.previous) != admitted then Err else Ok, r;
    }

    /** The successor is written before anything is created for it, and only over a receipt
        for exactly its predecessor. */
    method FreshCompute(r: Record, calm: bool) returns (out: Outcome, next: Record)
      requires Valid() && l.record == Some(r) && r.stage == Deleted
      modifies this, backend
      ensures Grows(old(backend.log), backend.log)
      ensures Valid() && next == BLANK.(previous := r.instance)
      ensures out.Ok? ==> l.record == Some(next) && Current(orb, old(l)) in old(l).proofs && Validates(orb, r, old(l).proofs[Current(orb, old(l))])
      ensures l.record == Some(next) || l.record == Some(r)
      ensures calm && Archived(orb, old(l), r) ==> out.Ok? && l == Put(old(l), next) && backend.t == old(backend.t)
    {
      next := BLANK.(previous := r.instance);
      if Current(orb, l) !in l.proofs || !Validates(orb, r, l.proofs[Current(orb, l)]) {
        return Err, next;
      }
      FreshSound(orb, l, backend.t, r);
      out := Save(next, calm, calm);
    }

    /** The first receipt of a name is kept for ever. */
    method Archive(r: Record, p: S.Receipt, calm: bool) returns (out: Outcome)
      requires Valid() && p.request in backend.t.receipts && backend.t.receipts[p.request] == p
      modifies this, backend
      ensures Grows(old(backend.log), backend.log)
      ensures Valid() && l.record == old(l.record) && KeepsProofs(old(l), l)
      ensures p.request in backend.t.receipts && backend.t.receipts[p.request] == p
      ensures out.Ok? ==> Validates(orb, r, p)
      ensures Current(orb, old(l)) in old(l).proofs && old(l).proofs[Current(orb, old(l))] != p ==> out == Err && l == old(l)
      ensures calm && Validates(orb, r, p) && (Current(orb, old(l)) in old(l).proofs ==> old(l).proofs[Current(orb, old(l))] == p) ==>
                out.Ok? && l == old(l).(proofs := old(l).proofs[Current(orb, old(l)) := p]) && backend.t == old(backend.t)
    {
      if !Validates(orb, r, p) || (Current(orb, l) in l.proofs && l.proofs[Current(orb, l)] != p) {
        return Err;
      }
      out := SaveProof(p, calm);
    }

    method MarkDeleted(r: Record, p: S.Receipt, calm: bool) returns (out: Outcome)
      requires Valid() && p.request in backend.t.receipts && backend.t.receipts[p.request] == p && Validates(orb, r, p)
      requires l.record.Some? && r == l.record.value.(request := r.request) && (r.stage == Managed || r.stage == Deleting)
      modifies this, backend
      ensures Grows(old(backend.log), backend.log)
      ensures Valid() && (l.record == Some(r.(stage := Deleted)) || l.record == old(l.record)) && l.proofs == old(l).proofs
      ensures out.Ok? ==> l.record == Some(r.(stage := Deleted))
      ensures calm ==> out.Ok? && l == Put(old(l), r.(stage := Deleted)) && backend.t == old(backend.t)
    {
      DeletedSound(orb, l, backend.t, r, p);
      out := Save(r.(stage := Deleted), calm, calm);
    }

    method SaveCleanup(r: Record, p: S.Receipt, calm: bool) returns (out: Outcome)
      requires Valid() && p.request in backend.t.receipts && backend.t.receipts[p.request] == p
      requires l.record.Some? && r == l.record.value.(request := r.request) && (r.stage == Managed || r.stage == Deleting)
      modifies this, backend
      ensures Grows(old(backend.log), backend.log)
      ensures Valid() && (l.record == Some(r.(stage := Deleted)) || l.record == old(l.record))
      ensures out.Ok? ==> l.record == Some(r.(stage := Deleted)) && Validates(orb, r, p)
      ensures l.record != old(l.record) ==> Validates(orb, r, p)
      ensures KeepsProofs(old(l), l)
      ensures Current(orb, old(l)) in old(l).proofs && old(l).proofs[Current(orb, old(l))] != p ==> out == Err && l == old(l)
      ensures calm && Validates(orb, r, p) && (Current(orb, old(l)) in old(l).proofs ==> old(l).proofs[Current(orb, old(l))] == p) ==>
                out.Ok? && Archived(orb, l, r) && Current(orb, l) == Current(orb, old(l)) && backend.t == old(backend.t)
    {
      out := Archive(r, p, calm);
      if !out.Ok? {
        return;
      }
      out := MarkDeleted(r, p, calm);
    }

    /** A missing receipt is not success: the same request is sent again, and if that is
        refused another client's receipt is looked for. */
    method ObtainReceipt(r: Record, calm: bool) returns (out: Outcome, p: S.Receipt)
      requires Valid() && l.record == Some(r) && r.stage == Deleting && r.request.Some? && r.instance.Some?
      modifies this, backend
      ensures Grows(old(backend.log), backend.log)
      ensures Valid() && l.record == Some(r)
      ensures out.Ok? ==> p.request in backend.t.receipts && backend.t.receipts[p.request] == p
      ensures calm ==> l == old(l)
      ensures calm && Endable(orb, me, old(l), old(backend.t), r) ==> out.Ok? && Proves(orb, l, backend.t, r, p.request)
    {
      var q := r.request.value;
      ghost var t0 := backend.t;
      out, p := ReceiptOf(q, calm);
      if out.Err? {
        ghost var t := backend.t;
        var sent := SubmitDelete(r, q, calm);
        if sent.Err? {
          out, p := ReceiptFor(r.instance.value, calm);
          if calm && Endable(orb, me, l, t, r) {
            AnothersReceipt(orb, me, l, t, backend.t, r, p);
          }
        } else if sent.Ok? {
          out, p := ReceiptOf(q, calm);
        } else {
          out := Crash;
        }
      }
    }

    /** Completes a recorded deletion: only a committed receipt, ours or another client's, ends
        it. */
    method FinishDelete(r: Record, calm: bool) returns (out: Outcome, r2: Record)
      requires Valid() && l.record == Some(r) && r.stage == Deleting
      modifies this, backend
      ensures Grows(old(backend.log), backend.log)
      ensures Valid() && r2 == r.(request := r2.request)
      ensures l.record == Some(r2.(stage := Deleted)) || l.record == Some(r)
      ensures out.Ok? ==> l.record == Some(r2.(stage := Deleted))
      ensures calm && Endable(orb, me, old(l), old(backend.t), r) ==> out.Ok?
    {
      r2 := r;
      if r.request.None? || r.instance.None? {
        return Err, r;
      }
      var p :- ObtainReceipt(r, calm);
      r2 := r.(request := Some(p.request));
      out := SaveCleanup(r2, p, calm);
    }

    /** Another client deleted the VM: only its receipt for this incarnation counts. */
    method ReleaseMissing(r: Record, calm: bool) returns (out: Outcome, r2: Record)
      requires Valid() && l.record == Some(r) && r.stage == Managed
      modifies this, backend
      ensures Grows(old(backend.log), backend.log) && l.record.Some?
      ensures Valid() && r2.stage == Deleted && (out.Ok? ==> l.record == Some(r2))
      ensures calm && (exists q :: Proves(orb, old(l), old(backend.t), r, q)) ==>
                out.Ok? && Left(orb, old(l), l, old(backend.t), backend.t, r, r2)
    {
      r2 := r.(stage := Deleted);
      assert Bound(orb, l, backend.t, r);
      ghost var proven := calm && exists q :: Proves(orb, l, backend.t, r, q);
      if proven {
        OneProof(orb, l, backend.t, r, S.Receipt(0, me, 0, S.Plain(0), 0, {}));
      }
      var p;
      out, p := ReceiptFor(r.instance.value, calm);
      if !out.Ok? {
        return;
      }
      if proven {
        OneProof(orb, l, backend.t, r, p);
      }
      r2 := r.(stage := Deleted, request := Some(p.request));
      out := SaveCleanup(r.(request := Some(p.request)), p, calm);
    }

    /** A deleted record first gets its successor; then the inventory is asked. */
    method Glance(r: Record, calm: bool) returns (out: Outcome, r2: Record, v: Option<View>)
      requires Valid() && l.record == Some(r) && r.stage != Deleting
      modifies this, backend
      ensures Grows(old(backend.log), backend.log) && l.record.Some?
      ensures Valid() && (out.Ok? ==> l.record == Some(r2) && r2.stage != Deleted && (r.stage != Deleted ==> r2 == r) && r2.stage != Deleting)
      ensures out.Ok? && r.stage == Deleted ==> r2.stage == New
      ensures v.Some? ==> Seen(orb, l, backend.t, v.value)
      ensures calm && r.stage != Deleted ==> out.Ok? && l == old(l) && backend.t == old(backend.t)
      ensures calm && out.Ok? ==> (v.Some? <==> Standing(orb, l, backend.t)) && (v.Some? ==> Shows(orb, l, backend.t, v.value))
      ensures calm && r.stage == Deleted && Archived(orb, old(l), r) && Free(old(backend.t), S.OrbName(orb, r.instance)) ==>
                out.Ok? && r2 == BLANK.(previous := r.instance) && v.None? && l == Put(old(l), r2) && backend.t == old(backend.t)
    {
      out, r2, v := Ok, r, None;
      if r2.stage == Deleted {
        r2 :- FreshCompute(r2, calm);
      }
      v :- Locate(calm);
    }

    /** Finds the VM.  A recorded VM that is gone is released only by a receipt for it. */
    method Find(op: Operation, r: Record, calm: bool) returns (out: Outcome, r2: Record, v: Option<View>)
      requires Valid() && l.record == Some(r) && r.stage != Deleting && (r.stage == Deleted ==> op == Spawn)
      modifies this, backend
      ensures Grows(old(backend.log), backend.log) && l.record.Some?
      ensures Valid()
      ensures out.Ok? ==> l.record == Some(r2) && r2.stage != Deleting && (r2.stage == Deleted ==> op != Spawn)
                          && (v.Some? ==> Seen(orb, l, backend.t, v.value)) && (v.None? && r2.stage == Managed ==> !ByProvider(op))
      ensures calm && r.stage != Deleted && Standing(orb, old(l), old(backend.t)) ==>
                out.Ok? && r2 == r && v.Some? && Shows(orb, l, backend.t, v.value) && l == old(l) && backend.t == old(backend.t)
      ensures calm && r.stage == New && Free(old(backend.t), Current(orb, old(l))) ==> out.Ok? && r2 == r && v.None? && l == old(l) && backend.t == old(backend.t)
      ensures calm && r.stage == Deleted && Archived(orb, old(l), r) && Free(old(backend.t), S.OrbName(orb, r.instance)) ==>
                out.Ok? && r2 == BLANK.(previous := r.instance) && v.None? && l == Put(old(l), r2) && backend.t == old(backend.t)
      ensures calm && !ByProvider(op) && r.stage != Deleted ==> out.Ok? && r2 == r && l == old(l) && backend.t == old(backend.t)
      ensures calm && Releasable(op, orb, old(l), old(backend.t), r) ==>
                out.Ok? && backend.t == old(backend.t)
                && if op == Spawn then v.None? && Creatable(op, orb, l, backend.t, r2) else r2.stage == Deleted
    {
      r2, v := r, None;
      ghost var releasable := calm && Releasable(op, orb, l, backend.t, r);
      while true
        invariant Valid() && l.record == Some(r2) && r2.stage != Deleting && (r2.stage == Deleted ==> op == Spawn)
        invariant Grows(old(backend.log), backend.log)
        invariant calm ==> (r2 == r && l == old(l) && backend.t == old(backend.t))
                           || (ByProvider(op) && !(r.stage == New || r.stage == Deleted || Standing(orb, old(l), old(backend.t))))
        invariant releasable ==> (r2 == r && l == old(l) && backend.t == old(backend.t))
                                 || (op == Spawn && Left(orb, old(l), l, old(backend.t), backend.t, r, r2))
        decreases match r2.stage case Managed => 2 case Deleted => 1 case _ => 0
      {
        r2, v :- Glance(r2, calm);
        if v.Some? || r2.stage != Managed || !ByProvider(op) {
          return Ok, r2, v;
        }
        r2 :- ReleaseMissing(r2, calm);
        if op != Spawn {
          return Ok, r2, None;
        }
      }
    }

    method Seek(op: Operation, r: Record, calm: bool) returns (out: Outcome, r2: Record, v: Option<View>)
      requires Valid() && l.record == Some(r) && r.stage != Deleting && (r.stage == Deleted ==> op == Spawn)
      modifies this, backend
      ensures Grows(old(backend.log), backend.log) && l.record.Some?
      ensures Valid()
      ensures out.Ok? ==> l.record == Some(r2) && r2.stage != Deleting && (r2.stage == Deleted ==> op != Spawn)
      ensures calm && (Performable(op, orb, old(l), old(backend.t), r) || Creatable(op, orb, old(l), old(backend.t), r)) ==>
                out.Ok? && backend.t == old(backend.t) && Ready(op, orb, l, backend.t, r2, v)
      ensures calm && Succeedable(op, orb, old(l), old(backend.t), r) ==> out.Ok? && backend.t == old(backend.t) && Ready(op, orb, l, backend.t, r2, v)
      ensures calm && Releasable(op, orb, old(l), old(backend.t), r) ==>
                out.Ok? && backend.t == old(backend.t) && if op == Spawn then Ready(op, orb, l, backend.t, r2, v) else r2.stage == Deleted
      ensures calm && op == Cancel && r.stage != Deleted ==> out.Ok? && r2 == r && backend.t == old(backend.t)
    {
      if calm && Performable(op, orb, l, backend.t, r) {
        PerformableStands(op, orb, l, backend.t, r);
      } else if calm && Succeedable(op, orb, l, backend.t, r) {
        SucceededIsCreatable(op, orb, l, backend.t, r);
      }
      out, r2, v := Find(op, r, calm);
    }

    /** Is there a terminal receipt for exactly the pending operation? */
    method Settled(r: Record, calm: bool) returns (out: Outcome)
      requires Valid() && l.record == Some(r) && r.pending.Some? && r.request.Some? && r.instance.Some? && r.generation.Some?
      requires r.pending.value in {S.Start, S.Stop, S.Bootstrap}
      modifies this, backend
      ensures Grows(old(backend.log), backend.log)
      ensures Valid() && l.record == old(l.record)
      ensures out.Ok? ==> Ended(backend.t, r.request.value, OperationOf(orb, me, r))
      ensures calm ==> l == old(l) && backend.t == old(backend.t) && !out.Crash?
      ensures calm ==> (out.Ok? <==> Terminal(backend.t, r.request.value, OperationOf(orb, me, r)))
    {
      var res :- Result(r.request.value, calm);
      var terminal := (res.phase == S.Done || res.phase == S.Cancelled) && res.exitCode == 0;
      terminal := terminal || (r.pending == Some(S.Start) && res.phase == S.Rejected && res.exitCode != 0);
      return if res.binding != OperationOf(orb, me, r) || !terminal then Err else Ok;
    }

    /** Clears a pending operation that has ended. */
    method Clear(r: Record, calm: bool) returns (out: Outcome, r2: Record)
      requires Valid() && l.record == Some(r) && r.stage == Managed && r.pending.Some?
      requires r.request.Some? && r.instance.Some? && r.generation.Some? && Ended(backend.t, r.request.value, OperationOf(orb, me, r))
      modifies this, backend
      ensures Grows(old(backend.log), backend.log) && l.record.Some?
      ensures Valid() && r2 == Resolved(r)
      ensures out.Ok? ==> l.record == Some(r2) && (r.pending == Some(S.Bootstrap) ==> Bootstrapped(orb, me, backend.t, r2))
      ensures Ended(backend.t, r.request.value, OperationOf(orb, me, r))
      ensures calm ==> out.Ok? && l == Put(old(l), r2) && backend.t == old(backend.t)
    {
      assert Bound(orb, l, backend.t, r);
      r2 := Resolved(r);
      ResolvedSound(orb, me, l, backend.t, r);
      ghost var t := backend.t;
      out := Save(r2, calm, calm);
      EndedStays(t, backend.t, r.request.value, OperationOf(orb, me, r));
      if out.Ok? && r.pending == Some(S.Bootstrap) {
        ReachedGuest(orb, me, l, backend.t, r, r.request.value);
      }
    }

    /** Clears a pending operation on a terminal receipt for exactly that operation. */
    method ResolveOperation(r: Record, calm: bool) returns (out: Outcome, r2: Record)
      requires Valid() && l.record == Some(r) && r.stage == Managed && r.pending.Some?
      modifies this, backend
      ensures Grows(old(backend.log), backend.log) && l.record.Some?
      ensures Valid() && (r2 == r || r2.pending.None?)
      ensures r2 == r ==> l.record == Some(r) && !out.Ok?
      ensures out.Ok? ==> l.record == Some(r2) && r2 == Resolved(r) && (r.pending == Some(S.Bootstrap) ==> Bootstrapped(orb, me, backend.t, r2))
      ensures out.Ok? ==> r.request.Some? && r.instance.Some? && r.generation.Some? && Ended(backend.t, r.request.value, OperationOf(orb, me, r))
      ensures calm && r.request.Some? && r.instance.Some? && r.generation.Some? && Terminal(old(backend.t), r.request.value, OperationOf(orb, me, r)) ==>
                out.Ok? && l == Put(old(l), Resolved(r)) && backend.t == old(backend.t)
      ensures calm && r.request.Some? && r.instance.Some? && r.generation.Some? && !Terminal(old(backend.t), r.request.value, OperationOf(orb, me, r)) ==>
                out.Err? && r2 == r && l == old(l) && backend.t == old(backend.t)
    {
      r2 := r;
      assert Bound(orb, l, backend.t, r);
      out := Settled(r, calm);
      if out.Ok? {
        out, r2 := Clear(r, calm);
      }
    }

    method Operate(r: Record, operation: S.Command, q: S.RequestID, calm: bool) returns (out: Outcome, r2: Record)
      requires Valid() && l.record == Some(r) && r.stage == Managed && r.pending.None?
      requires operation == S.Start || operation == S.Stop
      modifies this, backend
      ensures Grows(old(backend.log), backend.log) && l.record.Some?
      ensures Valid() && (out.Ok? ==> l.record == Some(r2) && r2 == r.(request := None))
      ensures out.Ok? ==> r.instance.Some? && r.generation.Some? && Ended(backend.t, q, OperationOf(orb, me, r.(pending := Some(operation))))
      ensures calm && q !in old(backend.t).requests && r.instance.Some? && r.generation.Some? && r.instance.value in old(backend.t).instances
              && old(backend.t).instances[r.instance.value].state != S.Deleting && old(backend.t).instances[r.instance.value].state != S.Deleted ==>
                out.Ok? && l == Put(old(l), r2) && OperatedAs(old(backend.t), backend.t, q, OperationOf(orb, me, r.(pending := Some(operation))))
    {
      r2 := r.(pending := Some(operation), request := Some(q));
      assert Bound(orb, l, backend.t, r);
      Kept(orb, l, backend.t, r2);
      :- Save(r2, calm, calm);
      ghost var t := backend.t;
      :- SubmitOperation(q, OperationOf(orb, me, r2), calm);
      OperatedIsTerminal(t, backend.t, q, OperationOf(orb, me, r2));
      out, r2 := ResolveOperation(r2, calm);
    }

    method Announce(r: Record, calm: bool) returns (out: Outcome)
      requires Valid() && l.record == Some(r) && r.stage == New
      modifies this, backend
      ensures Grows(old(backend.log), backend.log)
      ensures Valid() && (l.record == Some(r) || l.record == Some(r.(stage := Creating)))
      ensures out.Ok? ==> l.record == Some(r.(stage := Creating)) && Unborn(l, Current(orb, l)) && Current(orb, l) !in l.unanswered
      ensures calm ==> out.Ok? && l == Put(old(l), r.(stage := Creating)) && backend.t == old(backend.t)
    {
      assert Unbound(orb, l, backend.t, r);
      Kept(orb, l, backend.t, r.(stage := Creating));
      out := Save(r.(stage := Creating), calm, calm);
    }

    /** Nothing was created: the record is as it was before the create. */
    method Revert(r: Record, calmRevert: bool) returns (out: Outcome)
      requires Valid() && l.record == Some(r.(stage := Creating)) && r.stage == New && Unbound(orb, l, backend.t, r)
      modifies this, backend
      ensures Grows(old(backend.log), backend.log)
      ensures Valid() && !out.Ok? && (l.record == Some(r) || l.record == old(l).record)
      ensures calmRevert ==> l.record == Some(r)
    {
      Kept(orb, l, backend.t, r);
      out := Save(r, calmRevert, false);
      out := if out.Crash? then Crash else Err;
    }

    /** The VM that was just created must be in the inventory. */
    method Discover(ghost before: S.Tables, calm: bool) returns (out: Outcome, v: View)
      requires Valid()
      modifies this, backend
      ensures Grows(old(backend.log), backend.log)
      ensures Valid() && l.record == old(l).record && (out.Ok? ==> Seen(orb, l, backend.t, v))
      ensures calm ==> l == old(l) && backend.t == old(backend.t)
      ensures calm && (exists i :: Newborn(orb, old(l), before, old(backend.t), i)) ==>
                out.Ok? && Shows(orb, l, backend.t, v) && v.state == S.Provisioning && v.generation == 0 && backend.t.requests == before.requests
    {
      v := View(0, 0, S.Ready, 0);
      var found :- Locate(calm);
      if calm && exists i :: Newborn(orb, l, before, backend.t, i) {
        NewbornSeen(orb, l, before, backend.t, found);
      }
      return if found.None? then Err else Ok, if found.None? then v else found.value;
    }

    /** The record says `creating` before the create is sent; only a refusal takes it back,
        and `calmRevert` keeps faults out of that write alone. */
    method Create(r: Record, calm: bool, calmRevert: bool) returns (out: Outcome, r2: Record, v: View, reply: CreateReply)
      requires Valid() && l.record == Some(r) && r.stage == New
      modifies this, backend
      ensures Grows(old(backend.log), backend.log)
      ensures Valid() && r2.previous == r.previous
      ensures out.Ok? ==> l.record == Some(r2) && r2 == r.(stage := Creating) && Seen(orb, l, backend.t, v)
      ensures l.record == Some(r) || l.record == Some(r.(stage := Creating))
      ensures out.Ok? ==> reply.Created?
      ensures reply.Rejected? ==> !out.Ok? && (calmRevert ==> l.record == Some(r))
      ensures calm && Free(old(backend.t), Current(orb, old(l))) ==>
                out.Ok? && Current(orb, l) == Current(orb, old(l)) && Shows(orb, l, backend.t, v) && v.state == S.Provisioning && v.generation == 0
                && backend.t.requests == old(backend.t).requests
    {
      r2, v, reply := r.(stage := Creating), View(0, 0, S.Ready, 0), Unknown;
      :- Announce(r, calm);
      reply := SubmitCreate(calm);
      if reply.Rejected? {
        out := Revert(r, calmRevert);
        return out, r, v, reply;
      }
      if reply.Unknown? {
        return Err, r2, v, reply;
      }
      out, v := Discover(old(backend.t), calm);
    }

    method Examine(r: Record, calm: bool) returns (out: Outcome, v: View)
      requires Valid() && l.record == Some(r) && (r.stage == Creating || r.stage == Managed)
      modifies this, backend
      ensures Grows(old(backend.log), backend.log)
      ensures Valid() && Rely(old(l), old(backend.t), l, backend.t)
      ensures out.Ok? ==> Seen(orb, l, backend.t, v) && ReportedSince(backend.log, old(backend.log).now, v)
      ensures calm ==> l == old(l) && backend.t == old(backend.t)
      ensures calm && Newest(orb, old(l), old(backend.t)) ==> out.Ok? && Shows(orb, l, backend.t, v) && v.generation == 0
      ensures calm && Bindable(orb, old(l), old(backend.t), r) ==> out.Ok? && Shows(orb, l, backend.t, v) && r.instance == Some(v.id) && Matches(r, v)
    {
      ghost var newest, bindable := calm && Newest(orb, l, backend.t), calm && Bindable(orb, l, backend.t, r);
      assert newest || bindable ==> Rowed(orb, l, backend.t);
      out, v := Inspect(calm);
      if newest {
        NewestIsSeen(orb, l, backend.t, v);
      }
      if bindable {
        BindableIsSeen(orb, l, backend.t, r, v);
      }
    }

    /** Compares the record with what the backend reports, or proposes a binding. */
    method Agree(op: Operation, target: nat, created: bool, r: Record, calm: bool) returns (out: Outcome, r2: Record, v: View)
      requires Valid() && l.record == Some(r) && (r.stage == Creating || r.stage == Managed)
      modifies this, backend
      ensures Grows(old(backend.log), backend.log)
      ensures Valid() && Rely(old(l), old(backend.t), l, backend.t)
      ensures out.Ok? ==> Seen(orb, l, backend.t, v) && ReportedSince(backend.log, old(backend.log).now, v) && Matches(r2, v)
      ensures out.Ok? && op == Spawn && r2.pending == Some(S.Bootstrap) ==> v.state == S.Ready
      ensures out.Ok? ==>
                if r.instance.Some? then r2 == r
                else r2 == r.(instance := Some(v.id), created := v.created, generation := Some(0)) && (created || (op == Bind && target == v.id))
      ensures calm ==> l == old(l) && backend.t == old(backend.t)
      ensures calm && r.instance.None? && created && Newest(orb, old(l), old(backend.t)) ==> out.Ok? && Shows(orb, l, backend.t, v)
      ensures calm && Bindable(orb, old(l), old(backend.t), r) && r.pending.None? ==> out.Ok? && Shows(orb, l, backend.t, v)
    {
      r2 := r;
      v :- Examine(r, calm);
      if r.instance.None? {
        if !created && !(op == Bind && target == v.id) {
          return Err, r, v;
        }
        if v.generation != 0 {
          return Err, r, v;
        }
        r2 := r.(instance := Some(v.id), created := v.created, generation := Some(0));
      }
      out := if !Matches(r2, v) || (r2.pending == Some(S.Bootstrap) && op == Spawn && v.state != S.Ready) then Err else Ok;
    }

    /** Binds an unbound record to the instance it was created for, and checks a bound one
        against the instance it names. */
    method Adopt(op: Operation, target: nat, created: bool, r: Record, calm: bool) returns (out: Outcome, r2: Record, v: View)
      requires Valid() && l.record == Some(r) && (r.stage == Creating || r.stage == Managed)
      requires op != Cancel && (r.pending.Some? ==> r.pending == Some(S.Bootstrap) && (op == Spawn || op == Delete))
      modifies this, backend
      ensures Grows(old(backend.log), backend.log) && l.record.Some?
      ensures Valid() && (r2.stage == Managed || !out.Ok?)
      ensures out.Ok? ==> l.record == Some(r2) && Matches(r2, v) && v.id in backend.t.generations && v.generation <= backend.t.generations[v.id]
      ensures out.Ok? ==> ReportedSince(backend.log, old(backend.log).now, v)
      ensures out.Ok? && op == Spawn && r2.pending.Some? ==> v.state == S.Ready
      ensures out.Ok? && r.instance.Some? ==> r2 == r
      ensures out.Ok? && r.instance.None? ==> r2.generation == Some(0) && r2.pending.None? && (created || (op == Bind && r2.instance == Some(target)))
      ensures calm && r.instance.None? && created && Newest(orb, old(l), old(backend.t)) ==>
                out.Ok? && Current(orb, l) == Current(orb, old(l)) && backend.t == old(backend.t) && Bindable(orb, l, backend.t, r2)
                && Shows(orb, l, backend.t, v) && r2.instance == Some(v.id) && r2.generation == Some(0)
      ensures calm && Bindable(orb, old(l), old(backend.t), r) && r.pending.None? ==>
                out.Ok? && l == old(l) && backend.t == old(backend.t) && Shows(orb, l, backend.t, v) && r2 == r && r.instance == Some(v.id)
    {
      r2 := r;
      r2, v :- Agree(op, target, created, r, calm);
      ghost var inspected := backend.log;
      r2 := r2.(stage := Managed);
      AdoptedSound(orb, l, backend.t, r, r2, v);
      out := Save(r2, calm, calm);
      SinceStays(inspected, backend.log, old(backend.log).now, old(backend.log).now, v);
    }

    method Remove(r: Record, q: S.RequestID, calm: bool) returns (out: Outcome)
      requires Valid() && l.record == Some(r) && r.stage == Managed
      modifies this, backend
      ensures Grows(old(backend.log), backend.log) && l.record.Some?
      ensures Valid() && (out.Ok? ==> l.record.value.stage == Deleted && l.record.value.instance == r.instance)
      ensures calm && q !in old(backend.t).requests && Current(orb, old(l)) !in old(l).proofs && r.instance.Some? && r.instance.value in old(backend.t).instances
              && S.Deletable(old(backend.t).instances[r.instance.value], Current(orb, old(l)), r.created) ==>
                out.Ok?
    {
      ghost var t := backend.t;
      var r2 := r.(stage := Deleting, request := Some(q));
      assert Bound(orb, l, backend.t, r);
      Kept(orb, l, backend.t, r2);
      :- Save(r2, calm, calm);
      assert r.instance.Some?;
      :- SubmitDelete(r2, q, calm);
      r2 :- FinishDelete(r2, calm);
      return Ok;
    }

    /** Every attempt gets a generation of its own, recorded before it is sent. */
    method SendBootstrap(r: Record, v: View, q: S.RequestID, calm: bool) returns (out: Outcome, r2: Record)
      requires Valid() && l.record == Some(r) && r.stage == Managed && (r.pending.Some? ==> r.pending == Some(S.Bootstrap))
      requires Matches(r, v) && v.id in backend.t.generations && v.generation <= backend.t.generations[v.id]
      modifies this, backend
      ensures Grows(old(backend.log), backend.log) && l.record.Some?
      ensures Valid()
      ensures out.Ok? ==> l.record == Some(r2) && Bootstrapped(orb, me, backend.t, r2)
                          && r2.instance == r.instance && r2.generation.value == r.generation.value + 1
      ensures calm && q !in old(backend.t).requests && r.generation.value < MAX_GENERATION ==> out.Ok?
    {
      r2 := r;
      if r.generation.value == MAX_GENERATION {
        return Err, r;
      }
      r2 := r.(floor := v.generation, generation := Some(r.generation.value + 1), pending := Some(S.Bootstrap), request := Some(q));
      assert Bound(orb, l, backend.t, r);
      Kept(orb, l, backend.t, r2);
      :- Save(r2, calm, calm);
      :- SubmitBootstrap(q, OperationOf(orb, me, r2), calm);
      out, r2 := ResolveOperation(r2, calm);
    }

    /** Is the guest ready, or still coming up?  Anything else ends the wait. */
    method IsReady(r: Record, calm: bool) returns (out: Outcome, v: View)
      requires Valid() && l.record == Some(r) && r.stage == Managed
      modifies this, backend
      ensures Grows(old(backend.log), backend.log)
      ensures Valid() && l.record == Some(r)
      ensures out.Ok? ==> Matches(r, v) && Coming(v.state) && v.id in backend.t.generations && v.generation <= backend.t.generations[v.id]
      ensures calm ==> l == old(l) && backend.t == old(backend.t)
      ensures calm && Awaited(orb, l, backend.t, r) ==> out.Ok? && r.instance == Some(v.id) && v.state == backend.t.instances[v.id].state
    {
      v :- Inspect(calm);
      if calm && Awaited(orb, l, backend.t, r) {
        BindableIsSeen(orb, l, backend.t, r, v);
      }
      out := if Matches(r, v) && Coming(v.state) then Ok else Err;
    }

    /** Between two looks; in a calm run the guest becomes ready. */
    method Idle(r: Record, i: S.InstanceID, calm: bool)
      requires Valid() && l.record == Some(r)
      modifies this, backend
      ensures Grows(old(backend.log), backend.log)
      ensures Valid() && l.record == Some(r)
      ensures calm && Awaited(orb, old(l), old(backend.t), r) && r.instance == Some(i) ==>
                && l == old(l) && backend.t.requests == old(backend.t).requests && Awaited(orb, l, backend.t, r)
                && backend.t.instances[i].state == S.Ready
    {
      if calm {
        ghost var t := backend.t;
        Become(i, S.Ready);
        if Awaited(orb, l, t, r) && r.instance == Some(i) {
          ComesUp(orb, l, t, backend.t, r, S.Ready);
        }
      } else {
        Others(false);
      }
    }

    /** Waits until the guest is ready, for as long as the job may. */
    method AwaitGuest(r: Record, calm: bool) returns (out: Outcome, v: View)
      requires Valid() && l.record == Some(r) && r.stage == Managed
      modifies this, backend
      ensures Grows(old(backend.log), backend.log)
      ensures Valid() && l.record == Some(r)
      ensures out.Ok? ==> Matches(r, v) && v.state == S.Ready && v.id in backend.t.generations && v.generation <= backend.t.generations[v.id]
      ensures calm && Awaited(orb, old(l), old(backend.t), r) ==> out.Ok? && l == old(l) && backend.t.requests == old(backend.t).requests
    {
      v := View(0, 0, S.Ready, 0);
      var patience: nat := *;
      if calm {
        patience := 2;
      }
      ghost var able := calm && Awaited(orb, l, backend.t, r);
      while patience > 0
        invariant Valid() && l.record == Some(r)
        invariant Grows(old(backend.log), backend.log)
        invariant able ==> calm && patience > 0 && l == old(l) && backend.t.requests == old(backend.t).requests && Awaited(orb, l, backend.t, r)
        invariant able && patience == 1 ==> backend.t.instances[r.instance.value].state == S.Ready
      {
        v :- IsReady(r, calm);
        if v.state == S.Ready {
          return Ok, v;
        }
        Idle(r, v.id, calm);
        patience := patience - 1;
      }
      return Err, v;
    }

    /** One bootstrap, once the guest is ready for it. */
    method RunBootstrap(r: Record, q: S.RequestID, calm: bool) returns (out: Outcome, r2: Record)
      requires Valid() && l.record == Some(r) && r.stage == Managed && (r.pending.Some? ==> r.pending == Some(S.Bootstrap))
      requires r.generation.Some?
      modifies this, backend
      ensures Grows(old(backend.log), backend.log) && l.record.Some?
      ensures Valid()
      ensures out.Ok? ==> l.record == Some(r2) && Bootstrapped(orb, me, backend.t, r2)
                          && r2.instance == r.instance && r2.generation.value == r.generation.value + 1
      ensures calm && q !in old(backend.t).requests && r.generation.value < MAX_GENERATION && Awaited(orb, old(l), old(backend.t), r) ==> out.Ok?
    {
      r2 := r;
      var v :- AwaitGuest(r, calm);
      out, r2 := SendBootstrap(r, v, q, calm);
    }

    method StopUnlessStopped(r: Record, v: View, ghost from: nat, q: S.RequestID, calm: bool) returns (out: Outcome)
      requires Valid() && l.record == Some(r) && r.stage == Managed && r.pending.None?
      requires Matches(r, v) && ReportedSince(backend.log, from, v)
      modifies this, backend
      ensures Grows(old(backend.log), backend.log) && l.record.Some?
      ensures Valid() && (out.Ok? ==> Paused(orb, me, backend.t, backend.log, from, q, l.record.value))
      ensures v.state == S.Stopped ==> out.Ok? && l == old(l) && backend.t == old(backend.t)
      ensures calm && q !in old(backend.t).requests && Stoppable(orb, old(l), old(backend.t), r) ==> out.Ok?
    {
      out := Ok;
      if v.state != S.Stopped {
        var r2;
        out, r2 := Operate(r, S.Stop, q, calm);
      }
    }

    /** What remains once the record and the VM agree. */
    method Perform(op: Operation, r: Record, v: View, ghost from: nat, q: S.RequestID, calm: bool) returns (out: Outcome)
      requires Valid() && l.record == Some(r) && r.stage == Managed && (op == Pause || op == Delete)
      requires r.pending.Some? ==> r.pending == Some(S.Bootstrap) && op == Delete
      requires Matches(r, v) && ReportedSince(backend.log, from, v)
      modifies this, backend
      ensures Grows(old(backend.log), backend.log) && l.record.Some?
      ensures Valid() && (out.Ok? ==> Done(op, orb, me, backend.t, backend.log, from, q, l.record.value))
      ensures calm && q !in old(backend.t).requests && Stoppable(orb, old(l), old(backend.t), r) && r.pending.None?
              && (op == Delete ==> Current(orb, old(l)) !in old(l).proofs) ==>
                out.Ok?
    {
      if op == Pause {
        out := StopUnlessStopped(r, v, from, q, calm);
      } else {
        if calm && Stoppable(orb, l, backend.t, r) {
          StoppableIsDeletable(orb, l, backend.t, r);
        }
        out := Remove(r, q, calm);
      }
    }

    method EnsureStarted(r: Record, v: View, q: S.RequestID, ghost q2: S.RequestID, calm: bool) returns (out: Outcome, r2: Record)
      requires Valid() && l.record == Some(r) && r.stage == Managed
      requires r.pending.Some? ==> r.pending == Some(S.Bootstrap) && v.state == S.Ready
      modifies this, backend
      ensures Grows(old(backend.log), backend.log) && l.record.Some?
      ensures Valid() && r2 == r.(request := r2.request) && (out.Ok? ==> l.record == Some(r2))
      ensures calm && Unused(old(backend.t), q, q2) && Spawnable(orb, old(l), old(backend.t), r) && Shows(orb, old(l), old(backend.t), v) && v.id == r.instance.value ==>
                out.Ok? && Awaited(orb, l, backend.t, r2) && r2.generation.value < MAX_GENERATION && q2 !in backend.t.requests
    {
      out, r2 := Ok, r;
      if v.state == S.Stopped {
        var r3 :- Operate(r, S.Start, q, calm);
        r2 := r.(request := None);
      }
    }

    method StartAndBootstrap(r: Record, v: View, q: S.RequestID, q2: S.RequestID, calm: bool) returns (out: Outcome, r2: Record)
      requires Valid() && l.record == Some(r) && r.stage == Managed && r.generation.Some?
      requires r.pending.Some? ==> r.pending == Some(S.Bootstrap) && v.state == S.Ready
      modifies this, backend
      ensures Grows(old(backend.log), backend.log) && l.record.Some?
      ensures Valid()
      ensures out.Ok? ==> l.record == Some(r2) && Bootstrapped(orb, me, backend.t, r2)
                          && r2.instance == r.instance && r2.generation.value == r.generation.value + 1
      ensures calm && Unused(old(backend.t), q, q2) && Spawnable(orb, old(l), old(backend.t), r) && Shows(orb, old(l), old(backend.t), v) && v.id == r.instance.value ==>
                out.Ok?
    {
      r2 :- EnsureStarted(r, v, q, q2, calm);
      out, r2 := RunBootstrap(r2, q2, calm);
    }

    /** The lock and the record. */
    method Enter(op: Operation, admitted: S.Name, sawLock: bool, calm: bool) returns (out: Outcome, r: Record)
      requires Valid() && (sawLock ==> l.locked) && (l.record.None? && !sawLock ==> Untouched(l))
      modifies this`l
      ensures Valid() && (out.Ok? ==> l.record == Some(r))
      ensures (old(l).record.Some? ==> l.record.Some?) && (old(l).locked ==> l.locked)
      ensures old(l).record.None? && sawLock ==> out == Err && l == old(l)
      ensures l.record.None? && Untouched(old(l)) ==> Untouched(l)
      ensures old(l).record.Some? && ByProvider(op) && S.OrbName(orb, old(l).record.value.previous) != admitted ==> out == Err && l == old(l)
      ensures Expected(op, orb, old(l), admitted) ==> out.Ok? && r == old(l).record.value && l == old(l)
      ensures calm && Welcome(op, orb, old(l), backend.t, admitted, sawLock) ==> out.Ok? && Doable(op, orb, l, backend.t, r)
    {
      out, r := Open(op, admitted, sawLock, calm);
      if calm && old(l).record.None? {
        BlankIsCreatable(op, orb, old(l), backend.t);
      }
    }

    /** Others go on meanwhile.  Only a deletion or a spawn goes on with a deletion that was
        begun. */
    method Resume(op: Operation, ghost target: S.RequestID, r: Record, calm: bool) returns (out: Outcome, r2: Record)
      requires Valid() && l.record == Some(r)
      modifies this, backend
      ensures Grows(old(backend.log), backend.log) && l.record.Some?
      ensures Valid() && (out.Ok? ==> l.record == Some(r2) && r2.stage != Deleting)
      ensures r.stage != Deleting ==> out.Ok? && r2 == r && (calm ==> l == old(l) && backend.t == old(backend.t))
      ensures r.stage == Deleting && op != Delete && op != Spawn ==> out == Err && l.record == Some(r)
      ensures r.stage == Deleting && out.Ok? ==> r2.stage == Deleted
      ensures calm && Ending(op, target, orb, me, old(l), old(backend.t), r) ==> out.Ok? && Ending(op, target, orb, me, l, backend.t, r2)
      ensures calm && op == Spawn && r.stage == Deleting && Endable(orb, me, old(l), old(backend.t), r) ==> out.Ok?
    {
      Others(calm);
      r2 := r;
      if r.stage == Deleting {
        if op != Delete && op != Spawn {
          return Err, r;
        }
        r2 :- FinishDelete(r, calm);
        r2 := r2.(stage := Deleted);
      }
      return Ok, r2;
    }

    /** A pending operation comes first.  Only a bootstrap can be overtaken. */
    method Settle(op: Operation, target: nat, r: Record, calm: bool) returns (out: Outcome)
      requires Valid() && l.record == Some(r) && r.stage != Deleting && r.stage != Deleted
      modifies this, backend
      ensures Grows(old(backend.log), backend.log) && l.record.Some?
      ensures Valid()
      ensures out.Ok? ==> l.record.value.stage == r.stage && l.record.value.previous == r.previous
      ensures out.Ok? && l.record.value.pending.Some? ==>
                l.record.value.pending == Some(S.Bootstrap) && (op == Spawn || op == Delete)
      ensures out.Ok? && op == Cancel ==> r.stage == Managed
      ensures r.pending.None? && op != Cancel ==> out.Ok? && l == old(l) && backend.t == old(backend.t)
      ensures op == Cancel && (r.pending.None? || r.pending == Some(S.Bootstrap) || r.request != Some(target)) ==>
                out == Err && l == old(l) && backend.t == old(backend.t)
      ensures calm && op == Cancel && Cancellable(orb, me, old(backend.t), r, target) ==> out.Ok? && l.record == Some(Resolved(r))
      ensures calm && op != Cancel && r.pending.Some? && r.request.Some? && r.instance.Some? && r.generation.Some?
              && Terminal(old(backend.t), r.request.value, OperationOf(orb, me, r)) ==>
                out.Ok? && l == Put(old(l), Resolved(r)) && backend.t == old(backend.t)
      ensures calm && (op == Spawn || op == Delete) && r.pending == Some(S.Bootstrap) && r.request.Some? && r.instance.Some? && r.generation.Some?
              && !Terminal(old(backend.t), r.request.value, OperationOf(orb, me, r)) ==>
                out.Ok? && l == old(l) && backend.t == old(backend.t)
    {
      if r.pending.None? {
        return if op == Cancel then Err else Ok;
      }
      assert Bound(orb, l, backend.t, r);
      if op == Cancel {
        if r.request != Some(target) || r.pending == Some(S.Bootstrap) {
          return Err;
        }
        :- SubmitCancel(target, OperationOf(orb, me, r), calm);
      }
      var r2;
      out, r2 := ResolveOperation(r, calm);
      if out.Err? && r2.pending == Some(S.Bootstrap) && (op == Spawn || op == Delete) {
        out := Ok;
      }
    }

    /** The work on a VM that was found or has just been created. */
    method Act(op: Operation, target: nat, created: bool, r: Record, q: S.RequestID, q2: S.RequestID, calm: bool) returns (out: Outcome)
      requires Valid() && l.record == Some(r) && (r.stage == Creating || r.stage == Managed)
      requires op != Cancel && (r.pending.Some? ==> r.pending == Some(S.Bootstrap) && (op == Spawn || op == Delete))
      modifies this, backend
      ensures Grows(old(backend.log), backend.log) && l.record.Some?
      ensures Valid() && (out.Ok? ==> Done(op, orb, me, backend.t, backend.log, old(backend.log).now, q, l.record.value))
      ensures out.Ok? && op == Bind && r.instance.None? && !created ==> l.record.value.instance == Some(target)
      ensures calm && Unused(old(backend.t), q, q2) && op == Spawn && created && r.instance.None? && Dawning(orb, old(l), old(backend.t)) ==> out.Ok?
      ensures calm && Unused(old(backend.t), q, q2) && Performable(op, orb, old(l), old(backend.t), r) ==> out.Ok?
    {
      var r2, v;
      ghost var was, t := l, backend.t;
      r2, v :- Adopt(op, target, created, r, calm);
      if op == Bind {
        return Ok;
      }
      if calm && op == Spawn && created && r.instance.None? && Dawning(orb, was, t) {
        DawningIsSpawnable(orb, l, t, r2);
      }
      if op == Spawn {
        out, r2 := StartAndBootstrap(r2, v, q, q2, calm);
      } else {
        out := Perform(op, r2, v, old(backend.log).now, q, calm);
      }
    }

    method Proceed(op: Operation, target: nat, r: Record, v: Option<View>, q: S.RequestID, q2: S.RequestID, calm: bool, calmRevert: bool)
      returns (out: Outcome, reply: CreateReply)
      requires Valid() && l.record == Some(r) && r.stage != Deleting && r.stage != Deleted && op != Cancel
      requires r.pending.Some? ==> r.pending == Some(S.Bootstrap) && (op == Spawn || op == Delete)
      modifies this, backend
      ensures Grows(old(backend.log), backend.log) && l.record.Some?
      ensures Valid() && (out.Ok? ==> Done(op, orb, me, backend.t, backend.log, old(backend.log).now, q, l.record.value))
      ensures out.Ok? && op == Bind && r.instance.None? ==> l.record.value.instance == Some(target)
      ensures (v.Some? && r.stage == New) || (v.None? && r.stage != New) ==> out == Err && l == old(l) && backend.t == old(backend.t)
      ensures reply.Rejected? ==> !out.Ok? && r.stage == New && (calmRevert ==> l.record == Some(r))
      ensures calm && Unused(old(backend.t), q, q2) && Ready(op, orb, old(l), old(backend.t), r, v) ==> out.Ok?
    {
      reply := Unknown;
      if v.Some? && r.stage == New {
        return Err, reply;
      }
      var r2, created, w := r, false, View(0, 0, S.Ready, 0);
      if v.None? {
        if r.stage == Creating || r.stage == Managed || op == Bind {
          return Err, reply;
        }
        if op == Delete || op == Pause {
          return Ok, reply;
        }
        var sent;
        out, r2, w, sent := Create(r, calm, calmRevert);
        if !out.Ok? {
          return out, sent;
        }
        created := true;
      }
      out := Act(op, target, created, r2, q, q2, calm);
    }

    method SettleAndProceed(op: Operation, target: nat, r: Record, v: Option<View>, q: S.RequestID, q2: S.RequestID, calm: bool, calmRevert: bool)
      returns (out: Outcome, reply: CreateReply)
      requires Valid() && l.record == Some(r) && r.stage != Deleting && r.stage != Deleted
      modifies this, backend
      ensures Grows(old(backend.log), backend.log) && l.record.Some?
      ensures Valid() && (out.Ok? ==> Done(op, orb, me, backend.t, backend.log, old(backend.log).now, q, l.record.value))
      ensures reply.Rejected? ==> !out.Ok? && (calmRevert ==> Awaits(l.record.value))
      ensures calm && Unused(old(backend.t), q, q2) && Ready(op, orb, old(l), old(backend.t), r, v) ==> out.Ok?
      ensures calm && op == Cancel && Cancellable(orb, me, old(backend.t), r, target) ==> out.Ok?
    {
      reply := Unknown;
      out := Settle(op, target, r, calm);
      if out.Ok? && op != Cancel {
        out, reply := Proceed(op, target, l.record.value, v, q, q2, calm, calmRevert);
      }
    }

    method Work(op: Operation, target: nat, r0: Record, q: S.RequestID, q2: S.RequestID, calm: bool, calmRevert: bool)
      returns (out: Outcome, reply: CreateReply)
      requires Valid() && l.record == Some(r0) && r0.stage != Deleting && (r0.stage == Deleted ==> op == Spawn)
      modifies this, backend
      ensures Grows(old(backend.log), backend.log) && l.record.Some?
      ensures Valid() && (out.Ok? ==> Done(op, orb, me, backend.t, backend.log, old(backend.log).now, q, l.record.value))
      ensures reply.Rejected? ==> !out.Ok? && (calmRevert ==> Awaits(l.record.value))
      ensures calm && Unused(old(backend.t), q, q2) && Doable(op, orb, old(l), old(backend.t), r0) ==> out.Ok?
      ensures calm && Ending(op, target, orb, me, old(l), old(backend.t), r0) ==> out.Ok?
    {
      reply := Unknown;
      ghost var doable := calm && Doable(op, orb, l, backend.t, r0);
      var r, v;
      r, v :- Seek(op, r0, calm);
      assert doable ==> Ready(op, orb, l, backend.t, r, v) || r.stage == Deleted;
      if r.stage == Deleted {
        DeletedIsDone(op, orb, me, l, backend.t, backend.log, old(backend.log).now, q, r);
        return Ok, reply;
      }
      out, reply := SettleAndProceed(op, target, r, v, q, q2, calm, calmRevert);
    }

    method Pursue(op: Operation, target: nat, r0: Record, q: S.RequestID, q2: S.RequestID, calm: bool, calmRevert: bool)
      returns (out: Outcome, reply: CreateReply)
      requires Valid() && l.record == Some(r0)
      modifies this, backend
      ensures Grows(old(backend.log), backend.log) && l.record.Some?
      ensures Valid() && (out.Ok? ==> Done(op, orb, me, backend.t, backend.log, old(backend.log).now, q, l.record.value))
      ensures reply.Rejected? ==> !out.Ok? && (calmRevert ==> Awaits(l.record.value))
      ensures calm && Unused(old(backend.t), q, q2) && Doable(op, orb, old(l), old(backend.t), r0) ==> out.Ok?
      ensures calm && Ending(op, target, orb, me, old(l), old(backend.t), r0) ==> out.Ok?
    {
      reply := Unknown;
      ghost var was, t, doable := l, backend.t, calm && Doable(op, orb, l, backend.t, r0);
      if doable {
        DoableIsOpen(op, orb, l, backend.t, r0);
      }
      var r :- Resume(op, target, r0, calm);
      assert doable ==> r == r0 && l == was && backend.t == t;
      if r.stage == Deleted && op != Spawn {
        DeletedIsDone(op, orb, me, l, backend.t, backend.log, old(backend.log).now, q, r);
        return Ok, reply;
      }
      out, reply := Work(op, target, r, q, q2, calm, calmRevert);
    }

    /** One job.  `admitted` is the name it read before it had the lock, and `sawLock` says
        whether the lock existed then. */
    method Dispatch(op: Operation, target: nat, admitted: S.Name, sawLock: bool, q: S.RequestID, q2: S.RequestID, calm: bool, calmRevert: bool)
      returns (out: Outcome, reply: CreateReply)
      requires Valid() && (sawLock ==> l.locked) && (l.record.None? && !sawLock ==> Untouched(l))
      modifies this, backend
      ensures Grows(old(backend.log), backend.log) && (old(l).record.Some? ==> l.record.Some?) && (old(l).locked ==> l.locked)
      ensures Valid()
      ensures out.Ok? ==> l.record.Some? && Done(op, orb, me, backend.t, backend.log, old(backend.log).now, q, l.record.value)
      ensures old(l).record.None? && sawLock ==> out == Err && l == old(l) && backend.t == old(backend.t)
      ensures l.record.None? && Untouched(old(l)) ==> Untouched(l)
      ensures old(l).record.Some? && ByProvider(op) && S.OrbName(orb, old(l).record.value.previous) != admitted ==>
                out == Err && l == old(l) && backend.t == old(backend.t)
      ensures reply.Rejected? ==> !out.Ok? && (calmRevert ==> l.record.Some? && Awaits(l.record.value))
      ensures calm && Unused(old(backend.t), q, q2) && Welcome(op, orb, old(l), old(backend.t), admitted, sawLock) ==> out.Ok?
      ensures calm && Expected(op, orb, old(l), admitted) && Ending(op, target, orb, me, old(l), old(backend.t), old(l).record.value) ==> out.Ok?
    {
      reply := Unknown;
      var r :- Enter(op, admitted, sawLock, calm);
      out, reply := Pursue(op, target, r, q, q2, calm, calmRevert);
    }

    /** After a create that was explicitly refused the next spawn of the current name is
        accepted and finds nothing to reconcile: it may create again. */
    method SpawnAgain(admitted: S.Name, sawLock: bool, q: S.RequestID, q2: S.RequestID)
      returns (first: Outcome, reply: CreateReply, second: Outcome, r: Record)
      requires Valid() && (sawLock ==> l.locked) && (l.record.None? && !sawLock ==> Untouched(l))
      modifies this, backend
      ensures Valid() && (reply.Rejected? ==> !first.Ok? && second.Ok? && Awaits(r) && l.record == Some(r))
    {
      r, second := BLANK, Err;
      first, reply := Dispatch(Spawn, 0, admitted, sawLock, q, q2, false, true);
      if reply.Rejected? {
        Others(false);
        second, r := Open(Spawn, Current(orb, l), true, false);
      }
    }

    // ---- Any history ----

    /** A first job that ends between its lock and its record.  Every job that looks after
        that is refused and nothing is ever created. */
    method LockOnly(jobs: nat)
      requires Valid() && l == UNUSED
      modifies this, backend
      ensures Grows(old(backend.log), backend.log)
      ensures Valid() && l == UNUSED.(locked := true) && backend.t == old(backend.t)
    {
      TakeLock();
      for k := 0 to jobs
        invariant Valid() && l == UNUSED.(locked := true) && backend.t == old(backend.t)
        invariant Grows(old(backend.log), backend.log)
      {
        var op: Operation, target: nat, admitted: S.Name, q: S.RequestID, q2: S.RequestID := *, *, *, *, *;
        var out, _ := Dispatch(op, target, admitted, l.locked, q, q2, false, false);
        assert out == Err;
      }
    }

    method LoseRecord()
      requires Valid()
      modifies this
      ensures Valid() && l == old(l).(record := None)
    {
      l := l.(record := None);
    }

    /** What keeps the orb sound while jobs wait. */
    ghost predicate Guarded(waiting: seq<Job>)
      reads this, backend
    {
      && Valid()
      && (forall j | j in waiting && j.sawLock :: l.locked)
      && (l.record.None? && Early(waiting) ==> Untouched(l))
    }

    /** A job looks and begins to wait, gets its turn, or creates the lock file; the record
        is lost; or others act. */
    method Step(waiting: seq<Job>) returns (next: seq<Job>)
      requires Guarded(waiting)
      modifies this, backend
      ensures Guarded(next)
    {
      next := waiting;
      var op: Operation, target: nat, admitted: S.Name, q: S.RequestID, q2: S.RequestID, k: int := *, *, *, *, *, *;
      if {
      case true =>
        next := waiting + [Job(op, target, admitted, l.locked)];
      case 0 <= k < |waiting| =>
        var j := waiting[k];
        next := waiting[..k] + waiting[k + 1..];
        var out, _ := Dispatch(j.op, j.target, j.admitted, j.sawLock, q, q2, false, false);
      case !l.locked =>
        TakeLock();
      case !Early(waiting) || Untouched(l) =>
        LoseRecord();
      case true =>
        Others(false);
      }
    }

    /** Any number of jobs, in any order, with any faults and any wait between a job's look
        at the lock and its turn.  The record may even be lost, unless an early job is still
        waiting and the orb has been touched. */
    method Run(steps: nat)
      requires Valid()
      modifies this, backend
      ensures Valid()
      ensures forall i, j | LiveVM(orb, backend.t, i) && LiveVM(orb, backend.t, j) :: i == j
      ensures forall i, j, x, y | i in l.born && j in l.born && (x, i) in backend.held && (y, j) in backend.held :: i == j
    {
      var waiting: seq<Job> := [];
      for k := 0 to steps
        invariant Guarded(waiting)
      {
        waiting := Step(waiting);
      }
      OneLiveVM(orb, l, backend.t, backend.held);
    }
  }
}
