/** Cold migration between hosts: the durable records of every host, the artifacts on their
    way between them, and the front end that drives one migration.  Instance IDs are fresh
    everywhere, so each belongs to one host. */
module Migration {
  import opened Faults

  type InstanceID = nat
  type HostID = nat
  type Name = nat
  type Token = nat
  type Bytes = nat

  /** One prepared move: the token and the incarnation it was prepared for. */
  type Move = (Token, InstanceID)

  datatype State = Provisioning | Stopped | FailedState | Deleting | Deleted

  /** `disk` is what the instance directory holds; the directory can be gone before its row. */
  datatype Row = Row(host: HostID, name: Name, state: State, disk: Option<Bytes>)

  datatype Phase = Preparing | Prepared | Completed | Aborted

  datatype Journal = Journal(token: Token, target: HostID, wasRunning: bool, phase: Phase)

  datatype ImportPhase = Importing | Imported

  datatype ImportReceipt = ImportReceipt(token: Option<Token>, source: InstanceID, phase: ImportPhase)

  /** A portable artifact carries its disk; native metadata relies on one sent before. */
  datatype Artifact = Artifact(token: Option<Token>, source: InstanceID, name: Name, disk: Option<Bytes>)

  /** `artifacts` and `received` stay for ever: a stream may be delivered late or twice.
      The last ten fields record history: rows ever made, their names and hosts, rows made by an
      import, moves that left their source, moves that were aborted, moves that landed, the
      bytes each prepared move froze, moves whose source recorded completion, and moves whose
      journal says that the source was at rest. */
  datatype World = World(
    rows: map<InstanceID, Row>, running: set<InstanceID>, journals: map<InstanceID, Journal>,
    receipts: map<InstanceID, ImportReceipt>, artifacts: set<Artifact>, received: map<(HostID, Move), Bytes>,
    used: set<InstanceID>, imports: set<InstanceID>, issued: set<Move>, aborted: set<Move>, landed: set<Move>,
    frozen: map<Move, Bytes>, names: map<InstanceID, Name>, hosts: map<InstanceID, HostID>, completed: set<Move>, rested: set<Move>)

  const EMPTY := World(map[], {}, map[], map[], {}, map[], {}, {}, {}, {}, {}, map[], map[], map[], {}, {})

  // ---- Fences ----

  /** Every start, restore, resize and other change of a disk checks this first: the cleanup
      fence, the import receipt and the migration journal. */
  predicate Unfenced(w: World, i: InstanceID) {
    && (i in w.rows ==> w.rows[i].state != Deleting)
    && (i in w.receipts ==> w.receipts[i].phase == Imported)
    && (i in w.journals ==> w.journals[i].phase == Aborted)
  }

  predicate Present(w: World, i: InstanceID) {
    i in w.rows && w.rows[i].state != Deleted
  }

  /** A machine at rest with a disk to boot. */
  predicate Bootable(w: World, i: InstanceID) {
    i in w.rows && (w.rows[i].state == Stopped || w.rows[i].state == FailedState) && w.rows[i].disk.Some?
  }

  predicate Live(w: World, i: InstanceID) {
    i in w.running || (Bootable(w, i) && Unfenced(w, i))
  }

  // ---- What holds between any two durable effects ----

  predicate Frozen(w: World, m: Move) {
    m in w.frozen && m.1 in w.rows && (w.rows[m.1].state == Deleting || w.rows[m.1].disk == Some(w.frozen[m]))
  }

  /** What left its source stays fenced there, with the bytes that left. */
  predicate Sealed(w: World, m: Move) {
    && m.1 in w.used && m in w.frozen && (!Present(w, m.1) ==> m in w.completed)
    && (Present(w, m.1) ==>
          && m.1 in w.journals && w.journals[m.1].token == m.0
          && (w.journals[m.1].phase == Prepared || w.journals[m.1].phase == Completed)
          && m.1 !in w.running && Frozen(w, m))
  }

  predicate Fenced(w: World, i: InstanceID)
    requires i in w.journals
  {
    var j := w.journals[i];
    && (j.phase == Aborted ==> (j.token, i) in w.aborted) && (j.phase == Completed ==> (j.token, i) in w.completed)
    && (j.phase == Prepared || j.phase == Completed ==>
          i !in w.running && ((j.token, i) !in w.aborted && Present(w, i) ==> Frozen(w, (j.token, i))))
  }

  ghost predicate Faithful(w: World, m: Move, b: Bytes) {
    m in w.issued && (m !in w.aborted ==> m in w.frozen && w.frozen[m] == b)
  }

  ghost predicate Fences(w: World) {
    && (forall i | i in w.journals :: Fenced(w, i))
    && (forall m | m in w.issued && m !in w.aborted :: Sealed(w, m))
  }

  /** The bytes of this move reached this host: as a disk sent before, or in an artifact. */
  ghost predicate Carried(received: map<(HostID, Move), Bytes>, artifacts: set<Artifact>, h: HostID, m: Move) {
    (h, m) in received || exists a :: a in artifacts && a.token == Some(m.0) && a.source == m.1 && a.disk.Some?
  }

  ghost predicate Delivered(w: World, i: InstanceID, r: ImportReceipt)
    requires i in w.rows
  {
    r.token.Some? ==> Carried(w.received, w.artifacts, w.rows[i].host, (r.token.value, r.source))
  }

  /** Rows keep their names, and a destination has the name of its source and its bytes. */
  ghost predicate Placed(w: World) {
    && (forall i | i in w.rows :: i in w.names && w.names[i] == w.rows[i].name && i in w.hosts && w.hosts[i] == w.rows[i].host)
    && w.names.Keys <= w.used && w.hosts.Keys <= w.used && w.imports <= w.used
    && (forall a | a in w.artifacts :: a.source in w.names && w.names[a.source] == a.name)
    && (forall i | i in w.receipts && w.receipts[i].phase == Imported :: i in w.imports)
    && (forall i | i in w.rows && i in w.receipts && i in w.imports ::
          && w.receipts[i].source in w.names && w.names[w.receipts[i].source] == w.rows[i].name
          && (w.receipts[i].phase == Imported ==> Delivered(w, i, w.receipts[i])))
  }

  /** Nothing that `Placed` speaks of differs. */
  predicate SamePlaces(a: World, b: World) {
    && a.rows == b.rows && a.names == b.names && a.hosts == b.hosts && a.used == b.used && a.imports == b.imports
    && a.artifacts == b.artifacts && a.receipts == b.receipts && a.received == b.received
  }

  /** Whatever left a source left it under an issued token, with the bytes frozen for it. */
  ghost predicate Moves(w: World) {
    && (forall i | i in w.receipts && w.receipts[i].token.Some? :: (w.receipts[i].token.value, w.receipts[i].source) in w.issued)
    && (forall i | i in w.receipts && w.receipts[i].token.Some? && w.receipts[i].phase == Imported ::
          (w.receipts[i].token.value, w.receipts[i].source) in w.landed)
    && (forall a | a in w.artifacts && a.token.Some? :: (a.token.value, a.source) in w.issued)
    && (forall a | a in w.artifacts && a.token.Some? && a.disk.Some? :: Faithful(w, (a.token.value, a.source), a.disk.value))
    && (forall k | k in w.received :: Faithful(w, k.1, w.received[k]))
    && w.landed <= w.issued
  }

  /** A journal that says its source was at rest is on record. */
  ghost predicate Remembered(journals: map<InstanceID, Journal>, rested: set<Move>) {
    forall i | i in journals && !journals[i].wasRunning :: (journals[i].token, i) in rested
  }

  ghost predicate Sound(w: World) {
    && (forall i | i in w.rows :: i in w.used)
    && (forall i, j | i in w.rows && j in w.rows && i != j :: w.rows[i].host == w.rows[j].host ==> w.rows[i].name != w.rows[j].name)
    && (forall i | i in w.running :: Present(w, i) && (i in w.receipts ==> w.receipts[i].phase == Imported))
    && Fences(w)
    && (forall i | i in w.rows && i in w.imports :: i in w.receipts)
    && (forall i | i in w.receipts && i in w.journals :: w.receipts[i].phase == Imported)
    && (forall i | i in w.imports :: i in w.used) && w.journals.Keys <= w.rows.Keys
    && Moves(w) && Remembered(w.journals, w.rested)
  }

  /** `j` is a destination of this move. */
  predicate ImportedBy(w: World, j: InstanceID, m: Move) {
    && j in w.rows && j in w.receipts && w.receipts[j].phase == Imported
    && w.receipts[j].token == Some(m.0) && w.receipts[j].source == m.1
  }

  /** The instance a command means by host and name. */
  predicate Named(w: World, i: InstanceID, h: HostID, name: Name) {
    i in w.rows && w.rows[i].host == h && w.rows[i].name == name
  }

  predicate Vacant(w: World, h: HostID, name: Name) {
    forall e | e in w.rows :: w.rows[e].host == h ==> w.rows[e].name != name
  }

  /** A tombstone whose migration is over, or an unfenced failed row. */
  predicate Replaceable(w: World, e: InstanceID)
    requires e in w.rows
  {
    && e !in w.running && (e in w.journals ==> w.journals[e].phase == Completed || w.journals[e].phase == Aborted)
    && (w.rows[e].state == Deleted || (w.rows[e].state == FailedState && Unfenced(w, e)))
  }

  /** The instance was made at this host under this name, whether or not its row still exists. */
  predicate Ours(w: World, i: InstanceID, h: HostID, name: Name) {
    i in w.names && w.names[i] == name && i in w.hosts && w.hosts[i] == h
  }

  /** A migration that is neither completed nor aborted. */
  predicate Migrating(w: World, i: InstanceID) {
    i in w.journals && w.journals[i].phase != Completed && w.journals[i].phase != Aborted
  }

  /** What a prepare refuses: a tombstone, a reused aborted token, another active migration,
      an incomplete import. */
  predicate Unpreparable(w: World, i: InstanceID, target: HostID, token: Token)
    requires i in w.rows
  {
    || w.rows[i].state == Deleted || w.rows[i].state == Deleting
    || (i in w.journals && w.journals[i].phase == Aborted && w.journals[i].token == token)
    || (i in w.journals && w.journals[i].phase != Aborted && (w.journals[i].token != token || w.journals[i].target != target))
    || (i in w.receipts && w.receipts[i].phase != Imported)
  }

  /** Completion needs a prepared or completed move of this token, an abort any other. */
  predicate Finishable(w: World, i: InstanceID, token: Token, recover: bool) {
    && i in w.journals && w.journals[i].token == token
    && if recover then w.journals[i].phase != Completed else w.journals[i].phase == Prepared || w.journals[i].phase == Completed
  }

  /** A machine that may be prepared for a fresh token. */
  predicate Movable(w: World, i: InstanceID, token: Token) {
    && i in w.rows && w.rows[i].state == Stopped && w.rows[i].disk.Some? && Unfenced(w, i)
    && (i in w.journals ==> w.journals[i].token != token)
  }

  predicate Sendable(w: World, i: InstanceID, token: Token) {
    && i in w.rows && w.rows[i].state == Stopped && i !in w.running && w.rows[i].disk.Some?
    && i in w.journals && w.journals[i].token == token && w.journals[i].phase == Prepared
  }

  // ---- The main results ----

  /** Without an abort, a source is dead from the moment anything left it under its token:
      it and a destination of that token are never both startable or running, and a row
      made by an import is never visible without its receipt. */
  lemma NeverBoth(w: World, j: InstanceID)
    requires Sound(w) && j in w.receipts && w.receipts[j].token.Some?
    ensures var m := (w.receipts[j].token.value, w.receipts[j].source); m !in w.aborted ==> !Live(w, m.1) && (Present(w, m.1) ==> !Unfenced(w, m.1))
    ensures forall i: InstanceID | i in w.rows && i in w.imports && i in w.running :: i in w.receipts && w.receipts[i].phase == Imported
  {
  }

  /** `chain` leads from a row to the incarnation it was imported from, and on. */
  ghost predicate Lineage(w: World, chain: seq<InstanceID>) {
    forall k | 0 <= k < |chain| - 1 ::
      && chain[k] in w.receipts && w.receipts[chain[k]].token.Some?
      && w.receipts[chain[k]].source == chain[k + 1] && (w.receipts[chain[k]].token.value, chain[k + 1]) !in w.aborted
  }

  /** However often a machine moved, none of the incarnations it left behind can run. */
  lemma AncestorsAreDead(w: World, chain: seq<InstanceID>, k: nat)
    requires Sound(w) && Lineage(w, chain) && 0 < k < |chain|
    ensures !Live(w, chain[k])
    ensures chain[0] in w.running ==> chain[0] !in chain[1..]
  {
    assert chain[k - 1] in w.receipts;
    NeverBoth(w, chain[k - 1]);
    if chain[0] in w.running && chain[0] in chain[1..] {
      var n :| 0 < n < |chain| && chain[n] == chain[0];
      assert chain[n - 1] in w.receipts;
      NeverBoth(w, chain[n - 1]);
    }
  }

  /** Native moves: when no portable artifact carries the disk and the disk was sent to one
      host only, a move has one destination at most.  A host never has two. */
  lemma OneDestination(w: World, m: Move, i: InstanceID, j: InstanceID)
    requires Sound(w) && Placed(w) && ImportedBy(w, i, m) && ImportedBy(w, j, m)
    requires w.rows[i].host == w.rows[j].host
             || ((forall a | a in w.artifacts && a.token == Some(m.0) && a.source == m.1 :: a.disk.None?)
                 && (forall g, h | (g, m) in w.received && (h, m) in w.received :: g == h))
    ensures i == j
  {
    assert Delivered(w, i, w.receipts[i]) && Delivered(w, j, w.receipts[j]);
  }

  /** A machine on host 1, prepared, and its copies on hosts 2 and 3, imported from one
      portable artifact. */
  function ThreeHosts(): World {
    EMPTY.(
      rows := map[1 := Row(1, 7, Stopped, Some(5)), 2 := Row(2, 7, Stopped, Some(5)), 3 := Row(3, 7, Stopped, Some(5))],
      journals := map[1 := Journal(9, 2, true, Prepared)],
      receipts := map[2 := ImportReceipt(Some(9), 1, Imported), 3 := ImportReceipt(Some(9), 1, Imported)],
      artifacts := {Artifact(Some(9), 1, 7, Some(5))}, used := {1, 2, 3}, imports := {2, 3}, issued := {(9, 1)}, landed := {(9, 1)},
      frozen := map[(9, 1) := 5], names := map[1 := 7, 2 := 7, 3 := 7], hosts := map[1 := 1, 2 := 2, 3 := 3])
  }

  lemma ThreeHostsFenced()
    ensures Fences(ThreeHosts())
  {
    assert Sealed(ThreeHosts(), (9, 1)) && Fenced(ThreeHosts(), 1);
  }

  lemma ThreeHostsSound()
    ensures Sound(ThreeHosts())
  {
    var w := ThreeHosts();
    ThreeHostsFenced();
    assert Faithful(w, (9, 1), 5);
    assert forall a | a in w.artifacts :: a == Artifact(Some(9), 1, 7, Some(5));
    assert forall i | i in w.receipts :: w.receipts[i] == ImportReceipt(Some(9), 1, Imported);
    assert forall i | i in w.rows :: w.rows[i] == Row(i, 7, Stopped, Some(5));
  }

  lemma ThreeHostsPlaced()
    ensures Placed(ThreeHosts())
  {
    var w := ThreeHosts();
    assert Artifact(Some(9), 1, 7, Some(5)) in w.artifacts;
    assert Delivered(w, 2, w.receipts[2]) && Delivered(w, 3, w.receipts[3]);
  }

  /** Without that condition a move can have two live destinations, with nothing aborted. */
  lemma PortableMovesCanLandTwice()
    ensures exists w: World, m, i, j ::
              Sound(w) && Placed(w) && w.aborted == {} && i != j && ImportedBy(w, i, m) && ImportedBy(w, j, m) && Live(w, i) && Live(w, j)
  {
    var w := ThreeHosts();
    ThreeHostsSound();
    ThreeHostsPlaced();
    assert ImportedBy(w, 2, (9, 1)) && ImportedBy(w, 3, (9, 1)) && Live(w, 2) && Live(w, 3);
  }

  /** One journalled step of anyone: history is kept, and what is gone stays gone. */
  ghost predicate Evolves(a: World, b: World) {
    && a.used <= b.used && a.issued <= b.issued && a.aborted <= b.aborted && a.landed <= b.landed && a.completed <= b.completed && a.rested <= b.rested
    && a.names.Items <= b.names.Items && a.hosts.Items <= b.hosts.Items
    && (forall i | i in a.used && !Present(a, i) :: !Present(b, i))
  }

  lemma EvolvesTransitive(a: World, b: World, c: World)
    requires Evolves(a, b) && Evolves(b, c)
    ensures Evolves(a, c)
  {
  }

  lemma OursStays(a: World, b: World, i: InstanceID, h: HostID, name: Name)
    requires Evolves(a, b) && Ours(a, i, h, name)
    ensures Ours(b, i, h, name)
  {
    assert (i, name) in a.names.Items && (i, h) in a.hosts.Items;
  }

  /** Once a destination landed, only an abort can ever lift the source's fence. */
  lemma FenceIsPermanent(a: World, b: World, m: Move)
    requires Sound(a) && Sound(b) && Evolves(a, b) && m in a.landed
    ensures m in b.aborted || !Live(b, m.1)
  {
  }

  function AfterAbort(w: World, i: InstanceID): World
    requires i in w.journals
  {
    w.(journals := w.journals[i := w.journals[i].(phase := Aborted)], aborted := w.aborted + {(w.journals[i].token, i)})
  }

  /** After an abort both can run exactly when the source has a disk to boot, or still runs,
      and the destination was live: the command's confirmation is not checked against
      anything. */
  lemma AbortIsSafeIff(w: World, s: InstanceID, j: InstanceID)
    requires Sound(w) && Present(w, s) && s in w.journals && w.journals[s].phase != Completed
    requires s in w.receipts ==> w.receipts[s].phase == Imported
    requires j != s && j in w.receipts && w.receipts[j].token == Some(w.journals[s].token) && w.receipts[j].source == s
    ensures Live(AfterAbort(w, s), s) && Live(AfterAbort(w, s), j) <==> (s in w.running || Bootable(w, s)) && Live(w, j)
  {
  }

  /** A world in which that happens: a landed move whose source never heard of it. */
  lemma AbortCanRunBoth()
    ensures exists w: World, s, j ::
              && Sound(w) && Placed(w) && s in w.journals && w.journals[s].phase == Prepared
              && Live(AfterAbort(w, s), s) && Live(AfterAbort(w, s), j) && j in w.receipts && w.receipts[j].source == s
  {
    var w := ThreeHosts();
    ThreeHostsSound();
    ThreeHostsPlaced();
    assert Live(AfterAbort(w, 1), 1) && Live(AfterAbort(w, 1), 2) && w.receipts[2].source == 1;
  }

  /** Recording a journal also records what it says happened. */
  function WithJournal(w: World, i: InstanceID, j: Journal): World
    requires i in w.rows && (j.phase == Prepared ==> w.rows[i].disk.Some?)
  {
    w.(journals := w.journals[i := j],
       aborted := if j.phase == Aborted then w.aborted + {(j.token, i)} else w.aborted,
       completed := if j.phase == Completed then w.completed + {(j.token, i)} else w.completed,
       rested := if j.wasRunning then w.rested else w.rested + {(j.token, i)},
       frozen := if j.phase == Prepared then w.frozen[(j.token, i) := w.rows[i].disk.value] else w.frozen)
  }

  /** The source stopped, and prepared under the token. */
  function PreparedFor(w: World, i: InstanceID, target: HostID, token: Token): World
    requires i in w.rows && w.rows[i].disk.Some?
  {
    var j := Journal(token, target, i in w.running, Preparing);
    WithJournal(WithJournal(w, i, j).(running := w.running - {i}), i, j.(phase := Prepared))
  }

  lemma PreparedIsSendable(w: World, i: InstanceID, target: HostID, token: Token)
    requires Movable(w, i, token)
    ensures var n := PreparedFor(w, i, target, token);
            && Sendable(n, i, token) && n.rows == w.rows && n.receipts == w.receipts && n.used == w.used && n.running == w.running - {i}
            && n.journals[i].wasRunning == (i in w.running)
  {
  }

  function WithRow(w: World, i: InstanceID, r: Row): World {
    w.(rows := w.rows[i := r], used := w.used + {i}, names := w.names[i := r.name], hosts := w.hosts[i := r.host])
  }

  // ---- Each step keeps the invariant ----

  lemma CreatedFences(w: World, i: InstanceID, r: Row)
    requires Fences(w) && i !in w.used && (forall m | m in w.issued && m !in w.aborted :: m.1 in w.used) && w.journals.Keys <= w.used
    ensures Fences(WithRow(w, i, r))
  {
  }

  lemma CreatedMoves(w: World, i: InstanceID, r: Row)
    requires Moves(w)
    ensures Moves(WithRow(w, i, r))
  {
  }

  /** A fresh incarnation is nobody's source and nobody's past. */
  lemma CreatedSound(w: World, i: InstanceID, r: Row)
    requires Sound(w) && i !in w.used && forall e | e in w.rows :: w.rows[e].host == r.host ==> w.rows[e].name != r.name
    ensures Sound(WithRow(w, i, r))
  {
    CreatedFences(w, i, r);
    CreatedMoves(w, i, r);
  }

  lemma ImportingSound(n: World, i: InstanceID)
    requires Sound(n) && i in n.rows && i in n.receipts
    ensures Sound(n.(imports := n.imports + {i}))
  {
  }

  /** A row goes with its journal and its receipt. */
  function Removed(w: World, e: InstanceID): World {
    w.(rows := w.rows - {e}, journals := w.journals - {e}, receipts := w.receipts - {e})
  }

  /** No disk can have left under the journal of this row, or it is settled. */
  predicate Removable(w: World, e: InstanceID) {
    e !in w.running && (Present(w, e) && e in w.journals ==> w.journals[e].phase == Preparing || w.journals[e].phase == Aborted)
  }

  lemma RemovedFences(w: World, e: InstanceID)
    requires Fences(w) && Removable(w, e)
    ensures Fences(Removed(w, e))
  {
  }

  lemma RemovedSound(w: World, e: InstanceID)
    requires Sound(w) && Removable(w, e)
    ensures Sound(Removed(w, e))
  {
    RemovedFences(w, e);
  }

  /** The directory of a row whose bytes nobody counts on goes. */
  function Cleared(w: World, i: InstanceID): World {
    if i in w.rows then w.(rows := w.rows[i := w.rows[i].(disk := None)]) else w
  }

  /** Nothing that is prepared to move, or has moved, is in this directory. */
  predicate Clearable(w: World, i: InstanceID) {
    && i !in w.running
    && (i in w.rows && w.rows[i].state != Deleting && w.rows[i].state != Deleted && i in w.journals ==>
          w.journals[i].phase == Preparing || w.journals[i].phase == Aborted)
  }

  lemma ClearedFences(w: World, i: InstanceID)
    requires Fences(w) && Clearable(w, i)
    ensures Fences(Cleared(w, i))
  {
  }

  lemma ClearedSound(w: World, i: InstanceID)
    requires Sound(w) && Clearable(w, i)
    ensures Sound(Cleared(w, i)) && Evolves(w, Cleared(w, i))
  {
    ClearedFences(w, i);
  }

  function Doomed(w: World, i: InstanceID, s: State): World
    requires i in w.rows
  {
    w.(rows := w.rows[i := w.rows[i].(state := s)])
  }

  lemma DoomedFences(w: World, i: InstanceID, s: State)
    requires Fences(w) && Present(w, i) && (s == Deleting || (s == Deleted && !Migrating(w, i)))
    ensures Fences(Doomed(w, i, s))
  {
  }

  /** A deletion begins, or ends. */
  lemma DoomedSound(w: World, i: InstanceID, s: State)
    requires Sound(w) && Present(w, i) && (s == Deleting || (s == Deleted && i !in w.running && !Migrating(w, i)))
    ensures Sound(Doomed(w, i, s)) && Evolves(w, Doomed(w, i, s))
  {
    DoomedFences(w, i, s);
  }

  /** Recording a journal concerns the fences alone, when the bytes it freezes are new. */
  lemma JournalSound(w: World, i: InstanceID, j: Journal)
    requires Sound(w) && i in w.rows && (i in w.receipts ==> w.receipts[i].phase == Imported)
    requires j.phase == Prepared ==> w.rows[i].disk.Some? && ((j.token, i) !in w.issued || (j.token, i) in w.aborted)
    requires Fences(WithJournal(w, i, j))
    ensures Sound(WithJournal(w, i, j))
  {
  }

  lemma PreparingFences(w: World, i: InstanceID, j: Journal)
    requires Fences(w) && Present(w, i) && Unfenced(w, i) && j.phase == Preparing
    ensures Fences(WithJournal(w, i, j))
  {
  }

  /** A new fence on a source that nothing has left yet. */
  lemma PreparingSound(w: World, i: InstanceID, j: Journal)
    requires Sound(w) && Present(w, i) && Unfenced(w, i) && j.phase == Preparing
    ensures Sound(WithJournal(w, i, j))
  {
    PreparingFences(w, i, j);
    JournalSound(w, i, j);
  }

  lemma PreparedFences(w: World, i: InstanceID)
    requires Fences(w) && Present(w, i) && i in w.journals && w.journals[i].phase == Preparing && i !in w.running && w.rows[i].disk.Some?
    ensures Fences(WithJournal(w, i, w.journals[i].(phase := Prepared)))
    ensures (w.journals[i].token, i) !in w.issued || (w.journals[i].token, i) in w.aborted
  {
  }

  /** Stopped and fenced: the bytes of this moment are the bytes that move. */
  lemma PreparedSound(w: World, i: InstanceID)
    requires Sound(w) && Present(w, i) && i in w.journals && w.journals[i].phase == Preparing && i !in w.running && w.rows[i].disk.Some?
    ensures Sound(WithJournal(w, i, w.journals[i].(phase := Prepared)))
  {
    PreparedFences(w, i);
    JournalSound(w, i, w.journals[i].(phase := Prepared));
  }

  lemma AbortedFences(w: World, i: InstanceID)
    requires Fences(w) && i in w.rows && i in w.journals && w.journals[i].phase != Completed
    ensures Fences(WithJournal(w, i, w.journals[i].(phase := Aborted)))
  {
  }

  lemma AbortedSound(w: World, i: InstanceID)
    requires Sound(w) && i in w.rows && i in w.journals && w.journals[i].phase != Completed
    ensures Sound(WithJournal(w, i, w.journals[i].(phase := Aborted)))
  {
    AbortedFences(w, i);
    JournalSound(w, i, w.journals[i].(phase := Aborted));
  }

  lemma CompletedFences(w: World, i: InstanceID)
    requires Fences(w) && i in w.rows && i in w.journals && (w.journals[i].phase == Prepared || w.journals[i].phase == Completed)
    ensures Fences(WithJournal(w, i, w.journals[i].(phase := Completed)))
  {
  }

  lemma CompletedSound(w: World, i: InstanceID)
    requires Sound(w) && i in w.rows && i in w.journals && (w.journals[i].phase == Prepared || w.journals[i].phase == Completed)
    ensures Sound(WithJournal(w, i, w.journals[i].(phase := Completed)))
  {
    CompletedFences(w, i);
    JournalSound(w, i, w.journals[i].(phase := Completed));
  }

  function Exported(w: World, a: Artifact): World {
    w.(artifacts := w.artifacts + {a}, issued := if a.token.Some? then w.issued + {(a.token.value, a.source)} else w.issued)
  }

  lemma IssuedSound(w: World, i: InstanceID, a: Artifact)
    requires Sound(w) && i in w.rows && w.rows[i].state == Stopped && i !in w.running
    requires a.source == i && (a.disk.Some? ==> w.rows[i].disk == a.disk)
    requires a.token.Some? ==> i in w.journals && w.journals[i].phase == Prepared && w.journals[i].token == a.token.value
    ensures Sound(Exported(w, a))
  {
  }

  /** The disk as it is now arrives at `g`, under the move's token. */
  function Sent(w: World, i: InstanceID, g: HostID): World
    requires i in w.rows && i in w.journals && w.rows[i].disk.Some?
  {
    w.(received := w.received[(g, (w.journals[i].token, i)) := w.rows[i].disk.value], issued := w.issued + {(w.journals[i].token, i)})
  }

  lemma SentFences(w: World, i: InstanceID, g: HostID)
    requires Fences(w) && i in w.rows && w.rows[i].state == Stopped && i !in w.running && i in w.journals && w.journals[i].phase == Prepared && w.rows[i].disk.Some? && i in w.used
    ensures Fences(Sent(w, i, g))
  {
  }

  lemma SentSound(w: World, i: InstanceID, g: HostID)
    requires Sound(w) && i in w.rows && w.rows[i].state == Stopped && i !in w.running && i in w.journals && w.journals[i].phase == Prepared && w.rows[i].disk.Some?
    ensures Sound(Sent(w, i, g))
  {
    SentFences(w, i, g);
  }

  lemma RowFences(w: World, i: InstanceID, r: Row)
    requires Fences(w) && Present(w, i) && r.state != Deleted && (r.state == Deleting <==> w.rows[i].state == Deleting)
    requires r.disk == w.rows[i].disk || i !in w.journals || w.journals[i].phase == Preparing || w.journals[i].phase == Aborted
    ensures Fences(w.(rows := w.rows[i := r]))
  {
  }

  /** Rewriting a row whose bytes have not been frozen. */
  lemma RowSound(w: World, i: InstanceID, r: Row)
    requires Sound(w) && Present(w, i) && r.host == w.rows[i].host && r.name == w.rows[i].name && r.state != Deleted
    requires r.state == Deleting <==> w.rows[i].state == Deleting
    requires r.disk == w.rows[i].disk || i !in w.journals || w.journals[i].phase == Preparing || w.journals[i].phase == Aborted
    ensures Sound(w.(rows := w.rows[i := r]))
  {
    RowFences(w, i, r);
  }

  /** The import of `a` is complete: an unfenced row with the artifact's bytes, which for a
      move that was not aborted are the bytes its source froze. */
  ghost predicate Landed(w: World, j: InstanceID, a: Artifact, b: Bytes) {
    && j in w.rows && w.rows[j].state == Stopped && w.rows[j].disk == Some(b) && Unfenced(w, j)
    && (a.disk.Some? ==> a.disk.value == b)
    && (a.token.Some? ==> (a.token.value, a.source) in w.landed && Faithful(w, (a.token.value, a.source), b))
  }

  lemma LandedSound(w: World, j: InstanceID, landed: set<Move>)
    requires Sound(w) && j in w.receipts && w.landed <= landed <= w.issued
    requires w.receipts[j].token.Some? ==> (w.receipts[j].token.value, w.receipts[j].source) in landed
    ensures Sound(w.(receipts := w.receipts[j := w.receipts[j].(phase := Imported)], landed := landed))
  {
  }

  function Finalized(w: World, j: InstanceID, landed: set<Move>): World
    requires j in w.rows && j in w.receipts
  {
    w.(rows := w.rows[j := w.rows[j].(state := Stopped)], receipts := w.receipts[j := w.receipts[j].(phase := Imported)], landed := landed)
  }

  lemma FinalizedSound(w: World, j: InstanceID, landed: set<Move>)
    requires Sound(w) && j in w.rows && w.rows[j].state == Provisioning && j in w.receipts && w.landed <= landed <= w.issued
    requires w.receipts[j].token.Some? ==> (w.receipts[j].token.value, w.receipts[j].source) in landed
    ensures Sound(Finalized(w, j, landed))
  {
    var row := w.(rows := w.rows[j := w.rows[j].(state := Stopped)]);
    RowSound(w, j, w.rows[j].(state := Stopped));
    LandedSound(row, j, landed);
    assert Finalized(w, j, landed) == row.(receipts := row.receipts[j := row.receipts[j].(phase := Imported)], landed := landed);
  }

  // ---- Names and places ----

  lemma SamePlacesPlaced(a: World, b: World)
    requires Placed(a) && SamePlaces(a, b)
    ensures Placed(b)
  {
    forall i | i in b.rows && i in b.receipts && b.receipts[i].phase == Imported && i in b.imports
      ensures Delivered(b, i, b.receipts[i])
    {
      assert Delivered(a, i, a.receipts[i]);
    }
  }

  lemma RemovedPlaced(w: World, e: InstanceID)
    requires Placed(w)
    ensures Placed(Removed(w, e))
  {
    var n := Removed(w, e);
    forall i | i in n.rows && i in n.receipts && n.receipts[i].phase == Imported && i in n.imports
      ensures Delivered(n, i, n.receipts[i])
    {
      assert Delivered(w, i, w.receipts[i]);
    }
  }

  lemma CreatedEvolves(w: World, i: InstanceID, r: Row)
    requires Placed(w) && i !in w.used
    ensures Evolves(w, WithRow(w, i, r))
  {
  }

  lemma CreatedPlaced(w: World, i: InstanceID, r: Row)
    requires Placed(w) && i !in w.used
    ensures Placed(WithRow(w, i, r))
    ensures i in w.receipts && w.receipts[i].phase == Importing && w.receipts[i].source in w.names && w.names[w.receipts[i].source] == r.name ==>
              Placed(WithRow(w, i, r).(imports := w.imports + {i}))
  {
    var n := WithRow(w, i, r);
    forall k | k in w.rows && k in w.receipts && w.receipts[k].phase == Imported && k in w.imports
      ensures Delivered(n, k, w.receipts[k]) && Delivered(n.(imports := w.imports + {i}), k, w.receipts[k])
    {
      assert Delivered(w, k, w.receipts[k]);
    }
  }

  lemma RowPlaced(w: World, i: InstanceID, r: Row)
    requires Placed(w) && i in w.rows && r.host == w.rows[i].host && r.name == w.rows[i].name
    ensures Placed(w.(rows := w.rows[i := r]))
  {
    var n := w.(rows := w.rows[i := r]);
    forall k | k in n.rows && k in n.receipts && n.receipts[k].phase == Imported && k in n.imports
      ensures Delivered(n, k, n.receipts[k])
    {
      assert Delivered(w, k, w.receipts[k]);
    }
  }

  lemma ClearedPlaced(w: World, i: InstanceID)
    requires Placed(w)
    ensures Placed(Cleared(w, i))
  {
    if i in w.rows {
      RowPlaced(w, i, w.rows[i].(disk := None));
    }
  }

  lemma DoomedPlaced(w: World, i: InstanceID, s: State)
    requires Placed(w) && i in w.rows
    ensures Placed(Doomed(w, i, s))
  {
    RowPlaced(w, i, w.rows[i].(state := s));
  }

  lemma ReservedPlaced(w: World, j: InstanceID, r: ImportReceipt)
    requires Placed(w) && j !in w.rows && r.phase == Importing
    ensures Placed(w.(receipts := w.receipts[j := r]))
  {
    var n := w.(receipts := w.receipts[j := r]);
    forall k | k in n.rows && k in n.receipts && n.receipts[k].phase == Imported && k in n.imports
      ensures Delivered(n, k, n.receipts[k])
    {
      assert Delivered(w, k, w.receipts[k]);
    }
  }

  /** More artifacts of a row, or more disks at hosts. */
  lemma IssuedPlaced(w: World, i: InstanceID, n: World)
    requires Placed(w) && i in w.rows
    requires n == w.(artifacts := n.artifacts, received := n.received, issued := n.issued)
    requires w.artifacts <= n.artifacts && w.received.Keys <= n.received.Keys
    requires forall a | a in n.artifacts && a !in w.artifacts :: a.source == i && a.name == w.rows[i].name
    ensures Placed(n)
  {
    forall k | k in n.rows && k in n.receipts && n.receipts[k].phase == Imported && k in n.imports
      ensures Delivered(n, k, n.receipts[k])
    {
      assert Delivered(w, k, w.receipts[k]);
    }
  }

  lemma FinalizedPlaced(w: World, j: InstanceID, landed: set<Move>)
    requires Placed(w) && j in w.rows && j in w.receipts && j in w.imports && Delivered(w, j, w.receipts[j])
    ensures Placed(Finalized(w, j, landed))
  {
    var n := Finalized(w, j, landed);
    forall k | k in n.rows && k in n.receipts && n.receipts[k].phase == Imported && k in n.imports
      ensures Delivered(n, k, n.receipts[k])
    {
      assert k != j ==> Delivered(w, k, w.receipts[k]);
      assert Delivered(w, j, w.receipts[j]);
    }
  }

  /** The row under import of `a`, whose bytes will be `b`. */
  ghost predicate Importable(w: World, j: InstanceID, a: Artifact, b: Bytes) {
    && Sound(w) && Placed(w) && j in w.rows && j in w.receipts && j in w.imports && Delivered(w, j, w.receipts[j])
    && w.receipts[j] == ImportReceipt(a.token, a.source, Importing)
    && (a.token.Some? ==> Faithful(w, (a.token.value, a.source), b)) && (a.disk.Some? ==> a.disk.value == b)
  }

  function Filled(w: World, j: InstanceID, b: Bytes): World
    requires j in w.rows
  {
    w.(rows := w.rows[j := w.rows[j].(disk := Some(b))])
  }

  lemma FilledSound(w: World, j: InstanceID, a: Artifact, b: Bytes)
    requires Importable(w, j, a, b) && w.rows[j].state == Provisioning
    ensures var n := Filled(w, j, b); Importable(n, j, a, b) && Evolves(w, n) && j !in w.running
  {
    RowSound(w, j, w.rows[j].(disk := Some(b)));
    RowPlaced(w, j, w.rows[j].(disk := Some(b)));
  }

  function NowLanded(w: World, a: Artifact): set<Move> {
    if a.token.Some? then w.landed + {(a.token.value, a.source)} else w.landed
  }

  lemma FinalizedLands(w: World, j: InstanceID, a: Artifact, b: Bytes, landed: set<Move>)
    requires Importable(w, j, a, b) && w.rows[j].state == Provisioning && w.rows[j].disk == Some(b)
    requires landed == NowLanded(w, a)
    ensures Evolves(w, Finalized(w, j, landed)) && Landed(Finalized(w, j, landed), j, a, b) && j !in w.running
    ensures landed <= w.issued
  {
  }

  /** Whichever row of that name and token is completed: this move is over. */
  lemma CompletedIsThis(w: World, i: InstanceID, id: InstanceID, h: HostID, name: Name, token: Token)
    requires Sound(w) && Placed(w) && Named(w, i, h, name) && (token, i) in w.completed
    requires Ours(w, id, h, name) && (token, id) in w.landed
    ensures (token, id) in w.completed || (token, id) in w.aborted
  {
    if (token, id) !in w.aborted {
      assert Sealed(w, (token, id));
    }
  }

  /** The bytes of the artifact are at the host. */
  predicate Arrived(received: map<(HostID, Move), Bytes>, h: HostID, a: Artifact) {
    a.disk.Some? || (a.token.Some? && (h, (a.token.value, a.source)) in received)
  }

  function Carriage(received: map<(HostID, Move), Bytes>, h: HostID, a: Artifact): Bytes
    requires Arrived(received, h, a)
  {
    if a.disk.Some? then a.disk.value else received[(h, (a.token.value, a.source))]
  }

  /** The disk in place, and the row released. */
  function Received(w: World, j: InstanceID, a: Artifact, b: Bytes): World
    requires j in w.rows && j in w.receipts
  {
    Finalized(Filled(w, j, b), j, NowLanded(w, a))
  }

  function WithReserved(w: World, j: InstanceID, h: HostID, name: Name): World {
    WithRow(w, j, Row(h, name, Provisioning, None)).(imports := w.imports + {j})
  }

  /** The importing receipt, and then the row. */
  function ReservedFor(w: World, h: HostID, a: Artifact, j: InstanceID): World {
    WithReserved(w.(receipts := w.receipts[j := ImportReceipt(a.token, a.source, Importing)]), j, h, a.name)
  }

  /** The whole of an import into a vacant name. */
  function ImportedAs(w: World, h: HostID, a: Artifact, j: InstanceID): World
    requires Arrived(w.received, h, a)
  {
    Received(ReservedFor(w, h, a, j), j, a, Carriage(w.received, h, a))
  }

  /** Nothing stands in the way of moving `i` to `target` as `j`. */
  predicate Migratable(w: World, i: InstanceID, target: HostID, token: Token, j: InstanceID) {
    Movable(w, i, token) && w.rows[i].host != target && Vacant(w, target, w.rows[i].name) && j !in w.used
  }

  function Shipped(w: World, i: InstanceID, target: HostID, token: Token): World
    requires Movable(w, i, token)
  {
    Sent(PreparedFor(w, i, target, token), i, target)
  }

  /** The disk is at the target already. */
  predicate Streamable(w: World, i: InstanceID, target: HostID, token: Token, j: InstanceID) {
    Sendable(w, i, token) && (target, (token, i)) in w.received && Vacant(w, target, w.rows[i].name) && j !in w.used
  }

  /** Exported at the source and imported at the target. */
  function Streamed(w: World, i: InstanceID, target: HostID, token: Token, j: InstanceID): World
    requires i in w.rows && (target, (token, i)) in w.received
  {
    var a := Artifact(Some(token), i, w.rows[i].name, None);
    ImportedAs(Exported(w, a), target, a, j)
  }

  function Transferred(w: World, i: InstanceID, target: HostID, token: Token, j: InstanceID): World
    requires Movable(w, i, token)
  {
    Streamed(Shipped(w, i, target, token), i, target, token, j)
  }

  lemma ShippedIsStreamable(w: World, i: InstanceID, target: HostID, token: Token, j: InstanceID)
    requires Migratable(w, i, target, token, j)
    ensures var n := Shipped(w, i, target, token);
            Streamable(n, i, target, token, j) && n.rows == w.rows
  {
  }

  /** The copy has exactly the source's disk, and everything else is as it was. */
  lemma TransferredLands(w: World, i: InstanceID, target: HostID, token: Token, j: InstanceID)
    requires Sound(w) && Migratable(w, i, target, token, j)
    ensures var n := Transferred(w, i, target, token, j);
            && n.rows == w.rows[j := Row(target, w.rows[i].name, Stopped, w.rows[i].disk)] && n.running == w.running - {i}
            && j in n.receipts && n.receipts[j] == ImportReceipt(Some(token), i, Imported)
            && Bootable(n, j) && Unfenced(n, j) && j !in n.running && i != j && Finishable(n, i, token, false)
  {
  }

  /** Source and destination are not in each other's way. */
  predicate Settleable(w: World, i: InstanceID, s: InstanceID, token: Token) {
    i in w.rows && s != i && Finishable(w, i, token, false) && Bootable(w, s) && Unfenced(w, s) && s !in w.running
  }

  function Concluded(w: World, i: InstanceID, s: InstanceID, restart: bool): World
    requires i in w.rows && i in w.journals
  {
    var done := WithJournal(w, i, w.journals[i].(phase := Completed));
    if restart then done.(running := done.running + {s}) else done
  }

  lemma CompletedKeeps(w: World, i: InstanceID, s: InstanceID, token: Token)
    requires Settleable(w, i, s, token)
    ensures var n := Concluded(w, i, s, false); n.rows == w.rows && n.running == w.running && Bootable(n, s) && Unfenced(n, s)
  {
  }

  lemma ConcludedEnds(w: World, i: InstanceID, s: InstanceID, token: Token, restart: bool)
    requires Settleable(w, i, s, token)
    ensures var n := Concluded(w, i, s, restart);
            && n.rows == w.rows && n.running == w.running + (if restart then {s} else {})
            && n.journals[i].phase == Completed && (token, i) in n.completed
  {
  }

  /** A whole migration: the copy has exactly the source's disk, runs if and only if the source
      ran, and nothing else differs among rows and running machines. */
  lemma ConcludedMoves(w: World, i: InstanceID, target: HostID, token: Token, j: InstanceID)
    requires Sound(w) && Migratable(w, i, target, token, j)
    ensures var n := Transferred(w, i, target, token, j);
            && Settleable(n, i, j, token) && n.rows[i] == w.rows[i] && n.rows[j].host == target && n.rows[j].name == w.rows[i].name
            && var done := Concluded(n, i, j, i in w.running);
               && i in done.journals && done.journals[i].phase == Completed && (token, i) in done.completed
               && done.rows == w.rows[j := Row(target, w.rows[i].name, Stopped, w.rows[i].disk)]
               && done.running == w.running - {i} + (if i in w.running then {j} else {})
  {
    TransferredLands(w, i, target, token, j);
    ConcludedEnds(Transferred(w, i, target, token, j), i, j, token, i in w.running);
  }

  /** The row of a failed import is removed, and then its directory, whatever became of the
      row. */
  function TakenBack(w: World, j: InstanceID, removing: Fault, clearing: Fault): World {
    var removed := if removing.Applied() then Removed(w, j) else w;
    if removing.Reply().Crash? || !clearing.Applied() then removed else Cleared(removed, j)
  }

  function AfterFinalize(w: World, j: InstanceID, landed: set<Move>, finalizing: Fault): World
    requires j in w.rows && j in w.receipts
  {
    if finalizing.Applied() then Finalized(w, j, landed) else w
  }

  /** How an import ends, by what happens to the finalizing transaction and the clean-up. */
  function ImportEnd(w: World, j: InstanceID, landed: set<Move>, finalizing: Fault, removing: Fault, clearing: Fault): World
    requires j in w.rows && j in w.receipts
  {
    var finalized := AfterFinalize(w, j, landed, finalizing);
    if finalizing.Reply() != Err then finalized
    else TakenBack(finalized, j, removing, clearing)
  }

  /** An unfenced row whose directory is gone: its receipt still says imported. */
  predicate Hollow(w: World, j: InstanceID) {
    j in w.rows && w.rows[j].state == Stopped && Unfenced(w, j) && w.rows[j].disk.None?
  }

  /** A failed import leaves an unfenced row exactly when the transaction was applied and the
      row was not removed; and that row has lost its disk exactly when only the reply was
      lost, the removal of the row was refused and the directory went. */
  lemma FailedImportIff(w: World, j: InstanceID, a: Artifact, b: Bytes, landed: set<Move>, finalizing: Fault, removing: Fault, clearing: Fault)
    requires Importable(w, j, a, b) && w.rows[j].state == Provisioning && w.rows[j].disk == Some(b)
    requires !finalizing.Reply().Ok?
    ensures var n := ImportEnd(w, j, landed, finalizing, removing, clearing);
            && ((j in n.rows && Unfenced(n, j)) <==> finalizing.Applied() && (finalizing.Reply().Crash? || !removing.Applied()))
            && (Hollow(n, j) <==> finalizing == LostReply && removing == Refused && clearing.Applied())
  {
  }

  /** A copy on host 2 whose import is about to be finalized; its source on host 1 is
      prepared. */
  function AboutToLand(): World {
    EMPTY.(
      rows := map[1 := Row(1, 7, Stopped, Some(5)), 2 := Row(2, 7, Provisioning, Some(5))],
      journals := map[1 := Journal(9, 2, true, Prepared)], receipts := map[2 := ImportReceipt(Some(9), 1, Importing)],
      artifacts := {PORTABLE}, used := {1, 2}, imports := {2}, issued := {(9, 1)}, frozen := map[(9, 1) := 5],
      names := map[1 := 7, 2 := 7], hosts := map[1 := 1, 2 := 2])
  }

  const PORTABLE: Artifact := Artifact(Some(9), 1, 7, Some(5))

  lemma AboutToLandSound()
    ensures Importable(AboutToLand(), 2, PORTABLE, 5)
  {
    var w := AboutToLand();
    assert PORTABLE in w.artifacts && Delivered(w, 2, w.receipts[2]);
    assert Fences(w) by {
      assert Sealed(w, (9, 1)) && Fenced(w, 1);
    }
    assert Faithful(w, (9, 1), 5);
    assert forall a | a in w.artifacts :: a == PORTABLE;
  }

  /** The transaction commits without a reply, the row cannot be removed, the directory can:
      an imported, unfenced row without a disk, whose receipt says imported, while the
      source, fenced, has the only copy left. */
  lemma ImportCanLeaveAHollowRow()
    ensures Importable(AboutToLand(), 2, PORTABLE, 5)
    ensures var n := ImportEnd(AboutToLand(), 2, NowLanded(AboutToLand(), PORTABLE), LostReply, Refused, Clean);
            Hollow(n, 2) && n.receipts[2].phase == Imported && n.rows[1].disk == Some(5) && !Unfenced(n, 1)
  {
    AboutToLandSound();
    FailedImportIff(AboutToLand(), 2, PORTABLE, 5, NowLanded(AboutToLand(), PORTABLE), LostReply, Refused, Clean);
  }

  /** Every way an import can end. */
  ghost predicate Exited(w: World, j: InstanceID, a: Artifact) {
    j !in w.rows || !Unfenced(w, j) || (exists b :: Landed(w, j, a, b)) || Hollow(w, j)
  }

  lemma TakenBackExits(w: World, j: InstanceID, a: Artifact, removing: Fault, clearing: Fault)
    requires j in w.receipts && w.receipts[j].phase == Importing
    ensures Exited(TakenBack(w, j, removing, clearing), j, a)
  {
  }

  lemma ImportEndExits(w: World, j: InstanceID, a: Artifact, b: Bytes, landed: set<Move>, finalizing: Fault, removing: Fault, clearing: Fault)
    requires Importable(w, j, a, b) && w.rows[j].state == Provisioning && w.rows[j].disk == Some(b) && landed == NowLanded(w, a)
    ensures var n := ImportEnd(w, j, landed, finalizing, removing, clearing);
            && Exited(n, j, a)
            && (finalizing.Reply().Ok? ==> Landed(n, j, a, b))
  {
    FinalizedLands(w, j, a, b, landed);
  }

  lemma StoppedFences(w: World, running: set<InstanceID>)
    requires Fences(w) && running <= w.running
    ensures Fences(w.(running := running))
  {
  }

  lemma StartedFences(w: World, i: InstanceID)
    requires Fences(w) && Present(w, i) && Unfenced(w, i)
    ensures Fences(w.(running := w.running + {i}))
  {
  }

  lemma StartedSound(w: World, i: InstanceID)
    requires Sound(w) && Placed(w) && Present(w, i) && Unfenced(w, i)
    ensures Sound(w.(running := w.running + {i})) && Placed(w.(running := w.running + {i})) && Evolves(w, w.(running := w.running + {i}))
  {
    StartedFences(w, i);
    SamePlacesPlaced(w, w.(running := w.running + {i}));
  }

  /** Machines stop, for whatever reason. */
  lemma StoppedSound(w: World, running: set<InstanceID>)
    requires Sound(w) && Placed(w) && running <= w.running
    ensures Sound(w.(running := running)) && Placed(w.(running := running)) && Evolves(w, w.(running := running))
  {
    StoppedFences(w, running);
    SamePlacesPlaced(w, w.(running := running));
  }

  lemma ReservedSound(w: World, j: InstanceID, a: Artifact)
    requires Sound(w) && Placed(w) && a in w.artifacts && j !in w.rows
    ensures var n := w.(receipts := w.receipts[j := ImportReceipt(a.token, a.source, Importing)]); Sound(n) && Placed(n) && Evolves(w, n)
  {
    ReservedPlaced(w, j, ImportReceipt(a.token, a.source, Importing));
  }

  lemma ReservedEvolves(w: World, j: InstanceID, h: HostID, name: Name)
    requires w.names.Keys <= w.used && w.hosts.Keys <= w.used && j !in w.used
    ensures Evolves(w, WithReserved(w, j, h, name))
  {
  }

  lemma CreateReservedSound(w: World, j: InstanceID, h: HostID, name: Name)
    requires Sound(w) && Placed(w) && j !in w.used && j in w.receipts && w.receipts[j].phase == Importing
    requires forall e | e in w.rows :: w.rows[e].host == h ==> w.rows[e].name != name
    requires w.receipts[j].source in w.names && w.names[w.receipts[j].source] == name
    ensures Sound(WithReserved(w, j, h, name)) && Placed(WithReserved(w, j, h, name)) && Evolves(w, WithReserved(w, j, h, name))
  {
    CreatedSound(w, j, Row(h, name, Provisioning, None));
    ImportingSound(WithRow(w, j, Row(h, name, Provisioning, None)), j);
    CreatedPlaced(w, j, Row(h, name, Provisioning, None));
    ReservedEvolves(w, j, h, name);
  }

  class Fleet {
    var w: World

    ghost predicate Valid()
      reads this
    {
      Sound(w) && Placed(w)
    }

    constructor ()
      ensures Valid() && w == EMPTY
    {
      w := EMPTY;
    }

    method CommitUnder(next: World, f: Fault) returns (out: Outcome)
      modifies this
      ensures w == (if f.Applied() then next else old(w)) && out == f.Reply()
    {
      if f.Applied() {
        w := next;
      }
      return f.Reply();
    }

    method Commit(next: World, calm: bool) returns (out: Outcome)
      modifies this
      ensures w == old(w) || w == next
      ensures out.Ok? ==> w == next
      ensures calm ==> out.Ok?
    {
      var f := Choose(calm);
      out := CommitUnder(next, f);
    }

    method Lookup(h: HostID, name: Name) returns (i: Option<InstanceID>)
      requires Valid()
      ensures i.Some? ==> i.value in w.rows && w.rows[i.value].host == h && w.rows[i.value].name == name
      ensures i.None? ==> forall e | e in w.rows :: w.rows[e].host == h ==> w.rows[e].name != name
    {
      if e: InstanceID :| e in w.rows && w.rows[e].host == h && w.rows[e].name == name {
        return Some(e);
      }
      return None;
    }

    // ---- Instances ----

    method RemoveRow(e: InstanceID, f: Fault) returns (out: Outcome)
      requires Valid() && Removable(w, e)
      modifies this
      ensures Valid() && Evolves(old(w), w)
      ensures w == (if f.Applied() then Removed(old(w), e) else old(w)) && out == f.Reply()
    {
      RemovedSound(w, e);
      RemovedPlaced(w, e);
      out := CommitUnder(Removed(w, e), f);
    }

    /** The instance directory goes, with the disk in it. */
    method ClearTree(e: InstanceID, f: Fault) returns (out: Outcome)
      requires Valid() && Clearable(w, e)
      modifies this
      ensures Valid() && Evolves(old(w), w)
      ensures w == (if f.Applied() then Cleared(old(w), e) else old(w)) && out == f.Reply()
    {
      ClearedSound(w, e);
      ClearedPlaced(w, e);
      out := CommitUnder(Cleared(w, e), f);
    }

    /** The directory first, then the row. */
    method Reclaim(e: InstanceID, calm: bool) returns (out: Outcome)
      requires Valid() && Clearable(w, e) && Removable(w, e)
      modifies this
      ensures Valid() && Evolves(old(w), w)
      ensures w == old(w) || w == Cleared(old(w), e) || w == Removed(Cleared(old(w), e), e)
      ensures out.Ok? ==> w == Removed(Cleared(old(w), e), e)
      ensures calm ==> out.Ok?
    {
      var clearing := Choose(calm);
      :- ClearTree(e, clearing);
      var removing := Choose(calm);
      out := RemoveRow(e, removing);
    }

    /** Frees a name: only a tombstone or an unfenced failed row may be replaced. */
    method PrepareDir(h: HostID, name: Name, calm: bool) returns (out: Outcome)
      requires Valid()
      modifies this
      ensures Valid() && Evolves(old(w), w) && w.artifacts == old(w).artifacts && w.received == old(w).received && w.used == old(w).used && w.names == old(w).names
      ensures w.receipts.Keys <= old(w).receipts.Keys
      ensures out.Ok? ==> Vacant(w, h, name)
      ensures Vacant(old(w), h, name) ==> out.Ok? && w == old(w)
      ensures calm && (forall e | Named(old(w), e, h, name) :: Replaceable(old(w), e)) ==> out.Ok?
      ensures forall e | Named(old(w), e, h, name) && !Replaceable(old(w), e) :: out == Err && w == old(w)
      ensures forall e | e in old(w).rows && e !in w.rows ::
                old(w).rows[e].state == Deleted || (old(w).rows[e].state == FailedState && Unfenced(old(w), e) && e !in old(w).running)
    {
      var found := Lookup(h, name);
      if found.None? {
        return Ok;
      }
      var e := found.value;
      assert Named(w, e, h, name);
      var gone := w.rows[e].state == Deleted;
      if e in w.journals && w.journals[e].phase != Aborted && !(gone && w.journals[e].phase == Completed) {
        return Err;
      }
      if !(gone || (w.rows[e].state == FailedState && Unfenced(w, e))) || e in w.running {
        return Err;
      }
      out := Reclaim(e, calm);
    }

    method Insert(i: InstanceID, r: Row, calm: bool) returns (out: Outcome)
      requires Valid() && i !in w.used && i !in w.receipts && Vacant(w, r.host, r.name)
      modifies this
      ensures Valid() && Evolves(old(w), w)
      ensures out.Ok? ==> w == WithRow(old(w), i, r)
      ensures calm ==> out.Ok?
    {
      CreatedSound(w, i, r);
      CreatedPlaced(w, i, r);
      CreatedEvolves(w, i, r);
      out := Commit(WithRow(w, i, r), calm);
    }

    method Create(h: HostID, name: Name, i: InstanceID, disk: Bytes, calm: bool) returns (out: Outcome)
      requires Valid() && i !in w.used && i !in w.receipts
      modifies this
      ensures Valid() && Evolves(old(w), w)
      ensures out.Ok? ==> i in w.rows && w.rows[i] == Row(h, name, Stopped, Some(disk))
      ensures calm && Vacant(old(w), h, name) ==> out.Ok? && w == WithRow(old(w), i, Row(h, name, Stopped, Some(disk)))
    {
      out := Ok;
      :- PrepareDir(h, name, calm);
      out := Insert(i, Row(h, name, Stopped, Some(disk)), calm);
    }

    method Start(i: InstanceID) returns (out: Outcome)
      requires Valid()
      modifies this
      ensures Valid() && Evolves(old(w), w)
      ensures out.Ok? <==> Bootable(old(w), i) && Unfenced(old(w), i) && i !in old(w).running
      ensures w == if out.Ok? then old(w).(running := old(w).running + {i}) else old(w)
    {
      if !Bootable(w, i) || !Unfenced(w, i) || i in w.running {
        return Err;
      }
      StartedSound(w, i);
      w := w.(running := w.running + {i});
      return Ok;
    }

    method StopVM(i: InstanceID, calm: bool) returns (out: Outcome)
      requires Valid()
      modifies this
      ensures Valid() && Evolves(old(w), w)
      ensures w == old(w) || w == old(w).(running := old(w).running - {i})
      ensures out.Ok? ==> i !in w.running && w == old(w).(running := old(w).running - {i})
      ensures calm ==> out.Ok?
    {
      StoppedSound(w, w.running - {i});
      out := Commit(w.(running := w.running - {i}), calm);
    }

    method GuestWrite(i: InstanceID, b: Bytes)
      requires Valid() && i in w.running
      modifies this
      ensures Valid() && Evolves(old(w), w) && i in old(w).rows && w == Filled(old(w), i, b)
    {
      assert i in w.journals ==> Fenced(w, i);
      RowSound(w, i, w.rows[i].(disk := Some(b)));
      RowPlaced(w, i, w.rows[i].(disk := Some(b)));
      w := w.(rows := w.rows[i := w.rows[i].(disk := Some(b))]);
    }

    /** Restore, resize, repair: offline changes under the same fence as a start. */
    method Rewrite(i: InstanceID, b: Bytes, failed: bool, calm: bool) returns (out: Outcome)
      requires Valid()
      modifies this
      ensures Valid() && Evolves(old(w), w)
      ensures !Bootable(old(w), i) || old(w).rows[i].state != Stopped || !Unfenced(old(w), i) || i in old(w).running ==> out.Err? && w == old(w)
      ensures w != old(w) || out.Ok? ==>
                i in old(w).rows && w == old(w).(rows := old(w).rows[i := old(w).rows[i].(disk := Some(b), state := if failed then FailedState else Stopped)])
      ensures calm && Bootable(old(w), i) && old(w).rows[i].state == Stopped && Unfenced(old(w), i) && i !in old(w).running ==> out.Ok?
    {
      if !Bootable(w, i) || w.rows[i].state != Stopped || !Unfenced(w, i) || i in w.running {
        return Err;
      }
      var row := w.rows[i].(disk := Some(b), state := if failed then FailedState else Stopped);
      RowSound(w, i, row);
      RowPlaced(w, i, row);
      out := Commit(w.(rows := w.rows[i := row]), calm);
    }

    method Bury(i: InstanceID, calm: bool) returns (out: Outcome)
      requires Valid() && i in w.rows && w.rows[i].state == Deleting && i !in w.running && !Migrating(w, i)
      modifies this
      ensures Valid() && Evolves(old(w), w)
      ensures w == old(w) || w == Cleared(old(w), i) || w == Doomed(Cleared(old(w), i), i, Deleted)
      ensures out.Ok? ==> w == Doomed(Cleared(old(w), i), i, Deleted)
      ensures calm ==> out.Ok?
    {
      out := Ok;
      var clearing := Choose(calm);
      :- ClearTree(i, clearing);
      DoomedSound(w, i, Deleted);
      DoomedPlaced(w, i, Deleted);
      out := Commit(Doomed(w, i, Deleted), calm);
    }

    /** The row is fenced first, and a tombstone only once the machine and its directory are
        gone; every stop in between is resumed by the next attempt. */
    method Doom(i: InstanceID, calm: bool) returns (out: Outcome)
      requires Valid() && Present(w, i) && !Migrating(w, i)
      modifies this
      ensures Valid() && Evolves(old(w), w) && w.journals == old(w).journals && w.receipts == old(w).receipts
      ensures i in w.rows && w.rows[i].host == old(w).rows[i].host && w.rows[i].name == old(w).rows[i].name
      ensures out.Ok? ==> w.rows[i].state == Deleted && w.rows[i].disk.None? && i !in w.running
      ensures calm ==> out.Ok?
    {
      DoomedSound(w, i, Deleting);
      DoomedPlaced(w, i, Deleting);
      :- Commit(Doomed(w, i, Deleting), calm);
      :- StopVM(i, calm);
      out := Bury(i, calm);
    }

    /** An active migration excludes deletion; a completed one leaves a source to delete. */
    method Delete(h: HostID, name: Name, calm: bool) returns (out: Outcome)
      requires Valid()
      modifies this
      ensures Valid() && Evolves(old(w), w)
      ensures forall i: InstanceID | Named(old(w), i, h, name) && (old(w).rows[i].state == Deleted || Migrating(old(w), i)) :: out == Err && w == old(w)
      ensures out.Ok? ==> exists i :: Named(w, i, h, name) && w.rows[i].state == Deleted && w.rows[i].disk.None? && i !in w.running
      ensures calm && (exists i :: Named(old(w), i, h, name) && old(w).rows[i].state != Deleted && !Migrating(old(w), i)) ==> out.Ok?
      ensures w.journals == old(w).journals && w.receipts == old(w).receipts
    {
      var found := Lookup(h, name);
      if found.None? {
        return Err;
      }
      var i := found.value;
      if w.rows[i].state == Deleted || Migrating(w, i) {
        return Err;
      }
      out := Doom(i, calm);
      assert out.Ok? ==> Named(w, i, h, name) && w.rows[i].state == Deleted;
    }

    // ---- Source ----

    method PutJournal(i: InstanceID, j: Journal, calm: bool) returns (out: Outcome)
      requires Valid() && i in w.rows && (j.phase == Prepared ==> w.rows[i].disk.Some?) && Sound(WithJournal(w, i, j))
      modifies this
      ensures Valid() && Evolves(old(w), w) && (w == old(w) || w == WithJournal(old(w), i, j))
      ensures out.Ok? ==> w == WithJournal(old(w), i, j)
      ensures calm ==> out.Ok?
    {
      SamePlacesPlaced(w, WithJournal(w, i, j));
      out := Commit(WithJournal(w, i, j), calm);
    }

    /** Stopped and hydrated under the fence, the source is ready to leave. */
    method Quiesce(i: InstanceID, calm: bool) returns (out: Outcome)
      requires Valid() && Present(w, i) && i in w.journals && w.journals[i].phase == Preparing
      modifies this
      ensures Valid() && Evolves(old(w), w) && w.rows == old(w).rows
      ensures out.Ok? ==> i !in w.running && w.rows[i].disk.Some? && w.journals == old(w).journals[i := old(w).journals[i].(phase := Prepared)]
      ensures w.rested == old(w).rested + (if old(w).journals[i].wasRunning then {} else {(old(w).journals[i].token, i)})
      ensures calm && old(w).rows[i].disk.Some? ==>
                out.Ok? && w == WithJournal(old(w).(running := old(w).running - {i}), i, old(w).journals[i].(phase := Prepared))
    {
      out := Ok;
      :- StopVM(i, calm);
      if w.rows[i].disk.None? {
        return Err;
      }
      PreparedSound(w, i);
      out := PutJournal(i, w.journals[i].(phase := Prepared), calm);
    }

    method Prepare(h: HostID, name: Name, target: HostID, token: Token, calm: bool) returns (out: Outcome, id: InstanceID, running: bool)
      requires Valid()
      modifies this
      ensures Valid() && Evolves(old(w), w)
      ensures out.Ok? ==> Present(w, id) && w.rows[id].host == h && w.rows[id].name == name && id !in w.running
      ensures out.Ok? ==> id in w.journals && w.journals[id].token == token && w.journals[id].target == target
                          && (w.journals[id].phase == Prepared || w.journals[id].phase == Completed)
      ensures out.Ok? ==> running == w.journals[id].wasRunning && (!running ==> (token, id) in w.rested)
      ensures out.Ok? ==>
                && id in old(w).rows
                && (if id in old(w).journals && old(w).journals[id].phase != Aborted then running == old(w).journals[id].wasRunning
                    else running == (id in old(w).running))
      ensures forall i: InstanceID | Named(old(w), i, h, name) && calm && Movable(old(w), i, token) ::
                out.Ok? && id == i && w == PreparedFor(old(w), i, target, token)
      ensures forall i: InstanceID | Named(old(w), i, h, name) && i in old(w).journals && old(w).rows[i].state != Deleted && old(w).rows[i].state != Deleting
                         && old(w).journals[i].token == token && old(w).journals[i].target == target ::
                && ((old(w).journals[i].phase == Prepared || old(w).journals[i].phase == Completed) ==> out.Ok? && id == i && w == old(w))
                && (old(w).journals[i].phase == Preparing && calm && old(w).rows[i].disk.Some? ==>
                      out.Ok? && id == i && w == WithJournal(old(w).(running := old(w).running - {i}), i, old(w).journals[i].(phase := Prepared)))
      ensures forall i: InstanceID | Named(old(w), i, h, name) && Unpreparable(old(w), i, target, token) :: out == Err && w == old(w)
    {
      id, running := 0, false;
      var found := Lookup(h, name);
      if found.None? || w.rows[found.value].state == Deleted || w.rows[found.value].state == Deleting {
        return Err, id, running;
      }
      id := found.value;
      var anew := id !in w.journals || w.journals[id].phase == Aborted;
      if id in w.journals && (if anew then w.journals[id].token == token else w.journals[id].token != token || w.journals[id].target != target) {
        return Err, id, running;
      }
      if !anew && w.journals[id].phase != Preparing {
        return Ok, id, w.journals[id].wasRunning;
      }
      if anew {
        if !Unfenced(w, id) {
          return Err, id, running;
        }
        PreparingSound(w, id, Journal(token, target, id in w.running, Preparing));
        :- PutJournal(id, Journal(token, target, id in w.running, Preparing), calm);
      }
      running := w.journals[id].wasRunning;
      out := Quiesce(id, calm);
    }

    method Finish(h: HostID, name: Name, token: Token, recover: bool, calm: bool) returns (out: Outcome)
      requires Valid()
      modifies this
      ensures Valid() && Evolves(old(w), w)
      ensures !recover ==> w.aborted == old(w).aborted
      ensures forall i: InstanceID | Named(old(w), i, h, name) :: Finishable(old(w), i, token, recover) || (out == Err && w == old(w))
      ensures forall i: InstanceID | Named(old(w), i, h, name) && Finishable(old(w), i, token, recover) ::
                && (w == old(w) || w == WithJournal(old(w), i, old(w).journals[i].(phase := if recover then Aborted else Completed)))
                && (out.Ok? ==> w == WithJournal(old(w), i, old(w).journals[i].(phase := if recover then Aborted else Completed)))
                && (calm ==> out.Ok?)
      ensures w != old(w) || out.Ok? ==> exists i: InstanceID ::
                && Named(old(w), i, h, name) && Finishable(old(w), i, token, recover)
                && w == WithJournal(old(w), i, old(w).journals[i].(phase := if recover then Aborted else Completed))
    {
      var found := Lookup(h, name);
      if found.None? || found.value !in w.journals || w.journals[found.value].token != token {
        return Err;
      }
      var i := found.value;
      var j := w.journals[i];
      if !Finishable(w, i, token, recover) {
        return Err;
      }
      if recover {
        AbortedSound(w, i);
      } else {
        CompletedSound(w, i);
      }
      out := PutJournal(i, j.(phase := if recover then Aborted else Completed), calm);
    }

    /** An export under a migration carries its token, and needs it prepared. */
    method Export(h: HostID, name: Name, native: Option<Token>, calm: bool) returns (out: Outcome, a: Artifact)
      requires Valid()
      modifies this
      ensures Valid() && Evolves(old(w), w)
      ensures out.Ok? ==> a in w.artifacts && (native.Some? ==> a.token == native && a.disk.None?)
      ensures out.Ok? ==> a.source in w.rows && a.source !in w.running
                          && (a.source in w.journals && w.journals[a.source].phase != Aborted ==>
                                w.journals[a.source].phase == Prepared && a.token == Some(w.journals[a.source].token))
      ensures forall i: InstanceID | Named(old(w), i, h, name) && native.Some? && Sendable(old(w), i, native.value) ::
                && (out.Ok? ==> a == Artifact(native, i, name, None) && w == Exported(old(w), a))
                && (calm ==> out.Ok?)
    {
      a := Artifact(None, 0, name, None);
      var found := Lookup(h, name);
      if found.None? {
        return Err, a;
      }
      var i := found.value;
      if w.rows[i].state != Stopped || w.rows[i].disk.None? || i in w.running || (i in w.receipts && w.receipts[i].phase != Imported) {
        return Err, a;
      }
      var token := None;
      if i in w.journals && w.journals[i].phase != Aborted {
        if w.journals[i].phase != Prepared {
          return Err, a;
        }
        token := Some(w.journals[i].token);
      }
      if native.Some? && native != token {
        return Err, a;
      }
      a := Artifact(token, i, name, if native.Some? then None else w.rows[i].disk);
      IssuedSound(w, i, a);
      IssuedPlaced(w, i, Exported(w, a));
      out := Commit(Exported(w, a), calm);
    }

    /** The disk snapshot travels under the prepared token. */
    method SendDisk(h: HostID, name: Name, token: Token, g: HostID, calm: bool) returns (out: Outcome)
      requires Valid()
      modifies this
      ensures Valid() && Evolves(old(w), w)
      ensures forall i: InstanceID | Named(old(w), i, h, name) :: Sendable(old(w), i, token) || (out == Err && w == old(w))
      ensures forall i: InstanceID | Named(old(w), i, h, name) && Sendable(old(w), i, token) ::
                (out.Ok? ==> w == Sent(old(w), i, g)) && (calm ==> out.Ok?)
      ensures w != old(w) || out.Ok? ==> exists i: InstanceID ::
                && Named(old(w), i, h, name) && Sendable(old(w), i, token) && w == Sent(old(w), i, g)
                && ((token, i) !in w.aborted ==> w.frozen[(token, i)] == w.received[(g, (token, i))])
    {
      var found := Lookup(h, name);
      if found.None? {
        return Err;
      }
      var i := found.value;
      if !Sendable(w, i, token) {
        return Err;
      }
      assert Fenced(w, i);
      SentSound(w, i, g);
      IssuedPlaced(w, i, Sent(w, i, g));
      out := Commit(Sent(w, i, g), calm);
      assert Named(old(w), i, h, name) && Sendable(old(w), i, token);
    }

    // ---- Destination ----

    /** A visible incarnation's receipt is never touched; an orphan one is replaced. */
    method Reserve(j: InstanceID, a: Artifact, calm: bool) returns (out: Outcome)
      requires Valid() && a in w.artifacts
      modifies this
      ensures Valid() && Evolves(old(w), w)
      ensures j in old(w).rows ==> out == Err && w == old(w)
      ensures w == old(w) || w == old(w).(receipts := old(w).receipts[j := ImportReceipt(a.token, a.source, Importing)])
      ensures out.Ok? ==> w == old(w).(receipts := old(w).receipts[j := ImportReceipt(a.token, a.source, Importing)])
      ensures calm && j !in old(w).rows ==> out.Ok?
    {
      if j in w.rows {
        return Err;
      }
      ReservedSound(w, j, a);
      out := Commit(w.(receipts := w.receipts[j := ImportReceipt(a.token, a.source, Importing)]), calm);
    }

    method CreateReserved(h: HostID, j: InstanceID, name: Name, calm: bool) returns (out: Outcome)
      requires Valid() && j !in w.used && j in w.receipts && w.receipts[j].phase == Importing
      requires Vacant(w, h, name)
      requires w.receipts[j].source in w.names && w.names[w.receipts[j].source] == name
      modifies this
      ensures Valid() && Evolves(old(w), w)
      ensures w == old(w) || w == WithReserved(old(w), j, h, name)
      ensures out.Ok? ==> w == WithReserved(old(w), j, h, name) && j in w.rows && w.rows[j] == Row(h, name, Provisioning, None) && j !in w.running
      ensures calm ==> out.Ok?
    {
      CreateReservedSound(w, j, h, name);
      out := Commit(WithReserved(w, j, h, name), calm);
    }

    /** One transaction releases the start fence. */
    method Finalize(j: InstanceID, a: Artifact, b: Bytes, f: Fault) returns (out: Outcome)
      requires Importable(w, j, a, b) && w.rows[j].state == Provisioning && w.rows[j].disk == Some(b)
      modifies this
      ensures Valid() && Evolves(old(w), w) && j !in w.running && j !in w.journals
      ensures w == AfterFinalize(old(w), j, NowLanded(old(w), a), f) && out == f.Reply()
    {
      FinalizedLands(w, j, a, b, NowLanded(w, a));
      FinalizedSound(w, j, NowLanded(w, a));
      FinalizedPlaced(w, j, NowLanded(w, a));
      out := CommitUnder(Finalized(w, j, NowLanded(w, a)), f);
    }

    /** The deferred clean-up of a failed import: its errors are not looked at. */
    method TakeBack(ghost start: World, j: InstanceID, removing: Fault, clearing: Fault) returns (out: Outcome)
      requires Valid() && j !in w.running && j !in w.journals && Evolves(start, w)
      modifies this
      ensures Valid() && Evolves(start, w) && !out.Ok?
      ensures w == TakenBack(old(w), j, removing, clearing)
    {
      ghost var was := w;
      out := RemoveRow(j, removing);
      EvolvesTransitive(start, was, w);
      if out.Crash? {
        return;
      }
      ghost var removed := w;
      out := ClearTree(j, clearing);
      EvolvesTransitive(start, removed, w);
      out := if out.Crash? then Crash else Err;
    }

    /** The disk is in place and synced before the receipt says so; one transaction releases
        the start fence.  A failure takes the reservation back, and then the directory,
        whatever became of the row. */
    method EndImport(j: InstanceID, a: Artifact, b: Bytes, finalizing: Fault, removing: Fault, clearing: Fault) returns (out: Outcome)
      requires Importable(w, j, a, b) && w.rows[j].state == Provisioning && w.rows[j].disk == Some(b)
      modifies this
      ensures Valid() && Evolves(old(w), w)
      ensures w == ImportEnd(old(w), j, NowLanded(old(w), a), finalizing, removing, clearing)
      ensures out.Ok? <==> finalizing.Reply().Ok?
      ensures out.Err? ==> finalizing.Reply().Err?
    {
      ghost var was := w;
      out := Finalize(j, a, b, finalizing);
      if out.Err? {
        out := TakeBack(was, j, removing, clearing);
      }
    }

    method Settle(j: InstanceID, a: Artifact, b: Bytes, calm: bool, calmUndo: bool) returns (out: Outcome)
      requires Importable(w, j, a, b) && w.rows[j].state == Provisioning && w.rows[j].disk == Some(b)
      modifies this
      ensures Valid() && Evolves(old(w), w) && Exited(w, j, a)
      ensures out.Ok? ==> Landed(w, j, a, b) && w == Finalized(old(w), j, NowLanded(old(w), a))
      ensures calm ==> out.Ok?
      ensures calmUndo && out.Err? ==> j !in w.rows
    {
      var finalizing := Choose(calm);
      var removing := Choose(calmUndo);
      var clearing := Choose(calmUndo);
      ImportEndExits(w, j, a, b, NowLanded(w, a), finalizing, removing, clearing);
      out := EndImport(j, a, b, finalizing, removing, clearing);
    }

    method Abandon(j: InstanceID, a: Artifact, calmUndo: bool) returns (out: Outcome)
      requires Valid() && j !in w.running && j !in w.journals && j in w.receipts && w.receipts[j].phase == Importing
      modifies this
      ensures Valid() && Evolves(old(w), w) && Exited(w, j, a) && !out.Ok?
      ensures calmUndo && out.Err? ==> j !in w.rows
    {
      var removing := Choose(calmUndo);
      var clearing := Choose(calmUndo);
      TakenBackExits(w, j, a, removing, clearing);
      out := TakeBack(w, j, removing, clearing);
    }

    /** The disk is put in place. */
    method Fill(j: InstanceID, a: Artifact, b: Bytes, calm: bool) returns (out: Outcome)
      requires Importable(w, j, a, b) && w.rows[j].state == Provisioning
      modifies this
      ensures Valid() && Evolves(old(w), w) && (w == old(w) || w == Filled(old(w), j, b))
      ensures j !in w.running && j !in w.journals && j in w.receipts && w.receipts[j].phase == Importing
      ensures out.Ok? ==> w == Filled(old(w), j, b) && Importable(w, j, a, b)
      ensures calm ==> out.Ok?
    {
      FilledSound(w, j, a, b);
      out := Commit(Filled(w, j, b), calm);
    }

    method Receive(h: HostID, a: Artifact, j: InstanceID, calm: bool, calmUndo: bool) returns (out: Outcome)
      requires Valid() && a in w.artifacts && j in w.rows && w.rows[j].host == h && j !in w.running && j in w.imports
      requires j in w.receipts && w.receipts[j] == ImportReceipt(a.token, a.source, Importing) && w.rows[j].state == Provisioning
      modifies this
      ensures Valid() && Evolves(old(w), w) && Exited(w, j, a)
      ensures out.Ok? ==> Arrived(old(w).received, h, a) && w == Received(old(w), j, a, Carriage(old(w).received, h, a)) && Landed(w, j, a, Carriage(old(w).received, h, a))
      ensures calm && Arrived(old(w).received, h, a) ==> out.Ok?
      ensures calmUndo && out.Err? ==> j !in w.rows
    {
      if !Arrived(w.received, h, a) {
        out := Abandon(j, a, calmUndo);
        return;
      }
      var b := Carriage(w.received, h, a);
      out := Fill(j, a, b, calm);
      if out.Err? {
        out := Abandon(j, a, calmUndo);
      } else if out.Ok? {
        out := Settle(j, a, b, calm, calmUndo);
      }
    }

    method Unreserve(j: InstanceID, calm: bool) returns (out: Outcome)
      requires Valid() && j !in w.running && j !in w.journals
      modifies this
      ensures Valid() && Evolves(old(w), w) && !out.Ok?
      ensures w.receipts == old(w).receipts && w.rows.Keys == old(w).rows.Keys
    {
      var clearing := Choose(calm);
      var cleared := ClearTree(j, clearing);
      out := if cleared.Crash? then Crash else Err;
    }

    /** The receipt before the row; without the row the directory goes again. */
    method ReserveRow(h: HostID, a: Artifact, j: InstanceID, calm: bool) returns (out: Outcome)
      requires Valid() && a in w.artifacts && j !in w.used && Vacant(w, h, a.name)
      modifies this
      ensures Valid() && Evolves(old(w), w) && (j !in w.rows || (j in w.receipts && w.receipts[j].phase == Importing))
      ensures out.Ok? ==> w == ReservedFor(old(w), h, a, j)
      ensures calm ==> out.Ok?
    {
      out := Ok;
      :- Reserve(j, a, calm);
      ghost var reserved := w;
      out := CreateReserved(h, j, a.name, calm);
      if out.Err? {
        ghost var was := w;
        out := Unreserve(j, calm);
        EvolvesTransitive(reserved, was, w);
      }
    }

    /** Success is a landed copy.  A failure or a crash leaves no row, a fenced one, a landed
        copy when only the reply of the last transaction was lost, or, when the row could
        not be removed after that either, an unfenced row without a disk.  `calmUndo` keeps
        faults out of the clean-up alone: then a reported failure leaves no row, or, when only
        the reply of its creation was lost, a fenced one. */
    method Import(h: HostID, a: Artifact, j: InstanceID, calm: bool, calmUndo: bool) returns (out: Outcome)
      requires Valid() && a in w.artifacts && j !in w.used
      modifies this
      ensures Valid() && Evolves(old(w), w) && Exited(w, j, a)
      ensures out.Ok? ==> Arrived(old(w).received, h, a) && Landed(w, j, a, Carriage(old(w).received, h, a)) && w.rows[j].host == h && w.rows[j].name == a.name
      ensures out.Ok? ==> j in w.receipts && w.receipts[j] == ImportReceipt(a.token, a.source, Imported)
      ensures calmUndo && out.Err? ==> j !in w.rows || !Unfenced(w, j)
      ensures out.Ok? && Vacant(old(w), h, a.name) ==> w == ImportedAs(old(w), h, a, j)
      ensures calm && Vacant(old(w), h, a.name) && Arrived(old(w).received, h, a) ==> out.Ok?
    {
      out := Ok;
      :- PrepareDir(h, a.name, calm);
      :- ReserveRow(h, a, j, calm);
      out := Receive(h, a, j, calm, calmUndo);
    }

    // ---- The front end ----

    method HostCrash(h: HostID)
      requires Valid()
      modifies this
      ensures Valid() && Evolves(old(w), w) && (forall i | i in w.running :: w.rows[i].host != h)
    {
      var left := set i | i in w.running && w.rows[i].host != h;
      StoppedSound(w, left);
      w := w.(running := left);
    }

    method Step()
      requires Valid()
      modifies this
      ensures Valid() && Evolves(old(w), w)
    {
      var h: HostID, name: Name, i: InstanceID, b: Bytes, a: Artifact, g: HostID, token: Token, flag: bool, native: Option<Token>, op: nat := *, *, *, *, *, *, *, *, *, *;
      var out, id := Ok, 0;
      if {
      case op == 0 && i !in w.used && i !in w.receipts => out := Create(h, name, i, b, false);
      case op == 1 => out := Start(i);
      case op == 2 => out := StopVM(i, false);
      case op == 3 && i in w.running => GuestWrite(i, b);
      case op == 4 => out := Rewrite(i, b, flag, false);
      case op == 5 => out := Delete(h, name, false);
      case op == 6 => out, id, flag := Prepare(h, name, g, token, false);
      case op == 7 => out := Finish(h, name, token, flag, false);
      case op == 8 => out, a := Export(h, name, native, false);
      case op == 9 => out := SendDisk(h, name, token, g, false);
      case op == 10 && a in w.artifacts && i !in w.used => out := Import(h, a, i, false, false);
      case op == 11 => HostCrash(h);
      case true =>
      }
    }

    method Others()
      requires Valid()
      modifies this
      ensures Valid() && Evolves(old(w), w)
    {
      var k: nat := *;
      while k > 0
        invariant Valid() && Evolves(old(w), w)
      {
        Step();
        k := k - 1;
      }
    }

    /** A command over the network: it may never arrive, and its reply may be lost. */
    method Network(calm: bool) returns (f: Fault)
      requires Valid()
      modifies this
      ensures Valid() && Evolves(old(w), w)
      ensures calm ==> f == Clean && w == old(w)
    {
      if !calm {
        Others();
      }
      f := Choose(calm);
    }

    method PrepareSource(source: HostID, target: HostID, name: Name, token: Token, calm: bool) returns (out: Outcome, id: InstanceID, wasRunning: bool)
      requires Valid()
      modifies this
      ensures Valid() && Evolves(old(w), w)
      ensures out.Ok? ==> Ours(w, id, source, name) && (wasRunning || (token, id) in w.rested)
      ensures out.Ok? ==> id in w.journals && w.journals[id].token == token && w.journals[id].target == target && w.journals[id].phase == Prepared
      ensures forall i: InstanceID | Named(old(w), i, source, name) && calm && Movable(old(w), i, token) ::
                out.Ok? && id == i && wasRunning == (i in old(w).running) && w == PreparedFor(old(w), i, target, token)
    {
      id, wasRunning := 0, false;
      var f := Network(calm);
      if !f.Applied() {
        return f.Reply(), id, wasRunning;
      }
      out, id, wasRunning := Prepare(source, name, target, token, calm);
      if out.Ok? && w.journals[id].phase != Prepared {
        out := Err;
      }
      out := if out.Ok? then f.Reply() else out;
    }

    method ShipDisk(source: HostID, target: HostID, name: Name, token: Token, calm: bool) returns (out: Outcome)
      requires Valid()
      modifies this
      ensures Valid() && Evolves(old(w), w)
      ensures forall i: InstanceID | Named(old(w), i, source, name) && calm && Sendable(old(w), i, token) :: out.Ok? && w == Sent(old(w), i, target)
    {
      var f := Network(calm);
      if !f.Applied() {
        return f.Reply();
      }
      out := SendDisk(source, name, token, target, calm);
      out := if out.Ok? then f.Reply() else out;
    }

    /** The source is prepared and its disk arrives at the target. */
    method Send(source: HostID, target: HostID, name: Name, token: Token, calm: bool) returns (out: Outcome, id: InstanceID, wasRunning: bool)
      requires Valid()
      modifies this
      ensures Valid() && Evolves(old(w), w)
      ensures out.Ok? ==> Ours(w, id, source, name) && (wasRunning || (token, id) in w.rested)
      ensures forall i: InstanceID | Named(old(w), i, source, name) && calm && Movable(old(w), i, token) ::
                && out.Ok? && id == i && wasRunning == (i in old(w).running)
                && w == Sent(PreparedFor(old(w), i, target, token), i, target)
    {
      ghost var w0 := w;
      out, id, wasRunning := PrepareSource(source, target, name, token, calm);
      if out.Ok? {
        ghost var w1 := w;
        forall i | Named(w0, i, source, name) && calm && Movable(w0, i, token)
          ensures Named(w1, i, source, name) && Sendable(w1, i, token)
        {
          PreparedIsSendable(w0, i, target, token);
        }
        out := ShipDisk(source, target, name, token, calm);
        OursStays(w1, w, id, source, name);
        EvolvesTransitive(w0, w1, w);
      }
    }

    /** Exporting the metadata at the source and importing it at the target is one stream:
        either end can fail, and the import can succeed without its reply. */
    method Stream(source: HostID, target: HostID, name: Name, token: Token, j: InstanceID, ghost i: InstanceID, calm: bool) returns (out: Outcome)
      requires Valid()
      modifies this
      ensures Valid() && Evolves(old(w), w)
      ensures out.Ok? ==> j !in old(w).used && j in w.rows && j in w.receipts && w.receipts[j].token == Some(token) && w.receipts[j].phase == Imported
      ensures calm && Named(old(w), i, source, name) && Streamable(old(w), i, target, token, j) ==>
                out.Ok? && w == Streamed(old(w), i, target, token, j)
    {
      var a;
      var f := Network(calm);
      if !f.Applied() {
        return f.Reply();
      }
      a :- Export(source, name, Some(token), calm);
      if j in w.used {
        return Err;
      }
      out := Import(target, a, j, calm, false);
      out := if out.Ok? then f.Reply() else out;
    }

    method QueryReceipt(h: HostID, name: Name, calm: bool) returns (out: Outcome, r: ImportReceipt)
      requires Valid()
      modifies this
      ensures Valid() && Evolves(old(w), w)
      ensures out.Ok? ==> exists j: InstanceID :: Named(w, j, h, name) && j in w.receipts && w.receipts[j] == r
      ensures out.Ok? && r.token.Some? && r.phase == Imported ==> (r.token.value, r.source) in w.landed
      ensures forall j | Named(old(w), j, h, name) && calm && j in old(w).receipts :: out.Ok? && r == old(w).receipts[j]
      ensures calm ==> w == old(w)
    {
      r := ImportReceipt(None, 0, Importing);
      var f := Network(calm);
      var found := Lookup(h, name);
      if !f.Applied() || found.None? || found.value !in w.receipts {
        return if f.Reply().Crash? then Crash else Err, r;
      }
      return f.Reply(), w.receipts[found.value];
    }

    /** The source records the completion. */
    method CompleteSource(source: HostID, name: Name, token: Token, ghost id: InstanceID, calm: bool) returns (out: Outcome)
      requires Valid() && Ours(w, id, source, name) && (token, id) in w.landed
      modifies this
      ensures Valid() && Evolves(old(w), w)
      ensures out.Ok? ==> (token, id) in w.completed || (token, id) in w.aborted
      ensures calm && Named(old(w), id, source, name) && Finishable(old(w), id, token, false) ==>
                out.Ok? && w == WithJournal(old(w), id, old(w).journals[id].(phase := Completed))
    {
      ghost var w0 := w;
      var f := Network(calm);
      if !f.Applied() {
        return f.Reply();
      }
      ghost var was := w;
      out := Finish(source, name, token, false, calm);
      EvolvesTransitive(w0, was, w);
      if out.Ok? {
        OursStays(w0, w, id, source, name);
        ghost var i: InstanceID :| Named(was, i, source, name) && Finishable(was, i, token, false)
                                   && w == WithJournal(was, i, was.journals[i].(phase := Completed));
        CompletedIsThis(w, i, id, source, name, token);
        out := f.Reply();
      }
    }

    /** A machine that ran is started at the target. */
    method Restart(target: HostID, name: Name, ghost s: InstanceID, calm: bool) returns (out: Outcome)
      requires Valid()
      modifies this
      ensures Valid() && Evolves(old(w), w)
      ensures out.Ok? ==> exists s: InstanceID :: Named(w, s, target, name) && s in w.running
      ensures calm && Named(old(w), s, target, name) && Bootable(old(w), s) && Unfenced(old(w), s) && s !in old(w).running ==>
                out.Ok? && w == old(w).(running := old(w).running + {s})
    {
      var f := Network(calm);
      var found := Lookup(target, name);
      if !f.Applied() || found.None? {
        return if f.Reply().Ok? then Err else f.Reply();
      }
      out := Start(found.value);
      assert out.Ok? ==> Named(w, found.value, target, name) && found.value in w.running;
      out := if out.Ok? then f.Reply() else out;
    }

    method Complete(source: HostID, target: HostID, name: Name, token: Token, wasRunning: bool, ghost id: InstanceID, ghost s: InstanceID, calm: bool) returns (out: Outcome)
      requires Valid() && Ours(w, id, source, name) && (token, id) in w.landed
      modifies this
      ensures Valid() && Evolves(old(w), w)
      ensures out.Ok? ==> (token, id) in w.completed || (token, id) in w.aborted
      ensures out.Ok? && wasRunning ==> exists s: InstanceID :: Named(w, s, target, name) && s in w.running
      ensures calm && Named(old(w), id, source, name) && Named(old(w), s, target, name) && Settleable(old(w), id, s, token) ==>
                out.Ok? && w == Concluded(old(w), id, s, wasRunning)
    {
      ghost var w0 := w;
      out := CompleteSource(source, name, token, id, calm);
      if out.Ok? && wasRunning {
        ghost var w1 := w;
        if calm && Named(w0, id, source, name) && Named(w0, s, target, name) && Settleable(w0, id, s, token) {
          CompletedKeeps(w0, id, s, token);
        }
        out := Restart(target, name, s, calm);
        EvolvesTransitive(w0, w1, w);
      }
    }

    /** The target's receipt must name this very move. */
    method Confirm(target: HostID, name: Name, token: Token, id: InstanceID, ghost j: InstanceID, calm: bool) returns (out: Outcome)
      requires Valid()
      modifies this
      ensures Valid() && Evolves(old(w), w)
      ensures out.Ok? ==> (token, id) in w.landed
      ensures calm && Named(old(w), j, target, name) && j in old(w).receipts && old(w).receipts[j] == ImportReceipt(Some(token), id, Imported) ==> out.Ok?
      ensures calm ==> w == old(w)
    {
      var r;
      out, r := QueryReceipt(target, name, calm);
      if out.Ok? && (r.token != Some(token) || r.source != id || r.phase != Imported) {
        out := Err;
      }
    }

    /** The disk, and then the metadata. */
    method Forward(source: HostID, target: HostID, name: Name, token: Token, j: InstanceID, ghost i: InstanceID, calm: bool) returns (out: Outcome, id: InstanceID, wasRunning: bool)
      requires Valid()
      modifies this
      ensures Valid() && Evolves(old(w), w)
      ensures out.Ok? ==> Ours(w, id, source, name) && (wasRunning || (token, id) in w.rested)
      ensures calm && Named(old(w), i, source, name) && Migratable(old(w), i, target, token, j) ==>
                out.Ok? && id == i && wasRunning == (i in old(w).running) && w == Transferred(old(w), i, target, token, j)
    {
      ghost var w0 := w;
      id, wasRunning :- Send(source, target, name, token, calm);
      ghost var w1 := w;
      if calm && Named(w0, i, source, name) && Migratable(w0, i, target, token, j) {
        ShippedIsStreamable(w0, i, target, token, j);
      }
      out := Stream(source, target, name, token, j, i, calm);
      EvolvesTransitive(w0, w1, w);
      if out.Ok? {
        OursStays(w1, w, id, source, name);
      }
    }

    /** Everything up to the target's own word that this very move was imported.  `i` is any
        instance, for what a calm run does. */
    method Transfer(source: HostID, target: HostID, name: Name, token: Token, j: InstanceID, ghost i: InstanceID, calm: bool) returns (out: Outcome, id: InstanceID, wasRunning: bool)
      requires Valid()
      modifies this
      ensures Valid() && Evolves(old(w), w)
      ensures out.Ok? ==> Ours(w, id, source, name) && (token, id) in w.landed && (wasRunning || (token, id) in w.rested)
      ensures calm && Named(old(w), i, source, name) && Migratable(old(w), i, target, token, j) ==>
                out.Ok? && id == i && wasRunning == (i in old(w).running) && w == Transferred(old(w), i, target, token, j)
    {
      ghost var w0 := w;
      id, wasRunning :- Forward(source, target, name, token, j, i, calm);
      ghost var w1 := w;
      if calm && Named(w0, i, source, name) && Migratable(w0, i, target, token, j) {
        TransferredLands(w0, i, target, token, j);
      }
      out := Confirm(target, name, token, id, j, calm);
      OursStays(w1, w, id, source, name);
      EvolvesTransitive(w0, w1, w);
    }

    /** One migration.  The source is completed only once the move was imported, and a machine
        that ran runs at the target. */
    method Migrate(source: HostID, target: HostID, name: Name, token: Token, j: InstanceID, ghost i: InstanceID, calm: bool) returns (out: Outcome, id: InstanceID)
      requires Valid()
      modifies this
      ensures Valid() && Evolves(old(w), w)
      ensures out.Ok? ==> (token, id) in w.landed && ((token, id) in w.aborted || !Live(w, id))
      ensures source == target ==> out == Err && w == old(w)
      ensures out.Ok? ==> (token, id) in w.completed || (token, id) in w.aborted
      ensures out.Ok? ==> (token, id) in w.rested || exists s: InstanceID :: Named(w, s, target, name) && s in w.running
      ensures calm && Named(old(w), i, source, name) && Migratable(old(w), i, target, token, j) ==>
                && out.Ok? && id == i && i in w.journals && w.journals[i].phase == Completed && (token, i) in w.completed
                && w.rows == old(w).rows[j := Row(target, name, Stopped, old(w).rows[i].disk)]
                && w.running == old(w).running - {i} + (if i in old(w).running then {j} else {})
    {
      var wasRunning;
      id := 0;
      if source == target {
        return Err, id;
      }
      ghost var w0 := w;
      id, wasRunning :- Transfer(source, target, name, token, j, i, calm);
      ghost var w1 := w;
      if calm && Named(w0, i, source, name) && Migratable(w0, i, target, token, j) {
        ConcludedMoves(w0, i, target, token, j);
      }
      out := Complete(source, target, name, token, wasRunning, id, j, calm);
      EvolvesTransitive(w0, w1, w);
      FenceIsPermanent(w, w, (token, id));
    }

    // ---- Any history ----

    /** Any history: the source of a move that was not aborted is never live once anything
        was imported under it, and a landed move stays that way. */
    method Run(migrations: nat)
      requires Valid()
      modifies this
      ensures Valid() && Evolves(old(w), w)
      ensures forall j | j in w.receipts && w.receipts[j].token.Some? && (w.receipts[j].token.value, w.receipts[j].source) !in w.aborted ::
                !Live(w, w.receipts[j].source)
      ensures forall m | m in old(w).landed && m !in w.aborted :: !Live(w, m.1)
    {
      for k := 0 to migrations
        invariant Valid() && Evolves(old(w), w)
      {
        var source: HostID, target: HostID, name: Name, token: Token, j: InstanceID := *, *, *, *, *;
        Others();
        var out, id := Migrate(source, target, name, token, j, 0, false);
      }
      forall j | j in w.receipts && w.receipts[j].token.Some? && (w.receipts[j].token.value, w.receipts[j].source) !in w.aborted
        ensures !Live(w, w.receipts[j].source)
      {
        NeverBoth(w, j);
      }
      forall m | m in old(w).landed && m !in w.aborted
        ensures !Live(w, m.1)
      {
        FenceIsPermanent(old(w), w, m);
      }
    }
  }
}
