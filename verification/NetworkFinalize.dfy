/** The network helper: bound setups and cleanups, and the finalization of an incarnation's
    network, whose TAP device and address block are reused afterwards.  Every command holds
    the helper's one lock; commands may arrive long after they were sent. */
module NetworkFinalize {
  import opened Faults

  type InstanceID = nat
  type RequestID = nat
  type Interface = nat

  /** Each thing in the kernel is tied to one TAP device or one address block. */
  datatype Item = Tap(tap: nat) | Nat(cidr: nat, outbound: Interface) | ForwardIn(tap: nat) | ForwardOut(tap: nat)

  datatype Binding = Binding(tap: nat, cidr: nat)

  datatype Record = Record(request: RequestID, binding: Binding, outbound: Interface, done: bool)

  datatype Call =
    | Setup(id: InstanceID, binding: Binding, iface: Interface)
    | Cleanup(id: InstanceID, binding: Binding, outbound: Option<Interface>)
    | Finalize(id: InstanceID, binding: Binding, outbound: Option<Interface>, request: RequestID)

  /** `records` are the deletion records as the helper sees them, `durable` as a power loss
      would leave them.  `bindings` are the incarnations ever allocated, `released` those
      whose rows are tombstones; `calls` stay for ever, since they may come late. */
  datatype Net = Net(
    kernel: set<Item>, records: map<InstanceID, Record>, durable: map<InstanceID, Record>,
    bindings: map<InstanceID, Binding>, released: set<InstanceID>, calls: set<Call>)

  const EMPTY := Net({}, map[], map[], map[], {}, {})

  predicate Owns(b: Binding, it: Item) {
    if it.Nat? then it.cidr == b.cidr else it.tap == b.tap
  }

  predicate Alive(n: Net, i: InstanceID) {
    i in n.bindings && i !in n.released
  }

  /** Nothing of this binding is left. */
  predicate Absent(kernel: set<Item>, b: Binding) {
    forall it | it in kernel :: !Owns(b, it)
  }

  predicate Continues(a: Record, b: Record) {
    b.request == a.request && b.binding == a.binding && b.outbound == a.outbound && (a.done ==> b.done)
  }

  ghost predicate Sound(n: Net) {
    && (forall i, j | Alive(n, i) && Alive(n, j) && i != j :: n.bindings[i].tap != n.bindings[j].tap && n.bindings[i].cidr != n.bindings[j].cidr)
    && (forall c | c in n.calls :: c.id in n.bindings && c.binding == n.bindings[c.id])
    && (forall i | i in n.records :: i in n.bindings && n.records[i].binding == n.bindings[i])
    && (forall i | i in n.durable :: i in n.records && Continues(n.durable[i], n.records[i]))
    && (forall i | i in n.released :: i in n.bindings && i in n.durable && n.durable[i].done)
    && (forall i | i in n.records && n.records[i].done && i !in n.released :: Absent(n.kernel, n.bindings[i]))
    && (forall it | it in n.kernel :: exists i :: Alive(n, i) && Owns(n.bindings[i], it))
  }

  predicate OnlyThrough(n: Net, cidr: nat, outbound: Interface) {
    forall it | it in n.kernel && it.Nat? && it.cidr == cidr :: it.outbound == outbound
  }

  /** When a fault-free finalization succeeds. */
  predicate Finalizable(n: Net, c: Call)
    requires c.Finalize?
  {
    if c.id in n.records then
      && n.records[c.id].request == c.request && n.records[c.id].binding == c.binding
      && (n.records[c.id].done || OnlyThrough(n, c.binding.cidr, n.records[c.id].outbound))
    else c.outbound.Some? && OnlyThrough(n, c.binding.cidr, c.outbound.value)
  }

  /** The record names one interface, the addresses are still translated on another. */
  predicate Stuck(n: Net, id: InstanceID) {
    && id in n.records && !n.records[id].done
    && !OnlyThrough(n, n.records[id].binding.cidr, n.records[id].outbound)
  }

  predicate FailsIfStuck(n: Net, c: Call, out: Outcome) {
    c.Finalize? && Stuck(n, c.id) ==> !out.Ok?
  }

  ghost predicate StaysStuck(a: Net, b: Net) {
    forall id | Stuck(a, id) :: Stuck(b, id)
  }

  // ---- The main results ----

  const FIRST := Finalize(7, Binding(1, 2), Some(6), 9)

  /** A machine that was set up on interface 5, and its first finalization, which names
      interface 6, since the default route has changed. */
  function Rerouted(): Net {
    EMPTY.(kernel := {Nat(2, 5)}, bindings := map[7 := Binding(1, 2)], calls := {FIRST})
  }

  /** The same machine once that call has written its record. */
  function ReroutedAndRecorded(): Net {
    Rerouted().(records := map[7 := Record(9, Binding(1, 2), 6, false)])
  }

  lemma ReroutedSound()
    ensures Sound(Rerouted()) && Sound(ReroutedAndRecorded())
  {
    var a, b := Rerouted(), ReroutedAndRecorded();
    assert Alive(a, 7) && Owns(a.bindings[7], Nat(2, 5));
    assert Alive(b, 7) && Owns(b.bindings[7], Nat(2, 5));
  }

  /** The first call is not finalizable; and once its record is written no call is, whichever
      interface it names. */
  lemma FirstFinalizationCanStick()
    ensures Sound(Rerouted()) && FIRST in Rerouted().calls && Alive(Rerouted(), 7) && 7 !in Rerouted().records
    ensures !Finalizable(Rerouted(), FIRST)
    ensures Sound(ReroutedAndRecorded()) && Stuck(ReroutedAndRecorded(), 7)
    ensures forall hint :: !Finalizable(ReroutedAndRecorded(), Finalize(7, Binding(1, 2), hint, 9))
  {
    ReroutedSound();
    assert Nat(2, 5) in Rerouted().kernel && Nat(2, 5) in ReroutedAndRecorded().kernel;
  }

  /** As long as it is stuck no call for it is finalizable. */
  lemma StuckIsNotFinalizable(n: Net, c: Call)
    requires Sound(n) && c in n.calls && c.Finalize? && Stuck(n, c.id)
    ensures !Finalizable(n, c)
  {
  }

  /** Whatever is in the kernel belongs to exactly one incarnation, which is alive. */
  lemma OneOwner(n: Net, it: Item, i: InstanceID, j: InstanceID)
    requires Sound(n) && it in n.kernel && Alive(n, i) && Alive(n, j)
    ensures Owns(n.bindings[i], it) && Owns(n.bindings[j], it) ==> i == j
    ensures exists k :: Alive(n, k) && Owns(n.bindings[k], it)
  {
  }

  /** A call for an incarnation whose TAP and addresses may belong to another meets a
      finished deletion record, also after a power loss. */
  lemma LateCallsMeetTheRecord(n: Net, c: Call)
    requires Sound(n) && c in n.calls && (c.id in n.released || exists j :: Alive(n, j) && j != c.id && (n.bindings[j].tap == c.binding.tap || n.bindings[j].cidr == c.binding.cidr))
    ensures c.id in n.records && n.records[c.id].done && c.id in n.durable && n.durable[c.id].done
  {
  }

  /** Any unsynced record may be lost or kept; the kernel's network state is gone. */
  function AfterPowerLoss(n: Net, keep: set<InstanceID>): Net {
    var left := map i | i in n.records && (i in keep || i in n.durable) :: if i in keep then n.records[i] else n.durable[i];
    n.(kernel := {}, records := left, durable := left)
  }

  lemma PowerLossKeeps(n: Net, keep: set<InstanceID>)
    requires Sound(n)
    ensures forall i | i in n.durable :: i in AfterPowerLoss(n, keep).records && Continues(n.durable[i], AfterPowerLoss(n, keep).records[i])
    ensures forall i | i in n.released :: i in AfterPowerLoss(n, keep).records && AfterPowerLoss(n, keep).records[i].done
    ensures forall i | i in AfterPowerLoss(n, keep).records :: i in n.bindings && AfterPowerLoss(n, keep).records[i].binding == n.bindings[i]
  {
    forall i | i in n.durable
      ensures Continues(n.durable[i], n.records[i])
    {
    }
  }

  lemma EmptyKernelSound(n: Net, m: Net)
    requires Sound(n) && m == n.(kernel := {}, records := m.records, durable := m.records)
    requires forall i | i in m.records :: i in n.bindings && m.records[i].binding == n.bindings[i]
    requires forall i | i in n.released :: i in m.records && m.records[i].done
    ensures Sound(m)
  {
    assert forall i :: Alive(m, i) <==> Alive(n, i);
  }

  lemma PowerLossSound(n: Net, keep: set<InstanceID>)
    requires Sound(n)
    ensures Sound(AfterPowerLoss(n, keep))
    ensures forall i | i in n.durable :: i in AfterPowerLoss(n, keep).records && Continues(n.durable[i], AfterPowerLoss(n, keep).records[i])
  {
    PowerLossKeeps(n, keep);
    EmptyKernelSound(n, AfterPowerLoss(n, keep));
  }

  // ---- Steps on behalf of one incarnation ----

  /** A step of the helper on behalf of `id`: only its own things change, and nothing at all
      once its deletion is done. */
  ghost predicate Within(a: Net, b: Net, id: InstanceID) {
    && id in a.bindings
    && b == a.(kernel := b.kernel, records := b.records, durable := b.durable)
    && (forall it | (it in a.kernel) != (it in b.kernel) :: Owns(a.bindings[id], it))
    && (id in a.records && a.records[id].done ==> b.kernel == a.kernel)
    && (forall i | i in a.records :: i in b.records && Continues(a.records[i], b.records[i]))
    && (forall i | i in a.durable :: i in b.durable && Continues(a.durable[i], b.durable[i]))
    && (forall i | i in b.records && i !in a.records :: i == id)
    && (forall i | i in a.records && i != id :: b.records[i] == a.records[i])
  }

  /** No step for one incarnation touches what another one has now. */
  lemma OthersUntouched(a: Net, b: Net, id: InstanceID, j: InstanceID, it: Item)
    requires Sound(a) && Within(a, b, id) && Alive(a, j) && j != id && Owns(a.bindings[j], it)
    ensures it in a.kernel <==> it in b.kernel
  {
  }

  /** Only the kernel changed, and only in what `id` owns. */
  ghost predicate Touched(a: Net, b: Net, id: InstanceID) {
    && Alive(a, id) && b == a.(kernel := b.kernel)
    && (forall it | (it in a.kernel) != (it in b.kernel) :: Owns(a.bindings[id], it))
  }

  lemma TouchedWithin(a: Net, b: Net, id: InstanceID)
    requires Touched(a, b, id) && (id in a.records ==> !a.records[id].done)
    ensures Within(a, b, id)
  {
  }

  lemma WithinTransitive(a: Net, b: Net, c: Net, id: InstanceID)
    requires Within(a, b, id) && Within(b, c, id)
    ensures Within(a, c, id)
  {
  }

  lemma RecordedSound(n: Net, id: InstanceID, d: Record)
    requires Sound(n) && id in n.bindings && d.binding == n.bindings[id] && id !in n.released
    requires id in n.records ==> Continues(n.records[id], d)
    requires d.done ==> Absent(n.kernel, d.binding)
    ensures Sound(n.(records := n.records[id := d]))
  {
  }

  lemma RecordedWithin(n: Net, id: InstanceID, d: Record)
    requires Sound(n) && id in n.bindings && (id in n.records ==> Continues(n.records[id], d))
    ensures Within(n, n.(records := n.records[id := d]), id)
  {
  }

  lemma SyncedWithin(n: Net, id: InstanceID)
    requires Sound(n) && id in n.bindings
    ensures Within(n, n, id) && Within(n, n.(durable := n.records), id)
  {
  }

  lemma ChangeSound(n: Net, id: InstanceID, it: Item, add: bool)
    requires Sound(n) && Alive(n, id) && Owns(n.bindings[id], it)
    requires id in n.records ==> !n.records[id].done && !add
    ensures var m := n.(kernel := if add then n.kernel + {it} else n.kernel - {it}); Sound(m) && Touched(n, m, id)
  {
    var m := n.(kernel := if add then n.kernel + {it} else n.kernel - {it});
    forall x | x in m.kernel
      ensures exists i :: Alive(m, i) && Owns(m.bindings[i], x)
    {
      if x == it {
        assert Alive(m, id);
      } else {
        var i :| Alive(n, i) && Owns(n.bindings[i], x);
        assert Alive(m, i);
      }
    }
    forall i | i in m.records && m.records[i].done && i !in m.released
      ensures Absent(m.kernel, m.bindings[i])
    {
      assert Absent(n.kernel, n.bindings[i]) && Alive(n, i);
    }
  }

  lemma AllocatedSound(n: Net, id: InstanceID, b: Binding)
    requires Sound(n) && id !in n.bindings
    requires forall i | Alive(n, i) :: n.bindings[i].tap != b.tap && n.bindings[i].cidr != b.cidr
    ensures Sound(n.(bindings := n.bindings[id := b])) && Absent(n.kernel, b)
  {
    var m := n.(bindings := n.bindings[id := b]);
    forall it | it in m.kernel
      ensures exists i :: Alive(m, i) && Owns(m.bindings[i], it)
      ensures !Owns(b, it)
    {
      var i :| Alive(n, i) && Owns(n.bindings[i], it);
      assert Alive(m, i);
    }
  }

  lemma ReleasedSound(n: Net, id: InstanceID)
    requires Sound(n) && Alive(n, id) && id in n.durable && n.durable[id].done && Absent(n.kernel, n.bindings[id])
    ensures Sound(n.(released := n.released + {id}))
  {
  }

  lemma ReleasedUntouched(a: Net, b: Net, id: InstanceID)
    requires Sound(a) && Within(a, b, id)
    ensures id in a.released ==> b.kernel == a.kernel
    ensures forall j, it | Alive(b, j) && j != id && Owns(b.bindings[j], it) :: it in b.kernel <==> it in a.kernel
  {
  }

  lemma StuckUntouched(a: Net, b: Net, id: InstanceID, j: InstanceID)
    requires Sound(a) && Within(a, b, id) && Stuck(a, j) && j != id
    ensures Stuck(b, j)
  {
    var it :| it in a.kernel && it.Nat? && it.cidr == a.records[j].binding.cidr && it.outbound != a.records[j].outbound;
    assert Alive(a, j) && Owns(a.bindings[j], it);
    OthersUntouched(a, b, id, j, it);
  }

  /** What a successful call leaves behind. */
  ghost predicate Effective(n: Net, c: Call) {
    match c
    case Setup(_, b, iface) => {Tap(b.tap), Nat(b.cidr, iface), ForwardIn(b.tap), ForwardOut(b.tap)} <= n.kernel
    case Cleanup(_, b, outbound) => forall it | it in n.kernel && Owns(b, it) :: it.Nat? && Some(it.outbound) != outbound
    case Finalize(id, b, _, request) =>
      id in n.durable && n.durable[id].done && n.durable[id].request == request && (id !in n.released ==> Absent(n.kernel, b))
  }

  // ---- The helper ----

  class Server {
    var n: Net

    ghost predicate Valid()
      reads this
    {
      Sound(n)
    }

    constructor ()
      ensures Valid() && n == EMPTY
    {
      n := EMPTY;
    }

    /** One kernel command that adds or removes one thing. */
    method Change(calm: bool, ghost id: InstanceID, it: Item, add: bool) returns (out: Outcome)
      requires Valid() && Alive(n, id) && Owns(n.bindings[id], it)
      requires id in n.records ==> !n.records[id].done && !add
      modifies this
      ensures Valid() && Touched(old(n), n, id)
      ensures n.kernel == old(n).kernel || n.kernel == if add then old(n).kernel + {it} else old(n).kernel - {it}
      ensures out.Ok? ==> (it in n.kernel <==> add)
      ensures calm ==> out.Ok?
    {
      var f := Choose(calm);
      if f.Applied() {
        ChangeSound(n, id, it, add);
        n := n.(kernel := if add then n.kernel + {it} else n.kernel - {it});
      }
      return f.Reply();
    }

    method CheckDeletion(id: InstanceID) returns (out: Outcome)
      ensures out.Ok? <==> id !in n.records
      ensures !out.Crash?
    {
      return if id in n.records then Err else Ok;
    }

    /** Stops at the first failure. */
    method AddAll(calm: bool, ghost id: InstanceID, items: seq<Item>) returns (out: Outcome)
      requires Valid() && Alive(n, id) && id !in n.records && forall it | it in items :: Owns(n.bindings[id], it)
      modifies this
      ensures Valid() && Touched(old(n), n, id) && old(n).kernel <= n.kernel
      ensures out.Ok? ==> forall it | it in items :: it in n.kernel
      ensures calm ==> out.Ok?
    {
      for k := 0 to |items|
        invariant Valid() && Touched(old(n), n, id) && old(n).kernel <= n.kernel
        invariant forall m | 0 <= m < k :: items[m] in n.kernel
      {
        :- Change(calm, id, items[k], true);
      }
      return Ok;
    }

    /** A bound setup takes effect only before any deletion intent. */
    method SetupNetwork(calm: bool, c: Call) returns (out: Outcome)
      requires Valid() && c in n.calls && c.Setup?
      modifies this
      ensures Valid() && Within(old(n), n, c.id)
      ensures c.id in old(n).records ==> out == Err && n == old(n)
      ensures old(n).kernel <= n.kernel && n.records == old(n).records && n.durable == old(n).durable
      ensures out.Ok? ==> {Tap(c.binding.tap), Nat(c.binding.cidr, c.iface), ForwardIn(c.binding.tap), ForwardOut(c.binding.tap)} <= n.kernel
      ensures calm ==> (out.Ok? <==> c.id !in old(n).records && Tap(c.binding.tap) !in old(n).kernel)
    {
      out := Ok;
      :- CheckDeletion(c.id);
      assert Alive(n, c.id);
      if Tap(c.binding.tap) in n.kernel {
        return Err;
      }
      out := AddAll(calm, c.id, [Tap(c.binding.tap), Nat(c.binding.cidr, c.iface), ForwardIn(c.binding.tap), ForwardOut(c.binding.tap)]);
      TouchedWithin(old(n), n, c.id);
    }

    /** Tries every removal, whatever happened to the ones before. */
    method RemoveAll(calm: bool, ghost id: InstanceID, items: seq<Item>) returns (out: Outcome)
      requires Valid() && Alive(n, id) && (id in n.records ==> !n.records[id].done)
      requires forall it | it in items :: Owns(n.bindings[id], it)
      modifies this
      ensures Valid() && Touched(old(n), n, id) && n.kernel <= old(n).kernel
      ensures out.Ok? ==> forall it | it in items :: it !in n.kernel
      ensures forall it | it in old(n).kernel && it !in items :: it in n.kernel
      ensures calm ==> out.Ok?
    {
      var failed := false;
      for k := 0 to |items|
        invariant Valid() && Touched(old(n), n, id) && n.kernel <= old(n).kernel
        invariant !failed ==> forall m | 0 <= m < k :: items[m] !in n.kernel
        invariant forall it | it in old(n).kernel && it !in items :: it in n.kernel
        invariant calm ==> !failed
      {
        var one := Change(calm, id, items[k], false);
        if one.Crash? {
          return Crash;
        }
        failed := failed || one.Err?;
      }
      return if failed then Err else Ok;
    }

    /** The rule for an interface is removed only when the caller names the interface. */
    method RemoveNetwork(calm: bool, id: InstanceID, b: Binding, outbound: Option<Interface>) returns (out: Outcome)
      requires Valid() && Alive(n, id) && n.bindings[id] == b && (id in n.records ==> !n.records[id].done)
      modifies this
      ensures Valid() && Touched(old(n), n, id) && n.kernel <= old(n).kernel
      ensures out.Ok? ==> forall it | it in n.kernel && Owns(b, it) :: it.Nat? && Some(it.outbound) != outbound
      ensures forall it | it in old(n).kernel && !(Owns(b, it) && (it.Nat? ==> Some(it.outbound) == outbound)) :: it in n.kernel
      ensures calm ==> out.Ok?
    {
      var rules := if outbound.Some? then [Nat(b.cidr, outbound.value)] else [];
      var items := rules + [ForwardIn(b.tap), ForwardOut(b.tap), Tap(b.tap)];
      out := RemoveAll(calm, id, items);
      assert ForwardIn(b.tap) in items && ForwardOut(b.tap) in items && Tap(b.tap) in items;
      assert outbound.Some? ==> Nat(b.cidr, outbound.value) in items;
    }

    method CleanupNetwork(calm: bool, c: Call) returns (out: Outcome)
      requires Valid() && c in n.calls && c.Cleanup?
      modifies this
      ensures Valid() && Within(old(n), n, c.id)
      ensures c.id in old(n).records ==> out == Err && n == old(n)
      ensures n.records == old(n).records && n.durable == old(n).durable && n.kernel <= old(n).kernel
      ensures out.Ok? ==> forall it | it in n.kernel && Owns(c.binding, it) :: it.Nat? && Some(it.outbound) != c.outbound
      ensures forall it | it in old(n).kernel && !(Owns(c.binding, it) && (it.Nat? ==> Some(it.outbound) == c.outbound)) :: it in n.kernel
      ensures calm ==> (out.Ok? <==> c.id !in old(n).records)
    {
      out := Ok;
      :- CheckDeletion(c.id);
      assert Alive(n, c.id);
      out := RemoveNetwork(calm, c.id, c.binding, c.outbound);
      TouchedWithin(old(n), n, c.id);
    }

    method SyncRecords(calm: bool) returns (out: Outcome)
      requires Valid()
      modifies this
      ensures Valid() && (n == old(n) || n == old(n).(durable := n.records))
      ensures out.Ok? ==> n.durable == n.records
      ensures calm ==> out.Ok?
    {
      var f := Choose(calm);
      if f.Applied() {
        n := n.(durable := n.records);
      }
      return f.Reply();
    }

    /** A rename, then a sync of the directory: visible first, durable later. */
    method WriteDeletion(calm: bool, id: InstanceID, d: Record) returns (out: Outcome)
      requires Valid() && id in n.bindings && d.binding == n.bindings[id] && id !in n.released
      requires id in n.records ==> Continues(n.records[id], d)
      requires d.done ==> Absent(n.kernel, d.binding)
      modifies this
      ensures Valid() && Within(old(n), n, id) && n.kernel == old(n).kernel
      ensures n.records == old(n).records || n.records == old(n).records[id := d]
      ensures out.Ok? ==> n.records == old(n).records[id := d] && n.durable == n.records
      ensures calm ==> out.Ok?
    {
      RecordedSound(n, id, d);
      RecordedWithin(n, id, d);
      SyncedWithin(n, id);
      var f := Choose(calm);
      if f.Applied() {
        n := n.(records := n.records[id := d]);
        SyncedWithin(n, id);
      }
      if f != Clean {
        return f.Reply();
      }
      ghost var visible := n;
      out := SyncRecords(calm);
      WithinTransitive(old(n), visible, n, id);
    }

    /** Removal, the proof of absence, and the mark that ends all removal. */
    method Erase(calm: bool, c: Call, outbound: Interface) returns (out: Outcome)
      requires Valid() && c in n.calls && c.Finalize? && Alive(n, c.id)
      requires c.id in n.records && n.records[c.id] == Record(c.request, c.binding, outbound, false) && n.durable == n.records
      modifies this
      ensures Valid() && Within(old(n), n, c.id) && n.kernel <= old(n).kernel
      ensures out.Ok? ==> c.id in n.durable && n.durable[c.id] == Record(c.request, c.binding, outbound, true) && Absent(n.kernel, c.binding)
      ensures calm ==> (out.Ok? <==> OnlyThrough(old(n), c.binding.cidr, outbound))
      ensures !OnlyThrough(old(n), c.binding.cidr, outbound) ==>
                !out.Ok? && n.records == old(n).records && !OnlyThrough(n, c.binding.cidr, outbound)
    {
      out := RemoveNetwork(calm, c.id, c.binding, Some(outbound));
      TouchedWithin(old(n), n, c.id);
      if !out.Ok? {
        return;
      }
      ghost var removed := n;
      if it: Item :| it in n.kernel && Owns(c.binding, it) {
        return Err;
      }
      out := WriteDeletion(calm, c.id, n.records[c.id].(done := true));
      WithinTransitive(old(n), removed, n, c.id);
    }

    /** The part behind the intent. */
    method Destroy(calm: bool, c: Call, outbound: Interface) returns (out: Outcome)
      requires Valid() && c in n.calls && c.Finalize? && Alive(n, c.id)
      requires c.id in n.records ==> n.records[c.id] == Record(c.request, c.binding, outbound, false)
      modifies this
      ensures Valid() && Within(old(n), n, c.id) && n.kernel <= old(n).kernel
      ensures n.kernel != old(n).kernel ==> c.id in n.durable
      ensures c.id in n.records ==> Continues(Record(c.request, c.binding, outbound, false), n.records[c.id])
      ensures out.Ok? ==> c.id in n.durable && n.durable[c.id] == Record(c.request, c.binding, outbound, true) && Absent(n.kernel, c.binding)
      ensures calm ==> (out.Ok? <==> OnlyThrough(old(n), c.binding.cidr, outbound)) && c.id in n.records
      ensures !OnlyThrough(old(n), c.binding.cidr, outbound) ==>
                !out.Ok? && (c.id in n.records ==> Stuck(n, c.id) && n.records[c.id].outbound == outbound)
    {
      var d := Record(c.request, c.binding, outbound, false);
      :- WriteDeletion(calm, c.id, d);
      ghost var intended := n;
      out := Erase(calm, c, outbound);
      WithinTransitive(old(n), intended, n, c.id);
    }

    /** Finalization: the first attempt fixes the request, the binding and the interface; the
        record is durable before anything is destroyed; success is durable and proves that
        nothing is left.  Without faults it fails only when the addresses are still
        used by a rule for another interface than the recorded one. */
    method FinalizeNetwork(calm: bool, c: Call) returns (out: Outcome)
      requires Valid() && c in n.calls && c.Finalize?
      modifies this
      ensures Valid() && Within(old(n), n, c.id) && n.kernel <= old(n).kernel
      ensures n.kernel != old(n).kernel ==> c.id in n.durable && n.durable[c.id].request == c.request
      ensures c.id in n.records ==> n.records[c.id].request == c.request || n == old(n)
      ensures out.Ok? ==> c.id in n.durable && n.durable[c.id].done && n.durable[c.id].request == c.request
      ensures out.Ok? && c.id !in n.released ==> Absent(n.kernel, c.binding)
      ensures calm ==> (out.Ok? <==> Finalizable(old(n), c))
      ensures Stuck(old(n), c.id) ==> !out.Ok? && Stuck(n, c.id)
      ensures c.id !in old(n).records && c.outbound.Some? && !OnlyThrough(old(n), c.binding.cidr, c.outbound.value) ==>
                !out.Ok? && (calm || c.id in n.records ==> Stuck(n, c.id))
    {
      var outbound := c.outbound;
      if c.id in n.records {
        var d := n.records[c.id];
        outbound := Some(d.outbound);
        if d.request != c.request || d.binding != c.binding {
          return Err;
        }
        if d.done {
          out := SyncRecords(calm);
          return;
        }
      }
      if outbound.None? {
        return Err;
      }
      assert c.id !in n.released;
      out := Destroy(calm, c, outbound.value);
    }

    // ---- The provisioner, and any history ----

    /** A new incarnation takes a name's TAP device and a block that no row uses. */
    method Allocate(id: InstanceID, b: Binding) returns (out: Outcome)
      requires Valid() && id !in n.bindings
      modifies this
      ensures Valid()
      ensures out.Ok? <==> forall i | Alive(old(n), i) :: old(n).bindings[i].tap != b.tap && old(n).bindings[i].cidr != b.cidr
      ensures n == if out.Ok? then old(n).(bindings := old(n).bindings[id := b]) else old(n)
      ensures out.Ok? ==> Absent(n.kernel, b)
    {
      if i: InstanceID :| i in n.bindings && i !in n.released && (n.bindings[i].tap == b.tap || n.bindings[i].cidr == b.cidr) {
        return Err;
      }
      AllocatedSound(n, id, b);
      n := n.(bindings := n.bindings[id := b]);
      return Ok;
    }

    /** The service sends only what its own row says. */
    method Send(c: Call)
      requires Valid() && Alive(n, c.id) && c.binding == n.bindings[c.id]
      modifies this
      ensures Valid() && n == old(n).(calls := old(n).calls + {c})
    {
      n := n.(calls := n.calls + {c});
    }

    /** The tombstone is written only over an acknowledged finalization. */
    method Delete(calm: bool, id: InstanceID, request: RequestID, outbound: Option<Interface>) returns (out: Outcome)
      requires Valid() && Alive(n, id)
      modifies this
      ensures Valid() && n.bindings == old(n).bindings
      ensures forall i | i in old(n).durable :: i in n.durable && Continues(old(n).durable[i], n.durable[i])
      ensures out.Ok? <==> id in n.released
      ensures out.Ok? ==> n.released == old(n).released + {id} && Absent(n.kernel, n.bindings[id])
      ensures !out.Ok? ==> n.released == old(n).released
      ensures calm ==> (out.Ok? <==> Finalizable(old(n), Finalize(id, old(n).bindings[id], outbound, request)))
    {
      var c := Finalize(id, n.bindings[id], outbound, request);
      Send(c);
      :- FinalizeNetwork(calm, c);
      ReleasedSound(n, id);
      n := n.(released := n.released + {id});
      return Ok;
    }

    /** Any call ever sent may arrive now. */
    method Deliver(calm: bool, c: Call) returns (out: Outcome)
      requires Valid() && c in n.calls
      modifies this
      ensures Valid() && Within(old(n), n, c.id)
      ensures c.id in old(n).released ==> n.kernel == old(n).kernel
      ensures c.id in old(n).records && !c.Finalize? ==> n == old(n)
      ensures forall j, it | Alive(n, j) && j != c.id && Owns(n.bindings[j], it) :: it in n.kernel <==> it in old(n).kernel
      ensures StaysStuck(old(n), n)
      ensures c.Finalize? && Stuck(old(n), c.id) ==> !out.Ok?
      ensures out.Ok? ==> Effective(n, c)
      ensures calm ==> (out.Ok? <==> match c
                                     case Setup(_, _, _) => c.id !in old(n).records && Tap(c.binding.tap) !in old(n).kernel
                                     case Cleanup(_, _, _) => c.id !in old(n).records
                                     case Finalize(_, _, _, _) => Finalizable(old(n), c))
    {
      match c
      case Setup(_, _, _) => out := SetupNetwork(calm, c);
      case Cleanup(_, _, _) => out := CleanupNetwork(calm, c);
      case Finalize(_, _, _, _) => out := FinalizeNetwork(calm, c);
      ReleasedUntouched(old(n), n, c.id);
      forall id | Stuck(old(n), id) && id != c.id
        ensures Stuck(n, id)
      {
        StuckUntouched(old(n), n, c.id, id);
      }
    }

    method DeliverNext(c: Call) returns (out: Outcome)
      requires Valid() && c in n.calls
      modifies this
      ensures Valid() && n.calls == old(n).calls && StaysStuck(old(n), n)
      ensures FailsIfStuck(old(n), c, out)
    {
      out := Deliver(false, c);
    }

    /** Any number of calls, in any order: what is stuck stays stuck, and every finalization
        of it fails. */
    method DeliverAll(calls: seq<Call>) returns (replies: seq<Outcome>)
      requires Valid() && forall c | c in calls :: c in n.calls
      modifies this
      ensures Valid() && |replies| == |calls|
      ensures StaysStuck(old(n), n)
      ensures forall k | 0 <= k < |calls| :: FailsIfStuck(old(n), calls[k], replies[k])
    {
      replies := [];
      for k := 0 to |calls|
        invariant Valid() && |replies| == k && n.calls == old(n).calls
        invariant StaysStuck(old(n), n)
        invariant forall m | 0 <= m < k :: FailsIfStuck(old(n), calls[m], replies[m])
      {
        var out := DeliverNext(calls[k]);
        replies := replies + [out];
      }
    }

    method PowerLoss(keep: set<InstanceID>)
      requires Valid()
      modifies this
      ensures Valid() && n == AfterPowerLoss(old(n), keep)
      ensures forall i | i in old(n).durable :: i in n.durable && Continues(old(n).durable[i], n.durable[i])
    {
      PowerLossSound(n, keep);
      n := AfterPowerLoss(n, keep);
    }

    method Step()
      requires Valid()
      modifies this
      ensures Valid() && old(n).released <= n.released
      ensures forall i | i in old(n).durable :: i in n.durable && Continues(old(n).durable[i], n.durable[i])
      ensures forall i | i in old(n).bindings :: i in n.bindings && n.bindings[i] == old(n).bindings[i]
    {
      var id: InstanceID, b: Binding, c: Call, request: RequestID, outbound: Option<Interface>, keep: set<InstanceID> := *, *, *, *, *, *;
      var out := Ok;
      if {
      case id !in n.bindings => out := Allocate(id, b);
      case Alive(n, c.id) && c.binding == n.bindings[c.id] => Send(c);
      case c in n.calls => out := Deliver(false, c);
      case Alive(n, id) => out := Delete(false, id, request, outbound);
      case true => PowerLoss(keep);
      }
    }

    /** Any allocations, calls, deliveries, deletions and power losses.  A record that was
        durable once is there ever after with the same request, binding and interface. */
    method Run(steps: nat)
      requires Valid()
      modifies this
      ensures Valid()
      ensures forall i | i in old(n).durable :: i in n.records && Continues(old(n).durable[i], n.records[i])
      ensures old(n).released <= n.released
      ensures forall i | i in old(n).bindings :: i in n.bindings && n.bindings[i] == old(n).bindings[i]
    {
      for k := 0 to steps
        invariant Valid()
        invariant forall i | i in old(n).durable :: i in n.durable && Continues(old(n).durable[i], n.durable[i])
        invariant old(n).released <= n.released
        invariant forall i | i in old(n).bindings :: i in n.bindings && n.bindings[i] == old(n).bindings[i]
      {
        Step();
      }
    }
  }
}
