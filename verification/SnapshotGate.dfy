/** The command gate: commands hold leases, and one lease may be promoted to a snapshot that
    waits for all other commands to end.  Every method body is one critical section, except
    that waiting gives up the mutex. */
module SnapshotGate {
  import opened Faults

  type LeaseID = nat

  /** `promoting` is the time its owner spends inside the promotion, waiting. */
  datatype Lease = Lease(snapshot: bool, released: bool, promoting: bool)

  const NEW := Lease(false, false, false)

  datatype Gate = Gate(snapshotOn: bool, inFlight: int, leases: map<LeaseID, Lease>)

  const IDLE := Gate(false, 0, map[])

  /** A command in flight: unreleased, neither promoted nor promoting. */
  predicate Counts(l: Lease) {
    !l.released && !l.snapshot && !l.promoting
  }

  predicate Holds(l: Lease) {
    l.promoting || (l.snapshot && !l.released)
  }

  function InFlight(leases: map<LeaseID, Lease>): set<LeaseID> {
    set i | i in leases && Counts(leases[i])
  }

  predicate Sound(g: Gate) {
    && g.inFlight == |InFlight(g.leases)|
    && (g.snapshotOn <==> exists i :: i in g.leases && Holds(g.leases[i]))
    && (forall i, j | i in g.leases && j in g.leases && Holds(g.leases[i]) && Holds(g.leases[j]) :: i == j)
    && (forall i | i in g.leases && g.leases[i].promoting :: !g.leases[i].released && !g.leases[i].snapshot)
    && (forall i | i in g.leases && g.leases[i].snapshot && !g.leases[i].released :: InFlight(g.leases) == {})
  }

  /** A held snapshot is alone: no command in flight, no other snapshot or promotion. */
  lemma SnapshotIsAlone(g: Gate, i: LeaseID)
    requires Sound(g) && i in g.leases && g.leases[i].snapshot && !g.leases[i].released
    ensures g.snapshotOn && g.inFlight == 0
    ensures forall j | j in g.leases && j != i :: g.leases[j].released
  {
    assert Holds(g.leases[i]);
    forall j | j in g.leases && j != i
      ensures g.leases[j].released
    {
      assert !Holds(g.leases[j]);
      assert !g.leases[j].released ==> j in InFlight(g.leases);
    }
  }

  /** Changing one lease changes the count by that lease alone. */
  lemma CountOne(leases: map<LeaseID, Lease>, i: LeaseID, l: Lease)
    ensures |InFlight(leases[i := l])| == |InFlight(leases)| + (if Counts(l) then 1 else 0) - (if i in leases && Counts(leases[i]) then 1 else 0)
    ensures InFlight(leases[i := l]) == if Counts(l) then InFlight(leases) + {i} else InFlight(leases) - {i}
  {
    var a, b := InFlight(leases), InFlight(leases[i := l]);
    if Counts(l) {
      assert b == a + {i};
    } else {
      assert b == a - {i};
    }
  }

  /** Release, as the code does it: it does not look whether a promotion is under way. */
  function Released(g: Gate, i: LeaseID): Gate
    requires i in g.leases
  {
    var l := g.leases[i];
    if l.released then g
    else if l.snapshot then Gate(false, g.inFlight, g.leases[i := l.(released := true)])
    else Gate(g.snapshotOn, g.inFlight - 1, g.leases[i := l.(released := true)])
  }

  /** Releasing keeps the gate sound exactly when no promotion of that lease is waiting, and
      releasing twice changes nothing. */
  lemma ReleaseIsSoundIff(g: Gate, i: LeaseID)
    requires Sound(g) && i in g.leases
    ensures Sound(Released(g, i)) <==> !g.leases[i].promoting
    ensures Released(Released(g, i), i) == Released(g, i)
    ensures !g.leases[i].promoting ==> !Holds(Released(g, i).leases[i]) && !Counts(Released(g, i).leases[i])
  {
    var l := g.leases[i];
    var n := Released(g, i);
    CountOne(g.leases, i, l.(released := true));
    if !l.promoting && !l.released {
      if l.snapshot {
        assert Holds(l);
        assert forall j | j in n.leases :: !Holds(n.leases[j]);
      } else {
        assert forall j | j in g.leases :: Holds(n.leases[j]) <==> Holds(g.leases[j]);
        if g.snapshotOn {
          var k :| k in g.leases && Holds(g.leases[k]);
          assert Holds(n.leases[k]);
        }
      }
    }
  }

  /** The barrier is on and no lease is left that could lift it. */
  predicate Stuck(g: Gate) {
    g.snapshotOn && forall k | k in g.leases :: g.leases[k].snapshot ==> g.leases[k].released
  }

  /** The broken state cannot be left: once the waiting promotion completes, the barrier is
      on for ever, whichever leases are released, in whatever order. */
  lemma ReleasedWhilePromoting(g: Gate, i: LeaseID)
    requires Sound(g) && i in g.leases && g.leases[i].promoting
    ensures var n := Released(g, i);
            && n.snapshotOn && n.inFlight == |InFlight(n.leases)| - 1
            && Stuck(n.(leases := n.leases[i := n.leases[i].(snapshot := true, promoting := false)]))
    ensures forall stuck: Gate, k | Stuck(stuck) && k in stuck.leases :: Stuck(Released(stuck, k))
  {
    CountOne(g.leases, i, g.leases[i].(released := true));
    assert Holds(g.leases[i]);
    assert forall k | k in g.leases && k != i :: !Holds(g.leases[k]);
  }

  /** The same leases, and those that ended stay as they were. */
  ghost predicate KeepsEnded(a: Gate, b: Gate) {
    a.leases.Keys == b.leases.Keys && forall j | j in a.leases && a.leases[j].released :: b.leases[j] == a.leases[j]
  }

  lemma KeepsTransitive(a: Gate, b: Gate, c: Gate)
    requires KeepsEnded(a, b) && KeepsEnded(b, c)
    ensures KeepsEnded(a, c)
  {
  }

  datatype Promotion = Promoted | AlreadyReleased | SnapshotInProgress | Cancelled

  lemma PromotingSound(g: Gate, i: LeaseID)
    requires Sound(g) && i in g.leases && Counts(g.leases[i]) && !g.snapshotOn
    ensures var n := Gate(true, g.inFlight - 1, g.leases[i := g.leases[i].(promoting := true)]);
            Sound(n) && InFlight(n.leases) == InFlight(g.leases) - {i}
  {
    var n := Gate(true, g.inFlight - 1, g.leases[i := g.leases[i].(promoting := true)]);
    CountOne(g.leases, i, g.leases[i].(promoting := true));
    assert Holds(n.leases[i]);
  }

  lemma CancelledSound(g: Gate, i: LeaseID)
    requires Sound(g) && i in g.leases && g.leases[i].promoting
    ensures Sound(Gate(false, g.inFlight + 1, g.leases[i := NEW])) && InFlight(g.leases[i := NEW]) == InFlight(g.leases) + {i}
  {
    CountOne(g.leases, i, NEW);
    assert Holds(g.leases[i]);
  }

  lemma PromotedSound(g: Gate, i: LeaseID)
    requires Sound(g) && i in g.leases && g.leases[i].promoting && g.inFlight <= 0
    ensures Sound(g.(leases := g.leases[i := NEW.(snapshot := true)]))
  {
    var n := g.(leases := g.leases[i := NEW.(snapshot := true)]);
    CountOne(g.leases, i, NEW.(snapshot := true));
    assert Holds(g.leases[i]) && Holds(n.leases[i]);
  }

  function Among(ids: seq<LeaseID>): set<LeaseID> {
    set j | j in ids
  }

  lemma AmongGrows(ids: seq<LeaseID>, k: nat)
    requires k < |ids|
    ensures Among(ids[..k + 1]) == Among(ids[..k]) + {ids[k]}
  {
    assert ids[..k + 1] == ids[..k] + [ids[k]];
  }

  /** The commands that end in these wakeups. */
  function Ended(wakeups: seq<seq<LeaseID>>): set<LeaseID> {
    if wakeups == [] then {} else Ended(wakeups[..|wakeups| - 1]) + Among(wakeups[|wakeups| - 1])
  }

  lemma EndedStep(wakeups: seq<seq<LeaseID>>, k: nat)
    requires k < |wakeups|
    ensures Ended(wakeups[..k + 1]) == Ended(wakeups[..k]) + Among(wakeups[k])
  {
    assert wakeups[..k + 1][..k] == wakeups[..k];
  }

  lemma MinusTwice(s: set<LeaseID>, a: set<LeaseID>, b: set<LeaseID>)
    ensures s - a - b == s - (a + b)
  {
  }

  lemma {:induction false} EndedGrows(wakeups: seq<seq<LeaseID>>, k: nat)
    requires k <= |wakeups|
    ensures Ended(wakeups[..k]) <= Ended(wakeups)
  {
    if k == |wakeups| {
      assert wakeups[..k] == wakeups;
    } else {
      EndedGrows(wakeups[..|wakeups| - 1], k);
      assert wakeups[..|wakeups| - 1][..k] == wakeups[..k];
    }
  }

  /** Something is left in flight exactly when not everything has ended. */
  lemma LeftOver(g: Gate, flying: set<LeaseID>, ended: set<LeaseID>)
    requires Sound(g) && InFlight(g.leases) == flying - ended
    ensures g.inFlight > 0 <==> !(flying <= ended)
  {
    if flying <= ended {
      assert flying - ended == {};
    } else {
      var i :| i in flying && i !in ended;
      assert i in InFlight(g.leases);
    }
  }

  class App {
    var g: Gate

    ghost predicate Valid()
      reads this
    {
      Sound(g)
    }

    constructor ()
      ensures Valid() && g == IDLE
    {
      g := IDLE;
    }

    method BeginCommand(i: LeaseID) returns (lease: Option<LeaseID>)
      requires Valid() && i !in g.leases
      modifies this
      ensures Valid()
      ensures old(g).snapshotOn ==> lease.None? && g == old(g)
      ensures !old(g).snapshotOn ==> lease == Some(i) && g == Gate(false, old(g).inFlight + 1, old(g).leases[i := NEW])
    {
      if g.snapshotOn {
        return None;
      }
      CountOne(g.leases, i, NEW);
      assert forall j | j in g.leases :: !Holds(g.leases[j]);
      g := Gate(false, g.inFlight + 1, g.leases[i := NEW]);
      return Some(i);
    }

    method Release(i: LeaseID)
      requires Valid() && i in g.leases && !g.leases[i].promoting
      modifies this
      ensures Valid() && g == Released(old(g), i)
    {
      ReleaseIsSoundIff(g, i);
      var l := g.leases[i];
      if l.released {
        return;
      }
      g := g.(leases := g.leases[i := l.(released := true)]);
      if l.snapshot {
        g := g.(snapshotOn := false);
        return;
      }
      g := g.(inFlight := g.inFlight - 1);
    }

    /** While a promotion waits, a command ends, or a new one is refused. */
    method EndOne(i: LeaseID, j: LeaseID)
      requires Valid() && i in g.leases && g.leases[i].promoting
      modifies this
      ensures Valid() && KeepsEnded(old(g), g) && g.leases[i] == old(g).leases[i]
      ensures InFlight(g.leases) == InFlight(old(g).leases) - {j}
    {
      assert Holds(g.leases[i]);
      if j in g.leases && j != i {
        assert !Holds(g.leases[j]);
        CountOne(g.leases, j, g.leases[j].(released := true));
        Release(j);
      } else if j !in g.leases {
        var refused := BeginCommand(j);
      }
    }

    method Wait(i: LeaseID, others: seq<LeaseID>)
      requires Valid() && i in g.leases && g.leases[i].promoting
      modifies this
      ensures Valid() && KeepsEnded(old(g), g) && g.leases[i] == old(g).leases[i]
      ensures InFlight(g.leases) == InFlight(old(g).leases) - Among(others)
    {
      ghost var start, flying := g, InFlight(g.leases);
      for k := 0 to |others|
        invariant Valid() && KeepsEnded(start, g) && g.leases[i] == start.leases[i]
        invariant InFlight(g.leases) == flying - Among(others[..k])
      {
        ghost var was := g;
        EndOne(i, others[k]);
        KeepsTransitive(start, was, g);
        AmongGrows(others, k);
        MinusTwice(flying, Among(others[..k]), {others[k]});
      }
      assert others[..|others|] == others;
    }

    /** The loop of a promotion: it ends when no command is in flight, or when it has been
        woken for the last time. */
    method WaitForAll(i: LeaseID, wakeups: seq<seq<LeaseID>>)
      requires Valid() && i in g.leases && g.leases[i] == NEW.(promoting := true)
      modifies this
      ensures Valid() && KeepsEnded(old(g), g) && g.leases[i] == old(g).leases[i]
      ensures g.inFlight > 0 <==> !(InFlight(old(g).leases) <= Ended(wakeups))
      ensures g.inFlight > 0 ==> InFlight(g.leases) == InFlight(old(g).leases) - Ended(wakeups)
    {
      ghost var start, flying := g, InFlight(g.leases);
      var k := 0;
      assert flying - Ended(wakeups[..0]) == flying;
      while g.inFlight > 0 && k < |wakeups|
        invariant 0 <= k <= |wakeups|
        invariant Valid() && KeepsEnded(start, g) && g.leases[i] == start.leases[i]
        invariant InFlight(g.leases) == flying - Ended(wakeups[..k])
      {
        ghost var was := g;
        Wait(i, wakeups[k]);
        KeepsTransitive(start, was, g);
        EndedStep(wakeups, k);
        MinusTwice(flying, Ended(wakeups[..k]), Among(wakeups[k]));
        k := k + 1;
      }
      EndedGrows(wakeups, k);
      LeftOver(g, flying, Ended(wakeups[..k]));
      assert wakeups[..|wakeups|] == wakeups;
    }

    /** The caller's context ended first: the lease is a command's again. */
    method Withdraw(i: LeaseID)
      requires Valid() && i in g.leases && g.leases[i] == NEW.(promoting := true)
      modifies this
      ensures Valid() && KeepsEnded(old(g), g) && !g.snapshotOn && g.leases[i] == NEW
      ensures InFlight(g.leases) == InFlight(old(g).leases) + {i}
    {
      CancelledSound(g, i);
      g := Gate(false, g.inFlight + 1, g.leases[i := NEW]);
    }

    /** No command is left. */
    method TakeOver(i: LeaseID)
      requires Valid() && i in g.leases && g.leases[i] == NEW.(promoting := true) && g.inFlight <= 0
      modifies this
      ensures Valid() && KeepsEnded(old(g), g)
      ensures g.snapshotOn && g.inFlight == 0 && g.leases[i] == NEW.(snapshot := true)
    {
      PromotedSound(g, i);
      g := g.(leases := g.leases[i := NEW.(snapshot := true)]);
    }

    /** `wakeups` are the commands that end, or try to begin, before each time the loop looks
        again, as long as the caller's context lasts. */
    method AwaitCommands(i: LeaseID, wakeups: seq<seq<LeaseID>>) returns (out: Promotion)
      requires Valid() && i in g.leases && g.leases[i] == NEW.(promoting := true)
      modifies this
      ensures Valid() && KeepsEnded(old(g), g)
      ensures out == if InFlight(old(g).leases) <= Ended(wakeups) then Promoted else Cancelled
      ensures out == Promoted ==> g.snapshotOn && g.inFlight == 0 && g.leases[i] == NEW.(snapshot := true)
      ensures out == Cancelled ==> !g.snapshotOn && g.leases[i] == NEW
      ensures out == Cancelled ==> InFlight(g.leases) == InFlight(old(g).leases) - Ended(wakeups) + {i}
    {
      ghost var start := g;
      WaitForAll(i, wakeups);
      ghost var was := g;
      if g.inFlight > 0 {
        Withdraw(i);
        out := Cancelled;
      } else {
        TakeOver(i);
        out := Promoted;
      }
      KeepsTransitive(start, was, g);
    }

    /** The barrier goes up, and the caller's own command no longer counts. */
    method RaiseBarrier(i: LeaseID)
      requires Valid() && i in g.leases && Counts(g.leases[i]) && !g.snapshotOn
      modifies this
      ensures Valid() && KeepsEnded(old(g), g) && g.leases[i] == NEW.(promoting := true)
      ensures InFlight(g.leases) == InFlight(old(g).leases) - {i}
    {
      PromotingSound(g, i);
      g := Gate(true, g.inFlight - 1, g.leases[i := g.leases[i].(promoting := true)]);
    }

    /** Waits behind the barrier for the commands already in flight: promoted exactly when all
        of them end while the caller's context lasts. */
    method PromoteToSnapshot(i: LeaseID, wakeups: seq<seq<LeaseID>>) returns (out: Promotion)
      requires Valid() && i in g.leases && !g.leases[i].promoting
      modifies this
      ensures Valid() && KeepsEnded(old(g), g)
      ensures match out
              case Promoted => g.snapshotOn && g.inFlight == 0 && g.leases[i] == NEW.(snapshot := true)
              case AlreadyReleased => old(g).leases[i].released && g == old(g)
              case SnapshotInProgress => old(g).snapshotOn && g == old(g)
              case Cancelled => !g.snapshotOn && g.leases[i] == old(g).leases[i] && Counts(g.leases[i])
      ensures old(g).leases[i].released <==> out == AlreadyReleased
      ensures !old(g).leases[i].released && old(g).leases[i].snapshot ==> out == Promoted && g == old(g)
      ensures Counts(old(g).leases[i]) ==> (out == SnapshotInProgress <==> old(g).snapshotOn)
      ensures Counts(old(g).leases[i]) && !old(g).snapshotOn ==> (out == Promoted <==> InFlight(old(g).leases) - {i} <= Ended(wakeups))
      ensures out == Cancelled ==> InFlight(g.leases) == InFlight(old(g).leases) - {i} - Ended(wakeups) + {i}
    {
      var l := g.leases[i];
      if l.released {
        return AlreadyReleased;
      }
      if l.snapshot {
        assert Holds(l);
        SnapshotIsAlone(g, i);
        return Promoted;
      }
      if g.snapshotOn {
        return SnapshotInProgress;
      }
      ghost var start := g;
      RaiseBarrier(i);
      ghost var waiting := g;
      out := AwaitCommands(i, wakeups);
      KeepsTransitive(start, waiting, g);
    }

    /** Startup work waits until no snapshot is on. */
    method BarrierLifted() returns (lifted: bool)
      requires Valid()
      ensures lifted <==> forall i | i in g.leases :: !Holds(g.leases[i])
    {
      lifted := !g.snapshotOn;
    }

    /** Any commands and snapshots, ending in any order. */
    method Run(steps: nat)
      requires Valid() && forall i | i in g.leases :: !g.leases[i].promoting
      modifies this
      ensures Valid() && g.inFlight == |InFlight(g.leases)| && forall i | i in g.leases :: !g.leases[i].promoting
    {
      for n := 0 to steps
        invariant Valid() && forall i | i in g.leases :: !g.leases[i].promoting
      {
        var i: LeaseID, wakeups: seq<seq<LeaseID>>, promote: bool := *, *, *;
        if i !in g.leases {
          var lease := BeginCommand(i);
        } else if promote {
          var out := PromoteToSnapshot(i, wakeups);
        } else {
          Release(i);
        }
      }
    }
  }
}
