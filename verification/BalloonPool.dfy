/** The balloon controller of one memory pool.  Several workers plan commands under one mutex
    and share the pool's budgets; the requests themselves run outside the mutex. */
module BalloonPool {
  import opened Faults

  type Name = nat

  const MIB := 1024 * 1024
  const MAX_CHANGE_MIB := 512
  const SETTLE := 10
  const STALL := 30

  /** `identity` stands for the socket and cgroup of one running guest; sizes are in MiB. */
  datatype Observation = Observation(identity: nat, target: int, actual: int, changed: int, progress: int)

  type Members = map<Name, Option<Observation>>

  /** What a guest reports, with the bounds derived from it: no balloon target above `safe`
      leaves the guest its headroom. */
  datatype Stats = Stats(target: int, actual: int, known: bool, safe: int, step: int)

  predicate Sane(s: Stats) {
    s.target >= 0 && s.actual >= 0 && (s.known ==> s.safe >= 0 && s.step >= 1)
  }

  function Max(a: int, b: int): int { if a > b then a else b }

  function Min(a: int, b: int): int { if a < b then a else b }

  function FloorMiB(bytes: int): int {
    if bytes <= 0 then 0 else bytes / MIB
  }

  function RoundDown(value: int, multiple: int): int {
    if value <= 0 || multiple <= 1 then Max(value, 0) else value - value % multiple
  }

  /** At most 5% of the pool, and never more than 512 MiB, in either direction. */
  function RoundBudget(limit: int): int {
    Min(MAX_CHANGE_MIB, FloorMiB(limit) / 20)
  }

  /** `r` is the largest number of whole steps within `value`. */
  predicate WholeSteps(r: int, value: int, step: int)
    requires step >= 1
  {
    r % step == 0 && 0 <= r <= Max(value, 0) < r + step
  }

  lemma Scaled(step: int, a: int, b: int)
    requires step >= 1 && a < b
    ensures step * a + step <= step * b
  {
    assert step * (b - a - 1) >= 0;
  }

  lemma Multiple(step: int, q: int, x: int)
    requires step >= 1 && x == step * q
    ensures x % step == 0
  {
    var p, rest := x / step, x % step;
    assert x == step * p + rest && 0 <= rest < step;
    if p < q {
      Scaled(step, p, q);
    } else if q < p {
      Scaled(step, q, p);
    }
  }

  /** The result is a whole number of steps within the bound. */
  lemma RoundDownIsWhole(value: int, step: int)
    requires step >= 1
    ensures WholeSteps(RoundDown(value, step), value, step)
  {
    if value > 0 && step > 1 {
      Multiple(step, value / step, value - value % step);
    }
  }

  /** No larger whole number of steps is within the bound. */
  lemma RoundDownIsLargest(value: int, step: int, k: int)
    requires step >= 1 && k % step == 0 && 0 <= k <= value
    ensures k <= RoundDown(value, step)
  {
    if step > 1 && value > 0 {
      var a, b := k / step, value / step;
      assert k == step * a && RoundDown(value, step) == step * b && value < step * b + step;
      if b < a {
        Scaled(step, b, a);
      } else if a < b {
        Scaled(step, a, b);
      }
    }
  }

  // ---- Unfinished commands of the whole pool ----

  datatype Direction = Inflating | Returning

  function Unfinished(o: Option<Observation>, d: Direction): int {
    match o
    case None => 0
    case Some(x) => if d.Inflating? then Max(x.target - x.actual, 0) else Max(x.actual - x.target, 0)
  }

  ghost function Pending(ms: Members, d: Direction): int
    decreases |ms|
  {
    if ms == map[] then 0
    else
      var n :| n in ms;
      Unfinished(ms[n], d) + Pending(ms - {n}, d)
  }

  /** The sum does not depend on the order in which the members are visited. */
  lemma {:induction false} PendingSplit(ms: Members, d: Direction, n: Name)
    requires n in ms
    ensures Pending(ms, d) == Unfinished(ms[n], d) + Pending(ms - {n}, d)
    decreases |ms|
  {
    var k :| k in ms && Pending(ms, d) == Unfinished(ms[k], d) + Pending(ms - {k}, d);
    if k != n {
      PendingSplit(ms - {k}, d, n);
      PendingSplit(ms - {n}, d, k);
      assert ms - {k} - {n} == ms - {n} - {k};
    }
  }

  lemma PendingUpdate(ms: Members, d: Direction, n: Name, o: Option<Observation>)
    requires n in ms
    ensures Pending(ms[n := o], d) == Pending(ms, d) - Unfinished(ms[n], d) + Unfinished(o, d)
  {
    PendingSplit(ms, d, n);
    PendingSplit(ms[n := o], d, n);
    assert ms[n := o] - {n} == ms - {n};
  }

  lemma {:induction false} PendingNonNegative(ms: Members, d: Direction)
    ensures Pending(ms, d) >= 0
    decreases |ms|
  {
    if ms == map[] {
      assert Pending(ms, d) == 0;
    } else {
      var k :| k in ms && Pending(ms, d) == Unfinished(ms[k], d) + Pending(ms - {k}, d);
      assert Unfinished(ms[k], d) >= 0;
      PendingNonNegative(ms - {k}, d);
    }
  }

  // ---- One decision ----

  /** One consistent reading of the pool, taken under the mutex.  `rested` means that the
      member has not changed for the settling time. */
  datatype Reading = Reading(
    limit: int, used: int, inflating: int, returning: int, allObserved: bool, cancel: bool, rested: bool,
    inflated: int, returned: int)

  /** Measured room below 90% of the limit, and measured use above 75%. */
  function Free(r: Reading): int {
    FloorMiB(r.limit - r.limit / 10 - r.used)
  }

  function Excess(r: Reading): int {
    FloorMiB(r.used - (r.limit - r.limit / 4))
  }

  function Step(r: Reading, s: Stats): int {
    Min(s.step, Max(1, RoundBudget(r.limit)))
  }

  /** What the guest may get back: within the free room that no unfinished return has
      claimed, within the sweep's budget, and down to its safe target at most. */
  function Grantable(r: Reading, s: Stats): int {
    if r.allObserved && r.rested && s.actual == s.target
    then Min(Min(Max(0, Free(r) - r.returning), Max(0, RoundBudget(r.limit) - r.returned)), Max(s.actual - s.safe, 0))
    else 0
  }

  function Inflatable(r: Reading, s: Stats): int {
    Min(Min(Max(0, Excess(r) - r.inflating), Max(0, RoundBudget(r.limit) - r.inflated)), s.safe - s.target)
  }

  predicate Pressed(r: Reading, s: Stats) {
    r.allObserved && r.rested && s.actual == s.target && r.used > r.limit - r.limit / 5 && s.safe > s.target
  }

  /** The decision, case by case: cancelled inflation stops where the device is; a guest short
      of headroom gets whole steps of what it may get, or exactly what it lacks; a quiet
      guest gives whole steps under pressure; otherwise nothing moves. */
  predicate Decided(r: Reading, s: Stats, desired: int)
    requires Sane(s)
  {
    if r.cancel then desired == s.actual
    else if !s.known then desired == s.target
    else if s.safe < s.target then
      && (s.actual != s.target ==> desired == Min(s.target, s.actual))
      && (s.actual == s.target ==>
            if Grantable(r, s) == s.actual - s.safe then desired == s.safe
            else WholeSteps(s.actual - desired, Grantable(r, s), Step(r, s)))
    else if Pressed(r, s) then WholeSteps(desired - s.target, Inflatable(r, s), Step(r, s))
    else desired == s.target
  }

  /** Nothing about this guest has changed for the settling time. */
  predicate Quiet(o: Option<Observation>, s: Stats, now: int) {
    o.Some? && s.actual == o.value.actual && s.target == o.value.target && now - o.value.changed >= SETTLE
  }

  /** An inflation is given up when the guest took memory back by itself, or when the device
      has not moved for the stall time. */
  predicate Cancels(o: Option<Observation>, s: Stats, now: int) {
    && s.target > s.actual && o.Some?
    && ((s.actual < o.value.actual && s.target >= o.value.target)
        || (s.actual == o.value.actual && s.target == o.value.target && now - o.value.progress >= STALL))
  }

  /** The reading is what the members' past and this guest's report say. */
  ghost predicate Reads(r: Reading, past: Members, name: Name, s: Stats, now: int)
    requires name in past
  {
    && (r.allObserved <==> forall n | n in past && n != name :: past[n].Some?)
    && (r.rested <==> Quiet(past[name], s, now)) && (r.cancel <==> Cancels(past[name], s, now))
    && r.inflating == Pending(past[name := None], Inflating) + Max(s.target - s.actual, 0)
    && r.returning == Pending(past[name := None], Returning) + Max(s.actual - s.target, 0)
  }

  predicate InflationBounded(r: Reading, s: Stats, delta: int) {
    && s.target + delta <= s.safe && r.used > r.limit - r.limit / 5
    && r.inflating + delta <= Excess(r) && r.inflated + delta <= RoundBudget(r.limit)
  }

  predicate ReturnBounded(r: Reading, s: Stats, grant: int) {
    s.actual - grant >= s.safe && r.returning + grant <= Free(r) && r.returned + grant <= RoundBudget(r.limit)
  }

  /** `desired` is the best the bounds allow. */
  ghost predicate Largest(r: Reading, s: Stats, desired: int)
    requires Sane(s)
  {
    var budget := Min(512, FloorMiB(r.limit) / 20);
    var step := Min(s.step, Max(1, budget));
    var settled := s.actual == s.target && r.allObserved && r.rested;
    if r.cancel then desired == s.actual
    else if !s.known then desired == s.target
    else if s.safe < s.target then
      if settled then
        var grant := s.actual - desired;
        && (grant == s.actual - s.safe || (grant >= 0 && grant % step == 0))
        && (forall k: int | k > grant && (k == s.actual - s.safe || k % step == 0) :: !ReturnBounded(r, s, k))
      else desired == Min(s.target, s.actual)
    else if settled && s.safe > s.target && r.used > r.limit - r.limit / 5 then
      var delta := desired - s.target;
      delta >= 0 && delta % step == 0 && (forall k: int | k > delta && k % step == 0 :: !InflationBounded(r, s, k))
    else desired == s.target
  }

  /** Between a whole number of steps and the next bound no other fits. */
  lemma LargestWhole(x: int, value: int, step: int, k: int)
    requires step >= 1 && WholeSteps(x, value, step) && k % step == 0 && x < k
    ensures k > value
  {
    var a, b := x / step, k / step;
    assert x == step * a && k == step * b;
    if b <= a {
      if b < a {
        Scaled(step, b, a);
      }
    } else {
      Scaled(step, a, b);
    }
  }

  /** Whatever is decided stays within every budget. */
  lemma DecisionsAreBounded(r: Reading, s: Stats, desired: int)
    requires Sane(s) && Decided(r, s, desired) && r.limit > 0 && r.inflating >= 0 && r.returning >= 0
    requires 0 <= r.inflated <= RoundBudget(r.limit) && 0 <= r.returned <= RoundBudget(r.limit)
    requires r.cancel ==> s.target > s.actual
    ensures desired > s.target ==> InflationBounded(r, s, desired - s.target)
    ensures desired < Min(s.actual, s.target) ==> s.actual == s.target && ReturnBounded(r, s, s.actual - desired)
    ensures desired >= 0
  {
  }

  /** Without naming the arithmetic: a return is the largest that fits among the exact deficit
      and whole steps, an inflation the largest whole number of steps that fits, and nothing
      else moves a target except a cancellation or an outstanding difference. */
  lemma DecisionsAreLargest(r: Reading, s: Stats, desired: int)
    requires Sane(s) && Decided(r, s, desired) && r.limit > 0 && r.inflating >= 0 && r.returning >= 0
    requires 0 <= r.inflated <= RoundBudget(r.limit) && 0 <= r.returned <= RoundBudget(r.limit)
    requires r.cancel ==> s.target > s.actual
    ensures Largest(r, s, desired)
  {
    var budget := Min(512, FloorMiB(r.limit) / 20);
    var step := Min(s.step, Max(1, budget));
    if r.cancel || !s.known {
      return;
    }
    if s.safe < s.target && s.actual == s.target && r.allObserved && r.rested {
      forall k: int | k > s.actual - desired && (k == s.actual - s.safe || k % step == 0)
        ensures !ReturnBounded(r, s, k)
      {
        if k <= Grantable(r, s) && Grantable(r, s) != s.actual - s.safe {
          LargestWhole(s.actual - desired, Grantable(r, s), step, k);
        }
      }
    } else if s.safe > s.target && Pressed(r, s) {
      forall k: int | k > desired - s.target && k % step == 0
        ensures !InflationBounded(r, s, k)
      {
        if k <= Inflatable(r, s) {
          LargestWhole(desired - s.target, Inflatable(r, s), step, k);
        }
      }
    }
  }

  class Pool {
    const limit: int
    var members: Members
    var inflated: int
    var returned: int

    ghost predicate Valid()
      reads this
    {
      limit > 0 && 0 <= inflated <= RoundBudget(limit) && 0 <= returned <= RoundBudget(limit)
    }

    constructor (limit: int)
      requires limit > 0
      ensures Valid() && this.limit == limit && members == map[] && inflated == 0 && returned == 0
    {
      this.limit, members, inflated, returned := limit, map[], 0, 0;
    }

    /** A new sweep: fresh budgets, and only the current members keep their past. */
    method Prepare(current: set<Name>)
      requires Valid()
      modifies this
      ensures Valid() && inflated == 0 && returned == 0 && members.Keys == current
      ensures forall n | n in current :: members[n] == if n in old(members) then old(members)[n] else None
    {
      inflated, returned := 0, 0;
      members := map n | n in current :: if n in members then members[n] else None;
    }

    /** Under the mutex, before the guest is asked: a replaced guest inherits nothing. */
    method Identify(name: Name, identity: nat)
      requires Valid() && name in members
      modifies this`members
      ensures Valid() && members == if old(members)[name].Some? && old(members)[name].value.identity == identity then old(members) else old(members)[name := None]
    {
      if members[name].None? || members[name].value.identity != identity {
        members := members[name := None];
      }
    }

    /** The loop over the members, in any order. */
    method Survey() returns (inflating: int, returning: int, allObserved: bool)
      requires Valid()
      ensures inflating == Pending(members, Inflating) && returning == Pending(members, Returning)
      ensures allObserved <==> forall n | n in members :: members[n].Some?
    {
      inflating, returning, allObserved := 0, 0, true;
      var left := members;
      while left != map[]
        invariant left.Keys <= members.Keys && forall n | n in left :: left[n] == members[n]
        invariant inflating + Pending(left, Inflating) == Pending(members, Inflating)
        invariant returning + Pending(left, Returning) == Pending(members, Returning)
        invariant allObserved <==> forall n | n in members && n !in left :: members[n].Some?
        decreases |left|
      {
        var n :| n in left;
        PendingSplit(left, Inflating, n);
        PendingSplit(left, Returning, n);
        if left[n].None? {
          allObserved := false;
        } else {
          inflating := inflating + Max(left[n].value.target - left[n].value.actual, 0);
          returning := returning + Max(left[n].value.actual - left[n].value.target, 0);
        }
        left := left - {n};
      }
    }

    /** Records what the guest reports, and says whether its balloon fell by itself. */
    method Observe(name: Name, identity: nat, s: Stats, now: int) returns (fallen: bool, obs: Observation)
      requires Valid() && name in members
      modifies this`members
      ensures Valid() && members == old(members)[name := Some(obs)]
      ensures obs.target == s.target && obs.actual == s.actual
      ensures match old(members)[name]
              case None => !fallen && obs.changed == now && obs.progress == now && obs.identity == identity
              case Some(o) =>
                && (fallen <==> s.actual < o.actual && s.target >= o.target)
                && obs.identity == o.identity
                && (if s.actual == o.actual && s.target == o.target then obs.changed == o.changed && obs.progress == o.progress
                    else obs.changed == now && obs.progress == now)
    {
      fallen := false;
      if members[name].None? {
        obs := Observation(identity, s.target, s.actual, now, now);
      } else {
        var o := members[name].value;
        fallen := s.actual < o.actual && s.target >= o.target;
        obs := o;
        if s.actual != o.actual {
          obs := obs.(progress := now, changed := now);
        }
        if s.target != o.target {
          obs := obs.(changed := now, progress := now);
        }
        obs := obs.(actual := s.actual, target := s.target);
      }
      members := members[name := Some(obs)];
    }

    /** The command counts as given from here on, even if its reply is lost. */
    method Reserve(name: Name, obs: Observation, d: int, now: int)
      requires Valid() && name in members && members[name] == Some(obs)
      requires inflated + Max(d - obs.target, 0) <= RoundBudget(limit)
      requires returned + Max(Min(obs.actual, obs.target) - d, 0) <= RoundBudget(limit)
      modifies this
      ensures Valid() && members == old(members)[name := Some(obs.(target := d, changed := now, progress := now))]
      ensures inflated == old(inflated) + Max(d - obs.target, 0) && returned == old(returned) + Max(Min(obs.actual, obs.target) - d, 0)
      ensures Pending(members, Inflating) == Pending(old(members), Inflating) - Max(obs.target - obs.actual, 0) + Max(d - obs.actual, 0)
      ensures Pending(members, Returning) == Pending(old(members), Returning) - Max(obs.actual - obs.target, 0) + Max(obs.actual - d, 0)
    {
      inflated := inflated + Max(d - obs.target, 0);
      returned := returned + Max(Min(obs.actual, obs.target) - d, 0);
      PendingUpdate(members, Inflating, name, Some(obs.(target := d, changed := now, progress := now)));
      PendingUpdate(members, Returning, name, Some(obs.(target := d, changed := now, progress := now)));
      members := members[name := Some(obs.(target := d, changed := now, progress := now))];
    }

    /** The arithmetic of the decision. */
    method Decide(r: Reading, s: Stats) returns (desired: int)
      requires Sane(s) && (s.known || r.cancel) && r.limit > 0 && r.inflating >= 0 && r.returning >= 0 && (r.cancel ==> s.target > s.actual)
      requires 0 <= r.inflated <= RoundBudget(r.limit) && 0 <= r.returned <= RoundBudget(r.limit)
      ensures Decided(r, s, desired) && Largest(r, s, desired)
      ensures desired > s.target ==> InflationBounded(r, s, desired - s.target)
      ensures desired < Min(s.actual, s.target) ==> s.actual == s.target && ReturnBounded(r, s, s.actual - desired)
    {
      var budget := RoundBudget(r.limit);
      var step := Min(s.step, Max(1, budget));
      desired := s.target;
      if r.cancel {
        desired := s.actual;
      } else if s.safe < s.target {
        var grant := Max(0, FloorMiB(r.limit - r.limit / 10 - r.used) - r.returning);
        grant := Min(grant, Max(0, budget - r.returned));
        if !r.allObserved || !r.rested || s.actual != s.target {
          grant := 0;
        }
        grant := Min(grant, Max(s.actual - s.safe, 0));
        if grant != s.actual - s.safe {
          RoundDownIsWhole(grant, step);
          grant := RoundDown(grant, step);
        }
        desired := Min(s.target, s.actual - grant);
      } else if r.allObserved && s.actual == s.target && r.rested && r.used > r.limit - r.limit / 5 && s.safe > s.target {
        var room := Max(0, FloorMiB(r.used - (r.limit - r.limit / 4)) - r.inflating);
        room := Min(room, Max(0, budget - r.inflated));
        RoundDownIsWhole(Min(room, s.safe - s.target), step);
        desired := desired + RoundDown(Min(room, s.safe - s.target), step);
      }
      DecisionsAreBounded(r, s, desired);
      DecisionsAreLargest(r, s, desired);
    }

    /** Decides on a reading and reserves what was decided. */
    method Act(name: Name, obs: Observation, r: Reading, s: Stats, now: int) returns (desired: Option<int>)
      requires Valid() && name in members && members[name] == Some(obs) && obs.target == s.target && obs.actual == s.actual
      requires Sane(s) && r.limit == limit && r.inflated == inflated && r.returned == returned && (r.cancel ==> s.target > s.actual)
      requires r.inflating == Pending(members, Inflating) >= 0 && r.returning == Pending(members, Returning) >= 0
      modifies this
      ensures Valid()
      ensures desired.None? ==> members == old(members) && (s.known || r.cancel ==> Decided(r, s, s.target))
      ensures desired.Some? ==> desired.value != s.target && Decided(r, s, desired.value)
                                && members == old(members)[name := Some(obs.(target := desired.value, changed := now, progress := now))]
      ensures desired.Some? && desired.value > s.target ==> desired.value <= s.safe && Pending(members, Inflating) <= Excess(r)
      ensures desired.Some? && desired.value < Min(s.actual, s.target) ==> desired.value >= s.safe && Pending(members, Returning) <= Free(r)
      ensures inflated == old(inflated) + (if desired.Some? then Max(desired.value - s.target, 0) else 0)
      ensures returned == old(returned) + (if desired.Some? then Max(Min(s.actual, s.target) - desired.value, 0) else 0)
    {
      if !s.known && !r.cancel {
        return None;
      }
      var d := Decide(r, s);
      if d == s.target {
        return None;
      }
      Reserve(name, obs, d, now);
      return Some(d);
    }

    /** Observes one member and sums up all of them. */
    method Assess(name: Name, identity: nat, s: Stats, used: int, now: int) returns (obs: Observation, r: Reading)
      requires Valid() && name in members && Sane(s)
      modifies this`members
      ensures Valid() && members == old(members)[name := Some(obs)] && obs.target == s.target && obs.actual == s.actual
      ensures r.limit == limit && r.used == used && r.inflated == inflated && r.returned == returned
      ensures Reads(r, old(members), name, s, now)
      ensures r.inflating == Pending(members, Inflating) >= 0 && r.returning == Pending(members, Returning) >= 0
      ensures r.cancel ==> s.target > s.actual
    {
      var fallen;
      fallen, obs := Observe(name, identity, s, now);
      var cancel := s.target > s.actual && (fallen || now - obs.progress >= STALL);
      var inflating, returning, allObserved := Survey();
      assert members[name := None] == old(members)[name := None];
      assert forall n | n in old(members) && n != name :: members[n] == old(members)[n];
      PendingUpdate(members, Inflating, name, None);
      PendingUpdate(members, Returning, name, None);
      PendingNonNegative(members, Inflating);
      PendingNonNegative(members, Returning);
      r := Reading(limit, used, inflating, returning, allObserved, cancel, now - obs.changed >= SETTLE, inflated, returned);
    }

    /** The critical section: re-read, decide, and reserve the command before it is sent. */
    method Plan(name: Name, identity: nat, s: Stats, limitNow: int, used: int, now: int) returns (desired: Option<int>, ghost r: Reading)
      requires Valid() && name in members && Sane(s) && used >= 0
      modifies this
      ensures Valid() && members.Keys == old(members).Keys
      ensures forall n | n in members && n != name :: members[n] == old(members)[n]
      ensures limitNow != limit ==> desired.None? && members == old(members) && inflated == old(inflated) && returned == old(returned)
      ensures limitNow == limit ==>
                && r.limit == limit && r.used == used && r.inflated == old(inflated) && r.returned == old(returned)
                && Reads(r, old(members), name, s, now)
                && members[name].Some? && members[name].value.actual == s.actual
                && members[name].value.target == (if desired.Some? then desired.value else s.target)
      ensures desired.Some? ==> Decided(r, s, desired.value) && desired.value != s.target
      ensures limitNow == limit && desired.None? && (s.known || r.cancel) ==> Decided(r, s, s.target)
      ensures desired.Some? && desired.value > s.target ==>
                desired.value <= s.safe && Pending(members, Inflating) <= FloorMiB(used - (limit - limit / 4))
      ensures desired.Some? && desired.value < Min(s.actual, s.target) ==>
                desired.value >= s.safe && Pending(members, Returning) <= FloorMiB(limit - limit / 10 - used)
      ensures inflated == old(inflated) + (if desired.Some? then Max(desired.value - s.target, 0) else 0)
      ensures returned == old(returned) + (if desired.Some? then Max(Min(s.actual, s.target) - desired.value, 0) else 0)
    {
      r := Reading(limit, used, 0, 0, false, false, false, inflated, returned);
      if limitNow != limit {
        return None, r;
      }
      var obs, reading := Assess(name, identity, s, used, now);
      r := reading;
      desired := Act(name, obs, reading, s, now);
    }
  }

  // ---- A sweep ----

  datatype Worker = Worker(name: Name, identity: nat)

  method Ask(pool: Pool, w: Worker) returns (ghost up: int, ghost down: int)
    requires pool.Valid() && w.name in pool.members
    modifies pool
    ensures pool.Valid() && pool.members.Keys == old(pool.members).Keys && up >= 0 && down >= 0
    ensures pool.inflated == old(pool.inflated) + up && pool.returned == old(pool.returned) + down
  {
    var s: Stats, limitNow: int, used: int, now: int := *, *, *, *;
    up, down := 0, 0;
    if Sane(s) && used >= 0 {
      var desired;
      ghost var r;
      desired, r := pool.Plan(w.name, w.identity, s, limitNow, used, now);
      if desired.Some? {
        up, down := Max(desired.value - s.target, 0), Max(Min(s.actual, s.target) - desired.value, 0);
      }
    }
  }

  /** All workers of a sweep, interleaved in any order between their critical sections, with
      any statistics and any measured use: what they command together stays within the
      sweep's budget in each direction. */
  method Sweep(pool: Pool, workers: set<Worker>, current: set<Name>) returns (ghost up: int, ghost down: int)
    requires pool.Valid() && forall w | w in workers :: w.name in current
    modifies pool
    ensures pool.Valid()
    ensures 0 <= up <= RoundBudget(pool.limit) && 0 <= down <= RoundBudget(pool.limit)
    ensures up == pool.inflated && down == pool.returned
  {
    pool.Prepare(current);
    up, down := 0, 0;
    var waiting, asked := workers, {};
    while waiting != {} || asked != {}
      invariant pool.Valid() && pool.members.Keys == current && up == pool.inflated && down == pool.returned
      invariant forall w | w in waiting || w in asked :: w.name in current
      decreases 2 * |waiting| + |asked|
    {
      var first: bool := *;
      if waiting != {} && (first || asked == {}) {
        var w :| w in waiting;
        pool.Identify(w.name, w.identity);
        waiting, asked := waiting - {w}, asked + {w};
      } else {
        var w :| w in asked;
        asked := asked - {w};
        ghost var more, less;
        more, less := Ask(pool, w);
        up, down := up + more, down + less;
      }
    }
  }
}
