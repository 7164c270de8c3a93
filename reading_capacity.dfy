/** The reading-capacity arithmetic shared by both flow-control variants, on
    values: a budget snapshot, the invariant that ties the current snapshot to
    the limit, and the effect of locking and releasing one message's cost.
    The tracker's lock and release methods are proved to update its current
    capacity as `Lock` and `Release` say; the lemmas here state what that
    means over one call and over many. */
module CapacityAccounting {

  datatype Option<T> = None | Some(value: T)

  /** A flood budget plus, for the count-based variant only, a total budget. */
  datatype ReadingCapacity = ReadingCapacity(flood: nat, total: Option<nat>)

  /** The cost of one inbound message and whether it is flood traffic. */
  datatype Charge = Charge(cost: nat, isFlood: bool)

  datatype LockOutcome = LockOutcome(capacity: ReadingCapacity, accepted: bool)

  datatype ReleaseOutcome = ReleaseOutcome(capacity: ReadingCapacity, released: nat)

  /** The total budget, when tracked, can pay `cost`. */
  predicate TotalCovers(current: ReadingCapacity, cost: nat)
  {
    current.total.Some? ==> current.total.value >= cost
  }

  /** The current capacity stays within the limit: flood never above the
      limit's flood, and a total budget present in exactly one of them never. */
  predicate WithinLimits(current: ReadingCapacity, limits: ReadingCapacity)
    ensures WithinLimits(current, limits) ==>
      forall cost: nat :: TotalCovers(current, cost) ==> TotalCovers(limits, cost)
  {
    current.flood <= limits.flood &&
    current.total.Some? == limits.total.Some? &&
    (current.total.Some? ==> current.total.value <= limits.total.value)
  }

  /** Admission and consumption: the total budget, when tracked, is debited
      first, and only then is a flood message checked against the flood budget. */
  function Lock(current: ReadingCapacity, charge: Charge): (r: LockOutcome)
    requires TotalCovers(current, charge.cost)
    ensures r.capacity.flood <= current.flood
    ensures r.capacity.total.Some? == current.total.Some?
    ensures current.total.Some? ==> r.capacity.total.value <= current.total.value
  {
    var debited := match current.total
      case Some(t) => current.(total := Some(t - charge.cost))
      case None => current;
    if !charge.isFlood then
      LockOutcome(debited, true)
    else if debited.flood < charge.cost then
      LockOutcome(debited, false)
    else
      LockOutcome(debited.(flood := debited.flood - charge.cost), true)
  }

  /** Return of a processed message's cost; the released amount is what may be
      granted back to the peer as flood credit. */
  function Release(current: ReadingCapacity, charge: Charge): (r: ReleaseOutcome)
    ensures r.capacity.flood >= current.flood && r.released <= charge.cost
    ensures r.capacity.total.Some? == current.total.Some?
    ensures current.total.Some? ==> r.capacity.total.value >= current.total.value
  {
    var credited := match current.total
      case Some(t) => current.(total := Some(t + charge.cost))
      case None => current;
    if charge.isFlood then
      ReleaseOutcome(credited.(flood := credited.flood + charge.cost), charge.cost)
    else
      ReleaseOutcome(credited, 0)
  }

  /** Locking only ever lowers the counters, so it keeps the limit. */
  lemma LockKeepsLimits(current: ReadingCapacity, limits: ReadingCapacity, charge: Charge)
    requires WithinLimits(current, limits) && TotalCovers(current, charge.cost)
    ensures WithinLimits(Lock(current, charge).capacity, limits)
  {
  }

  /** The admission verdict: a non-flood message is always admitted; a flood
      message exactly when the flood budget covers its cost, and then that
      budget drops by exactly the cost. A rejected message leaves the flood
      budget as it was. */
  lemma LockVerdict(current: ReadingCapacity, charge: Charge)
    requires TotalCovers(current, charge.cost)
    ensures Lock(current, charge).accepted <==> !charge.isFlood || current.flood >= charge.cost
    ensures var after := Lock(current, charge).capacity;
      after.flood == if charge.isFlood && Lock(current, charge).accepted
                     then current.flood - charge.cost else current.flood
  {
  }

  /** The total budget is debited by the full cost whatever the verdict, a
      rejected flood message included. */
  lemma LockDebitsTotal(current: ReadingCapacity, charge: Charge)
    requires TotalCovers(current, charge.cost)
    ensures Lock(current, charge).capacity.total.Some? == current.total.Some?
    ensures current.total.Some? ==>
      Lock(current, charge).capacity.total.value + charge.cost == current.total.value
  {
  }

  /** The worked rejection case: total 100, flood 5, a flood message costing 10
      is refused, yet the total is already down to 90 and flood is still 5. */
  lemma RejectedLockExample()
    ensures Lock(ReadingCapacity(5, Some(100)), Charge(10, true))
            == LockOutcome(ReadingCapacity(5, Some(90)), false)
  {
  }

  /** Releasing credits the total (when tracked) and, for flood messages only,
      the flood budget; it reports the cost for flood messages and 0 otherwise. */
  lemma ReleaseCredits(current: ReadingCapacity, charge: Charge)
    ensures var r := Release(current, charge);
      r.capacity.flood == current.flood + r.released &&
      r.released == (if charge.isFlood then charge.cost else 0) &&
      r.capacity.total.Some? == current.total.Some? &&
      (current.total.Some? ==> r.capacity.total.value == current.total.value + charge.cost)
  {
  }

  /** Releasing a message that was admitted restores the capacity exactly,
      and gives back as flood credit what the lock took from the flood budget. */
  lemma LockReleaseRoundTrip(current: ReadingCapacity, charge: Charge)
    requires TotalCovers(current, charge.cost)
    requires Lock(current, charge).accepted
    ensures Release(Lock(current, charge).capacity, charge)
            == ReleaseOutcome(current, current.flood - Lock(current, charge).capacity.flood)
  {
  }

  /** Total cost of a sequence of messages. */
  function TotalCost(charges: seq<Charge>): nat
  {
    if charges == [] then 0 else charges[0].cost + TotalCost(charges[1..])
  }

  /** Cost of the flood messages among a sequence of messages. */
  function FloodCost(charges: seq<Charge>): nat
  {
    if charges == [] then 0
    else (if charges[0].isFlood then charges[0].cost else 0) + FloodCost(charges[1..])
  }

  /** Locking a sequence of messages one after another; the outcome is
      accepted when every single lock was. */
  function LockAll(current: ReadingCapacity, charges: seq<Charge>): LockOutcome
    requires TotalCovers(current, TotalCost(charges))
    decreases |charges|
  {
    if charges == [] then LockOutcome(current, true)
    else
      var first := Lock(current, charges[0]);
      var rest := LockAll(first.capacity, charges[1..]);
      LockOutcome(rest.capacity, first.accepted && rest.accepted)
  }

  /** Releasing a sequence of messages one after another; the outcome's
      released amount is the sum of the single releases. */
  function ReleaseAll(current: ReadingCapacity, charges: seq<Charge>): ReleaseOutcome
    decreases |charges|
  {
    if charges == [] then ReleaseOutcome(current, 0)
    else
      var first := Release(current, charges[0]);
      var rest := ReleaseAll(first.capacity, charges[1..]);
      ReleaseOutcome(rest.capacity, first.released + rest.released)
  }

  /** Locking messages that are all admitted takes their flood cost from the
      flood budget and their whole cost from the total budget. */
  lemma {:induction false} LockAllDebits(current: ReadingCapacity, charges: seq<Charge>)
    requires TotalCovers(current, TotalCost(charges))
    requires LockAll(current, charges).accepted
    ensures LockAll(current, charges).capacity.flood + FloodCost(charges) == current.flood
    ensures LockAll(current, charges).capacity.total.Some? == current.total.Some?
    ensures current.total.Some? ==>
      LockAll(current, charges).capacity.total.value + TotalCost(charges) == current.total.value
    decreases |charges|
  {
    if charges != [] {
      var first := Lock(current, charges[0]);
      LockVerdict(current, charges[0]);
      LockDebitsTotal(current, charges[0]);
      LockAllDebits(first.capacity, charges[1..]);
    }
  }

  /** Releasing messages returns their flood cost to the flood budget and
      their whole cost to the total budget, and reports their flood cost. */
  lemma {:induction false} ReleaseAllCredits(current: ReadingCapacity, charges: seq<Charge>)
    ensures ReleaseAll(current, charges).released == FloodCost(charges)
    ensures ReleaseAll(current, charges).capacity.flood == current.flood + FloodCost(charges)
    ensures ReleaseAll(current, charges).capacity.total.Some? == current.total.Some?
    ensures current.total.Some? ==>
      ReleaseAll(current, charges).capacity.total.value == current.total.value + TotalCost(charges)
    decreases |charges|
  {
    if charges != [] {
      ReleaseCredits(current, charges[0]);
      ReleaseAllCredits(Release(current, charges[0]).capacity, charges[1..]);
    }
  }

  /** Locking a batch of admitted messages and later releasing the same batch
      restores the capacity exactly, and the releases report as flood credit
      precisely what the locks took from the flood budget. */
  lemma LockAllReleaseAllRoundTrip(current: ReadingCapacity, charges: seq<Charge>)
    requires TotalCovers(current, TotalCost(charges))
    requires LockAll(current, charges).accepted
    ensures ReleaseAll(LockAll(current, charges).capacity, charges)
            == ReleaseOutcome(current, FloodCost(charges))
  {
    var locked := LockAll(current, charges).capacity;
    LockAllDebits(current, charges);
    ReleaseAllCredits(locked, charges);
  }

  /** One call into the accountant's inbound side. */
  datatype Event = LockEvent(charge: Charge) | ReleaseEvent(charge: Charge)

  /** Runs a sequence of calls with the fatal checks the accountant makes:
      the invariant and the total budget on entry to a lock, the invariant on
      exit from a release. `None` means one of them would abort. */
  function Replay(limits: ReadingCapacity, current: ReadingCapacity, events: seq<Event>)
    : Option<ReadingCapacity>
    decreases |events|
  {
    if events == [] then Some(current)
    else match events[0]
      case LockEvent(charge) =>
        if WithinLimits(current, limits) && TotalCovers(current, charge.cost) then
          Replay(limits, Lock(current, charge).capacity, events[1..])
        else None
      case ReleaseEvent(charge) =>
        var after := Release(current, charge).capacity;
        if WithinLimits(after, limits) then Replay(limits, after, events[1..]) else None
  }

  /** Any sequence of locks and releases that no check aborts ends within the
      limits, from a start within them. */
  lemma {:induction false} ReplayKeepsLimits(limits: ReadingCapacity, current: ReadingCapacity,
                                             events: seq<Event>)
    requires WithinLimits(current, limits)
    requires Replay(limits, current, events).Some?
    ensures WithinLimits(Replay(limits, current, events).value, limits)
    decreases |events|
  {
    if events != [] {
      match events[0]
      case LockEvent(charge) =>
        LockKeepsLimits(current, limits, charge);
        ReplayKeepsLimits(limits, Lock(current, charge).capacity, events[1..]);
      case ReleaseEvent(charge) =>
        ReplayKeepsLimits(limits, Release(current, charge).capacity, events[1..]);
    }
  }

  /** From a start within the limits, locking a batch and then releasing it
      never trips a check and brings the capacity back where it started. */
  lemma LockThenReleaseNeverAborts(limits: ReadingCapacity, current: ReadingCapacity,
                                   charges: seq<Charge>)
    requires WithinLimits(current, limits)
    requires TotalCovers(current, TotalCost(charges))
    requires LockAll(current, charges).accepted
    ensures Replay(limits, current, Locks(charges) + Releases(charges)) == Some(current)
  {
    ReplayLocks(limits, current, charges, Releases(charges));
    var locked := LockAll(current, charges).capacity;
    LockAllReleaseAllRoundTrip(current, charges);
    ReplayReleases(limits, locked, charges, current);
  }

  function Locks(charges: seq<Charge>): seq<Event>
  {
    if charges == [] then [] else [LockEvent(charges[0])] + Locks(charges[1..])
  }

  function Releases(charges: seq<Charge>): seq<Event>
  {
    if charges == [] then [] else [ReleaseEvent(charges[0])] + Releases(charges[1..])
  }

  /** Replaying the locks of a batch from within the limits reaches the state
      LockAll describes, with no check tripped. */
  lemma {:induction false} ReplayLocks(limits: ReadingCapacity, current: ReadingCapacity,
                                       charges: seq<Charge>, tail: seq<Event>)
    requires WithinLimits(current, limits)
    requires TotalCovers(current, TotalCost(charges))
    ensures Replay(limits, current, Locks(charges) + tail)
            == Replay(limits, LockAll(current, charges).capacity, tail)
    decreases |charges|
  {
    if charges != [] {
      var first := Lock(current, charges[0]);
      LockKeepsLimits(current, limits, charges[0]);
      LockDebitsTotal(current, charges[0]);
      assert (Locks(charges) + tail)[0] == LockEvent(charges[0]);
      assert (Locks(charges) + tail)[1..] == Locks(charges[1..]) + tail;
      ReplayLocks(limits, first.capacity, charges[1..], tail);
    } else {
      assert Locks(charges) + tail == tail;
    }
  }

  /** Replaying the releases of a batch whose release ends at `target`, a
      state within the limits, trips no check and ends at `target`. */
  lemma {:induction false} ReplayReleases(limits: ReadingCapacity, current: ReadingCapacity,
                                          charges: seq<Charge>, target: ReadingCapacity)
    requires WithinLimits(target, limits)
    requires ReleaseAll(current, charges).capacity == target
    ensures Replay(limits, current, Releases(charges)) == Some(target)
    decreases |charges|
  {
    if charges != [] {
      var after := Release(current, charges[0]).capacity;
      ReleaseAllCredits(after, charges[1..]);
      ReleaseCredits(current, charges[0]);
      assert Releases(charges)[1..] == Releases(charges[1..]);
      ReplayReleases(limits, after, charges[1..], target);
    }
  }
}
