/** The flow-control capacity tracker of one peer connection. One class stands
    for the shared base and its two variants; the variant is fixed when the
    tracker is built. Every mutation goes through the methods below, and each
    method's `modifies` frame names the only fields it may change. The two
    inbound methods are proved to update the current capacity exactly as
    `Lock` and `Release` of `CapacityAccounting` say; the outbound methods and
    the byte budget increase state the new values of `outbound` and
    `byteLimits` directly in their postconditions. */
module FlowControl {
  import opened Messages
  import opened CapacityAccounting

  /** The unit the tracker counts in, with what each variant reads once from
      its surroundings: the configured reading limits for the count-based
      variant, the peer's and our overlay versions for the byte-based one. */
  datatype Variant =
    | MessageCount(floodReadingCapacity: nat, readingCapacity: nat)
    | ByteCount(remoteVersion: nat, localVersion: nat)

  class FlowControlCapacity {
    const variant: Variant
    /** The reading capacity still available to the peer. */
    var capacity: ReadingCapacity
    /** The byte-based variant's limit, which can grow; the count-based
        variant's limit comes from its configuration and this field is unused. */
    var byteLimits: ReadingCapacity
    /** The credit the peer has granted us for flood traffic. */
    var outbound: nat

    /** The limit the current capacity may never exceed. */
    function CapacityLimits(): (r: ReadingCapacity)
      requires variant.ByteCount? ==> byteLimits.total.None?
      reads this
      ensures r.total.Some? <==> variant.MessageCount?
    {
      match variant
      case MessageCount(flood, total) => ReadingCapacity(flood, Some(total))
      case ByteCount(_, _) => byteLimits
    }

    /** The tracker's invariant: within limits, and a total budget exactly for
        the count-based variant. */
    predicate Valid()
      reads this
      ensures Valid() ==> (capacity.total.Some? <==> variant.MessageCount?)
      ensures Valid() && variant.MessageCount? ==>
        capacity.flood <= variant.floodReadingCapacity &&
        capacity.total.value <= variant.readingCapacity
    {
      (variant.ByteCount? ==> byteLimits.total.None?) &&
      WithinLimits(capacity, CapacityLimits())
    }

    /** The byte-based variant cannot cost a message before it knows the
        peer's overlay version. */
    predicate CanCost()
    {
      variant.MessageCount? || variant.remoteVersion != 0
    }

    /** What a message costs: one unit per message, or its size in bytes. */
    function ResourceCount(msg: StellarMessage): (r: nat)
      requires CanCost()
      ensures variant.MessageCount? ==> r == 1
      ensures variant.ByteCount? ==> r <= msg.xdrSize
    {
      match variant
      case MessageCount(_, _) => 1
      case ByteCount(remote, local) => MsgBodySize(msg, remote, local)
    }

    function ChargeOf(msg: StellarMessage): Charge
      requires CanCost()
    {
      Charge(ResourceCount(msg), msg.isFlood)
    }

    /** The peer has granted us enough credit to send `msg`. */
    predicate HasOutboundCapacity(msg: StellarMessage)
      requires CanCost()
      reads this
      ensures variant.MessageCount? ==> (HasOutboundCapacity(msg) <==> outbound > 0)
      ensures variant.ByteCount? && outbound >= msg.xdrSize ==> HasOutboundCapacity(msg)
    {
      outbound >= ResourceCount(msg)
    }

    /** The read-loop throttle: the count-based variant reads while its total
        budget is positive, the byte-based variant always reads. */
    predicate CanRead()
      requires variant.MessageCount? ==> capacity.total.Some?
      requires variant.ByteCount? ==> capacity.total.None?
      reads this
      ensures CanRead() <==> TotalCovers(capacity, 1)
      ensures variant.ByteCount? ==> CanRead()
    {
      match variant
      case MessageCount(_, _) => capacity.total.value > 0
      case ByteCount(_, _) => true
    }

    /** A count-based tracker, starting at its configured limits. */
    constructor Messages(floodReadingCapacity: nat, readingCapacity: nat)
      ensures Valid()
      ensures variant == MessageCount(floodReadingCapacity, readingCapacity)
      ensures capacity == ReadingCapacity(floodReadingCapacity, Some(readingCapacity))
      ensures capacity == CapacityLimits()
      ensures outbound == 0
    {
      variant := MessageCount(floodReadingCapacity, readingCapacity);
      byteLimits := ReadingCapacity(0, None);
      capacity := ReadingCapacity(floodReadingCapacity, Some(readingCapacity));
      outbound := 0;
    }

    /** A byte-based tracker with the negotiated byte budget as its flood limit
        and no total budget, starting at that limit. */
    constructor Bytes(byteBudget: nat, remoteVersion: nat, localVersion: nat)
      ensures Valid()
      ensures variant == ByteCount(remoteVersion, localVersion)
      ensures byteLimits == ReadingCapacity(byteBudget, None)
      ensures capacity == CapacityLimits()
      ensures outbound == 0
    {
      variant := ByteCount(remoteVersion, localVersion);
      byteLimits := ReadingCapacity(byteBudget, None);
      capacity := byteLimits;
      outbound := 0;
    }

    /** Admission and consumption of an inbound message. The total budget, when
        tracked, must cover the cost and is debited before the flood check,
        so a rejected flood message still spends it. */
    method LockLocalCapacity(msg: StellarMessage) returns (accepted: bool)
      requires Valid() && CanCost()
      requires TotalCovers(capacity, ResourceCount(msg))
      modifies this`capacity
      ensures Valid()
      ensures LockOutcome(capacity, accepted) == Lock(old(capacity), ChargeOf(msg))
    {
      var cost := ResourceCount(msg);
      if capacity.total.Some? {
        capacity := capacity.(total := Some(capacity.total.value - cost));
      }
      if msg.isFlood {
        if capacity.flood < cost {
          return false;
        }
        capacity := capacity.(flood := capacity.flood - cost);
      }
      LockKeepsLimits(old(capacity), CapacityLimits(), ChargeOf(msg));
      return true;
    }

    /** Return of a processed message's cost. The result must stay within the
        limits; the flood amount freed is reported for granting back. */
    method ReleaseLocalCapacity(msg: StellarMessage) returns (released: nat)
      requires Valid() && CanCost()
      requires WithinLimits(Release(capacity, ChargeOf(msg)).capacity, CapacityLimits())
      modifies this`capacity
      ensures Valid() && CanRead()
      ensures ReleaseOutcome(capacity, released) == Release(old(capacity), ChargeOf(msg))
    {
      released := 0;
      var cost := ResourceCount(msg);
      if capacity.total.Some? {
        capacity := capacity.(total := Some(capacity.total.value + cost));
      }
      if msg.isFlood {
        released := cost;
        capacity := capacity.(flood := capacity.flood + cost);
      }
    }

    /** Outbound debit: a flood message spends its cost from the credit the
        peer granted, which must cover it; other messages spend nothing. */
    method LockOutboundCapacity(msg: StellarMessage)
      requires msg.isFlood ==> CanCost() && HasOutboundCapacity(msg)
      modifies this`outbound
      ensures msg.isFlood ==> outbound + ResourceCount(msg) == old(outbound)
      ensures !msg.isFlood ==> outbound == old(outbound)
    {
      if msg.isFlood {
        outbound := outbound - ResourceCount(msg);
      }
    }

    /** The capacity-grant kinds each variant accepts. */
    predicate AcceptsGrant(body: MessageBody)
    {
      match variant
      case MessageCount(_, _) => body.SendMore? || body.SendMoreExtended?
      case ByteCount(_, _) => body.SendMoreExtended?
    }

    /** The credit a grant carries, in the variant's unit. */
    function GrantAmount(body: MessageBody): nat
      requires AcceptsGrant(body)
    {
      match variant
      case MessageCount(_, _) => NumMessages(body)
      case ByteCount(_, _) => body.numBytes
    }

    /** Outbound credit from a grant of the variant's kind: a message count, or
        for the byte-based variant the byte count of an extended grant. */
    method ReleaseOutboundCapacity(msg: StellarMessage)
      requires AcceptsGrant(msg.body) && CanCost()
      modifies this`outbound
      ensures outbound == old(outbound) + GrantAmount(msg.body)
      ensures outbound >= old(outbound)
    {
      match variant
      case MessageCount(_, _) =>
        outbound := outbound + NumMessages(msg.body);
      case ByteCount(_, _) =>
        outbound := outbound + msg.body.numBytes;
    }

    /** The byte-based variant's budget growth: current and limit flood
        capacity both rise by `increase`, so the tracker stays valid. */
    method HandleTxSizeIncrease(increase: nat)
      requires Valid() && variant.ByteCount?
      modifies this`capacity, this`byteLimits
      ensures Valid()
      ensures capacity == old(capacity).(flood := old(capacity).flood + increase)
      ensures byteLimits == old(byteLimits).(flood := old(byteLimits).flood + increase)
    {
      capacity := capacity.(flood := capacity.flood + increase);
      byteLimits := byteLimits.(flood := byteLimits.flood + increase);
    }
  }

  /** The read gate is what keeps the lock's total-budget check from firing:
      a count-based tracker can lock any message exactly when it can read,
      and a byte-based tracker, which always reads, never trips that check. */
  lemma CanReadGatesLock(t: FlowControlCapacity, msg: StellarMessage)
    requires t.Valid() && t.CanCost()
    ensures t.variant.MessageCount? ==>
      (t.CanRead() <==> TotalCovers(t.capacity, t.ResourceCount(msg)))
    ensures t.variant.ByteCount? ==>
      t.CanRead() && TotalCovers(t.capacity, t.ResourceCount(msg))
  {
  }
}
