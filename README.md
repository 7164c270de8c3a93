# Flow-control capacity accountant

A model of stellar-core's per-peer flow-control capacity accountant
(`src/overlay/FlowControlCapacity.cpp`). For one peer connection it tracks:

- the reading capacity the peer may still use: a flood budget, plus a total
  budget in the count-based variant;
- the limit that capacity may never exceed;
- the outbound credit the peer has granted us.

There are two variants, fixed at construction. The count-based variant
(`FlowControlMessageCapacity`) charges one unit per message and tracks a flood
and a total budget. The byte-based variant (`FlowControlByteCapacity`) charges
a message's serialized size, tracks only a flood budget, and can raise that
budget and its limit while the connection is open.

Files:

- `messages.dfy`, module `Messages`. A message reduced to what flow control
  reads of it, and the version-dependent byte cost `msgBodySize`.
- `reading_capacity.dfy`, module `CapacityAccounting`. The reading-capacity
  value and the invariant that ties it to its limit. Lock and release are
  written as functions on that value. Lemmas cover one call, batches of calls
  and arbitrary call sequences that pass every fatal check.
- `flow_control_capacity.dfy`, module `FlowControl`. The tracker as a class.
  A `const` holds its variant. The fields `capacity`, `byteLimits` and
  `outbound` are updated in place, and each method's `modifies` frame names
  the only fields it may change. `LockLocalCapacity` and
  `ReleaseLocalCapacity` are proved to change the current capacity exactly as
  `Lock` and `Release` say. `LockOutboundCapacity`, `ReleaseOutboundCapacity`
  and `HandleTxSizeIncrease` change `outbound` and `byteLimits`, which
  `CapacityAccounting` does not cover; their postconditions state the new
  values directly.

The source's fatal `releaseAssert`s become `requires` clauses: the invariant
on entry to a lock, the total budget covering the cost, the invariant on exit
from a release, outbound credit covering a flood send, the grant kind
matching the variant, a non-zero remote overlay version before the byte
variant costs a message (`CanCost`), and a total budget present for the
count variant and absent for the byte variant when asking whether to read
(`CanRead`). Non-fatal rejection of a flood message is the `false`
result of `LockLocalCapacity`. The model keeps the source's ordering quirk:
the total budget is debited before the flood check, so a rejected message
still spends it (`LockDebitsTotal`, `RejectedLockExample`).

`msgBodySize` uses the updated accounting, which does not charge for the type
discriminant, only when BOTH the remote and the local overlay version are at
or above the threshold. If either version is below it, the full size is
charged. Mixed versions therefore use the old regime. The model follows the
code (src/overlay/FlowControlCapacity.cpp:220-229).

## Model

| member | source | states |
|---|---|---|
| `Messages.MsgBodySize` | src/overlay/FlowControlCapacity.cpp:211-230 | The cost never exceeds the serialized size and is short of it by at most the discriminant's size. It equals the full size exactly when either peer is below the threshold version, or when the discriminant has size 0. |
| `Messages.OldRegimeChargesDiscriminant` | src/overlay/FlowControlCapacity.cpp:220-229 | For the same message, the cost under old-regime versions equals the cost under updated versions plus the type discriminant's serialized size. |
| `FlowControl.FlowControlCapacity.ResourceCount` | src/overlay/FlowControlCapacity.cpp:77-83 | The byte variant charges at most the message's serialized size (through `msgBodySize` with the peer's and our version). The count variant charges exactly 1 per message (lines 22-27). Costing in the byte variant needs a non-zero remote version. |
| `FlowControl.FlowControlCapacity.CapacityLimits` | src/overlay/FlowControlCapacity.cpp:29-35 | The limit tracks a total budget exactly for the count variant, whose limit is the configured flood and total reading capacity. The byte variant's limit is its own limit field (lines 71-75), which must carry no total. The limit's values are pinned by the constructors (`capacity == CapacityLimits()`) and by `HandleTxSizeIncrease`. |
| `FlowControl.FlowControlCapacity.Valid` | src/overlay/FlowControlCapacity.cpp:118-134 | The invariant: current capacity within the limit, and the byte variant's limit has no total. It implies a total budget is tracked exactly for the count variant, and that the count variant's counters never exceed its configured capacities. |
| `FlowControl.FlowControlCapacity.HasOutboundCapacity` | src/overlay/FlowControlCapacity.cpp:204-209 | Credit covers the message's cost. For the count variant that is exactly "credit is positive". For the byte variant, credit of at least the message's serialized size always suffices. Needs a costable message (non-zero remote version for the byte variant). |
| `FlowControl.FlowControlCapacity.CanRead` | src/overlay/FlowControlCapacity.cpp:51-57 | The count variant reads iff its total is positive, and requires a tracked total. The byte variant (lines 99-104) always reads, and requires no total. Stated as: reads exactly when the total budget, if tracked, can pay one unit. |
| `FlowControl.FlowControlCapacity.Messages` | src/overlay/FlowControlCapacity.cpp:15-35 | The count-based tracker's limit is the configured flood and total reading capacity. It starts at that limit, satisfies the invariant, and has no outbound credit. |
| `FlowControl.FlowControlCapacity.Bytes` | src/overlay/FlowControlCapacity.cpp:59-75 | The byte-based tracker's limit is the byte budget with no total budget. It starts at that limit, satisfies the invariant, and has no outbound credit. |
| `FlowControl.FlowControlCapacity.LockLocalCapacity` | src/overlay/FlowControlCapacity.cpp:147-176 | Needs the invariant on entry, and a tracked total budget must cover the cost. Only the current capacity changes, exactly as `Lock` says: total debited first, then a flood message is admitted only if the flood budget covers the cost. The invariant holds afterwards. |
| `FlowControl.FlowControlCapacity.ReleaseLocalCapacity` | src/overlay/FlowControlCapacity.cpp:178-202 | Needs the capacity after the release to be within the limit, as the exit check demands. Only the current capacity changes, exactly as `Release` says. The amount returned is the cost for flood messages and 0 otherwise. Afterwards the invariant holds and reading is allowed. |
| `FlowControl.FlowControlCapacity.LockOutboundCapacity` | src/overlay/FlowControlCapacity.cpp:136-145 | A flood message needs `HasOutboundCapacity` (credit at least the cost, lines 204-209) and lowers the credit by exactly its cost. Other messages change nothing. Only the credit can change. |
| `FlowControl.FlowControlCapacity.ReleaseOutboundCapacity` | src/overlay/FlowControlCapacity.cpp:37-49 | The count variant accepts both grant kinds and adds the grant's message count. The byte variant (lines 85-97) accepts only the extended grant and adds its byte count. Credit never decreases, and nothing else changes. |
| `FlowControl.FlowControlCapacity.HandleTxSizeIncrease` | src/overlay/FlowControlCapacity.cpp:106-111 | Byte variant only. The current flood capacity and the flood limit both rise by exactly the increase, nothing else changes, and the invariant is kept. |
| `FlowControl.CanReadGatesLock` | src/overlay/FlowControlCapacity.cpp:51-57 | For the count variant, `canRead` is true exactly when the total budget covers the lock of any message. The byte variant always reads (lines 99-104) and never trips the lock's total-budget check. |
| `CapacityAccounting.WithinLimits` | src/overlay/FlowControlCapacity.cpp:118-134 | Definition of the capacity check: flood at most the limit's flood; a total tracked in the current capacity exactly when tracked in the limit; and when tracked, current total at most the limit's total. Hence any cost the current total can pay, the limit's total can pay too. |
| `CapacityAccounting.Lock` | src/overlay/FlowControlCapacity.cpp:152-175 | The arithmetic of a lock: needs a tracked total to cover the cost, debits it first, then admits a flood message only if flood covers the cost. A lock never raises either counter and keeps whether a total is tracked. |
| `CapacityAccounting.Release` | src/overlay/FlowControlCapacity.cpp:182-201 | The arithmetic of a release: credits a tracked total and, for flood messages, the flood budget. It never lowers either counter, keeps whether a total is tracked, and returns at most the cost. |
| `CapacityAccounting.LockKeepsLimits` | src/overlay/FlowControlCapacity.cpp:118-134 | Locking from a state within the limits leaves a state within them. |
| `CapacityAccounting.LockVerdict` | src/overlay/FlowControlCapacity.cpp:159-175 | A non-flood message is always admitted. A flood message is admitted iff the flood budget covers its cost. An admitted flood message lowers flood capacity by exactly its cost. A rejected message or a non-flood message leaves flood capacity unchanged. |
| `CapacityAccounting.LockDebitsTotal` | src/overlay/FlowControlCapacity.cpp:152-157 | Locking keeps a total budget present exactly when it was. When present, the total drops by exactly the cost, whatever the verdict. |
| `CapacityAccounting.RejectedLockExample` | src/overlay/FlowControlCapacity.cpp:152-165 | Total 100, flood 5, a flood message costing 10: the lock is refused and leaves total 90, flood 5. |
| `CapacityAccounting.ReleaseCredits` | src/overlay/FlowControlCapacity.cpp:178-202 | Release adds the cost to a tracked total. It adds the cost to flood capacity only for flood messages, and returns the cost for flood messages and 0 otherwise. |
| `CapacityAccounting.LockReleaseRoundTrip` | src/overlay/FlowControlCapacity.cpp:147-202 | Releasing an admitted message restores the capacity exactly. The flood credit it returns is what the lock took from the flood budget. |
| `CapacityAccounting.LockAllDebits` | src/overlay/FlowControlCapacity.cpp:147-176 | Locking a batch that is admitted throughout lowers flood capacity by the batch's flood cost. It lowers a tracked total by the batch's whole cost. |
| `CapacityAccounting.ReleaseAllCredits` | src/overlay/FlowControlCapacity.cpp:178-202 | Releasing a batch raises flood capacity by the batch's flood cost and a tracked total by its whole cost. The returned flood amounts add up to the flood cost. |
| `CapacityAccounting.LockAllReleaseAllRoundTrip` | src/overlay/FlowControlCapacity.cpp:147-202 | Locking an admitted batch and then releasing it restores the capacity exactly. The releases return the batch's flood cost in total. |
| `CapacityAccounting.ReplayKeepsLimits` | src/overlay/FlowControlCapacity.cpp:118-134 | Start within the limits and run any sequence of locks and releases that passes every fatal check. It ends within the limits. |
| `CapacityAccounting.ReplayLocks` | src/overlay/FlowControlCapacity.cpp:147-157 | From a state within the limits, a batch of locks whose total cost a tracked total covers trips no check. It reaches the capacity `LockAll` computes. |
| `CapacityAccounting.ReplayReleases` | src/overlay/FlowControlCapacity.cpp:178-202 | A batch of releases that ends within the limits trips no exit check along the way. |
| `CapacityAccounting.LockThenReleaseNeverAborts` | src/overlay/FlowControlCapacity.cpp:147-202 | From a state within the limits, locking an admitted batch and then releasing it trips no fatal check. It ends at the starting capacity. |

## Left out

- Logging (`CLOG_DEBUG`) and the profiling zones. They have no functional effect, so the branches that only log are not modelled.
- Configuration and overlay-manager lookups become constructor parameters: the configured flood and total reading capacity, the byte budget, and our overlay version.
- Flood classification (`isFloodMessage`), XDR sizes and `FlowControl::getNumMessages` are calls into code not part of this model. A message carries them as fields: `isFlood`, `xdrSize`, `typeSize` and the grant's magnitudes. `NumMessages` assumes `getNumMessages` reads the count of whichever grant kind it is given.
- The value of `FIRST_VERSION_UPDATED_FLOW_CONTROL_ACCOUNTING` is declared in `Peer.h`, which is not part of this model. It is an uninterpreted constant here, known only to be positive, so both accounting regimes are reachable.
- Counters are unbounded naturals. The source's 64-bit unsigned wrap-around and its 32-bit version and increase parameters are not modelled.
- The initial outbound credit of 0 comes from the class declaration in `FlowControlCapacity.h`, which is not part of this model.
- FlowControl.FlowControlCapacity.ReleaseLocalCapacity: requires the invariant on entry, but the source checks it only on exit. Every state the constructors and methods can reach satisfies it.
- FlowControl.FlowControlCapacity.HandleTxSizeIncrease: requires the invariant, which the source does not check. Every state the constructors and methods can reach satisfies it.
- The peer identity (`mNodeID`) is used only in log lines, so it is not modelled.
- `src/test/TestUtils.cpp` and `src/test/TestUtils.h` (clock cranking, application setup, test fixtures) are test plumbing with no flow-control logic.
