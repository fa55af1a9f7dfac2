# Verified model of Quaxar's acquisition, ledger and wire-format core

Quaxar acquires XRP Ledger ledgers from peers, persists them, and serves
queries over them. This project models the parts of it where many small state
changes have to add up to a promise, and proves the promises:

- **Session plan** (`Basics.dfy`, `Identity.dfy`, `Frontier.dfy`, `Session.dfy`,
  `PlanSpec.dfy`, `PlanInvariants.dfy`, `PlanTurns.dfy`, `PlanRuns.dfy`,
  `FrontierRuns.dfy`, `OperationRuns.dfy`, `SessionPlan.dfy`). The
  coordinator-owned plan of one acquisition: a bounded mailbox, a read round
  with a FIFO overflow, a bounded network frontier with a rotating timeout
  cursor, a write-and-fence persistence machine, and a timeout budget. The tree
  engine is adversarial: each of its calls may answer anything. `SessionPlan`
  is the object whose methods update its fields in place; each method is proved
  to do what a function on the plan's state says, and the theorems are about
  every sequence of those operations.
- **Admission gate and mailbox** (`Admission.dfy`). A lock-free reservation
  protocol as a step system in which every atomic instruction of any number of
  callers is one step, and its composition with the mailbox it feeds.
- **Skip lists** (`SkipList.dfy`). The two indexes every ledger carries into
  its own history, and the queries answered from them.
- **Copy-on-write SHAMap** (`CowTrie.dfy`). A radix trie whose inserts copy
  only the path to a key.
- **Path-set codec** (`PathSet.dfy`). The printer and the parser of the "PathSet
  Fields" section of the XRP Ledger serialization format.
- **Service phase and shadow** (`SyncPhase.dfy`, `ShadowSpec.dfy`,
  `ShadowRuns.dfy`, `ShadowPhases.dfy`, `ShadowLatch.dfy`, `ShadowLives.dfy`,
  `ShadowRunner.dfy`). The transition table of the service lifecycle, and the
  event-driven mirror that derives what the coordinator would decide.
- **State batches** (`StateBatch.dfy`). Batches of state-map operations applied
  to copy-on-write forks of the published root, and the ids the forks draw.

Objects the source updates in place are classes (`SessionPlan`,
`SessionMailbox`, `IdCounter`, `ShadowRunner`, `CowSHAMap`, `Ledger`,
`LedgerState`, `TreeRoot`, `CowIds`). Their methods are proved against functions
on values; the properties are lemmas about those functions and about whole runs
of them.

Six properties turned out not to hold as one would expect. Each is kept as the
code has it, with a concrete witness and the exact condition:

- The mailbox's saturating bound test is exact only below the largest 64-bit
  bound (`Mailbox.SaturationAdmitsOverflow`; exact conditions in
  `Mailbox.SaturatingTestExact` and `Mailbox.PushKeepsExact`).
- A parsed path set need not be printable again
  (`PathSets.ParsedSetNotReprintable`; exact conditions in
  `PathSets.ReparsesExactlyWhenTyped`, in `PathSets.RoundTrip` for every set and,
  up to the source's own equality, in `PathSets.RoundTripUpToEquality`).
- A shadow session that ended can come back to life under an adopted key
  (`ShadowPhases.AdoptionRevivesTerminal`; exact condition in
  `ShadowPhases.RevivedExactlyWhen`, and `ShadowRuns.TerminalIsFinal` for runs).
- The shadow takes sessions outside the session phase table: it ends sessions in
  `DurablePending`, and it starts a session over one of the same key
  (`ShadowPhases.RotationRevokesDurable` and
  `ShadowPhases.AdoptionRevivesTerminal`; exact condition in
  `ShadowPhases.LeavesTableExactlyWhen`).
- The shadow can give up a recovery target whose session is alive
  (`ShadowLatch.AdoptionDropsLatch`; exact condition in
  `ShadowLatch.LatchGivenUpExactlyWhen`).
- A failed state batch is visible once copy-on-write ids are used up
  (`StateBatch.FailingShows`; exact condition in
  `StateBatch.AtomicExactlyBelowSaturation`).

## Model

| member | source | states |
|---|---|---|
| Identity.OperationRef.IsExpectedFor | xrpld/acquisition/src/identity.rs:227-232 | a completion is expected if and only if it names the dispatched operation in every field |
| Identity.IdsValid | xrpld/acquisition/src/id.rs:117-128 | no draw ever yields the reserved id 0; every id is a 64-bit value |
| Identity.IdsCountUp | xrpld/acquisition/src/id.rs:117-128 | ids count up one by one to 2^64 - 1 and then start over at 1 |
| Identity.IdsFresh | xrpld/acquisition/src/id.rs:117-128 | any 2^64 - 1 consecutive ids are distinct, and the next one repeats the first |
| Identity.IdCounter.constructor | xrpld/acquisition/src/id.rs:117-121 | a new counter starts at 1 |
| Identity.IdCounter.NextId | xrpld/acquisition/src/id.rs:123-128 | draws exactly the next id of that sequence and advances past the reserved zero |
| Frontiers.RetiredTidy | xrpld/acquisition/src/plan.rs:1712-1748 | retiring resolved needs keeps the frontier tidy: no need tracked twice, unemitted an ordered sub-list of retained, the hash view exact, the cursor in range, at most 768 retained |
| Frontiers.RetiredExactly | xrpld/acquisition/src/plan.rs:1709-1732 | retirement removes exactly the resolved needs from the three queues; another need with the same hash stays |
| Frontiers.RetireOneInPlace | xrpld/acquisition/src/plan.rs:1723-1732 | retiring one retained need cuts out its own place and leaves the order of the rest and the backlog alone |
| Frontiers.QueueKeeps | xrpld/acquisition/src/plan.rs:1650-1687 | queueing appends to the backlog, never duplicates, takes only announced needs that are not recent, in their order, and loses none it does not know already |
| Frontiers.EnqueuedTidy | xrpld/acquisition/src/plan.rs:1671-1687 | queueing an announced batch keeps the frontier tidy |
| Frontiers.DispatchedTidy | xrpld/acquisition/src/plan.rs:1689-1707 | dispatching keeps the frontier tidy, moves a prefix of the backlog to the end of retained without reordering, and changes nothing when no slot is free |
| Frontiers.TailDiscardedTidy | xrpld/acquisition/src/plan.rs:792-808 | finishing a lane drops from retained exactly what was never emitted and keeps the frontier tidy |
| Frontiers.EmittedTidy | xrpld/acquisition/src/plan.rs:940-973 | a normal batch is the front of the unemitted queue, of one tree kind, within its size limit, non-empty when there is work, and leaves the frontier tidy |
| Frontiers.RotatedTidy | xrpld/acquisition/src/plan.rs:1055-1068 | the timeout cursor stays in range |
| Frontiers.RecoveryBatchDistinct | xrpld/acquisition/src/plan.rs:1048-1068 | a timeout batch holds min(len, 12) distinct retained needs |
| Frontiers.RecoveryCoversAll | xrpld/acquisition/src/plan.rs:1048-1068 | on an unchanged frontier of any length and from any cursor, ceil(len / 12) consecutive timeout batches retry every retained need |
| PlanInvariants.NewPlanOk | xrpld/acquisition/src/plan.rs:700-725 | a new plan satisfies the plan invariant |
| PlanInvariants.DrainedKeeps | xrpld/acquisition/src/plan.rs:1136-1164 | draining the read backlog stays within the cap, submits each read under a fresh operation in counter order, and leaves no hash both waiting and in flight |
| PlanInvariants.DrainedKeys | xrpld/acquisition/src/plan.rs:1136-1164 | draining forgets no read hash |
| PlanInvariants.AdmittedKeeps | xrpld/acquisition/src/plan.rs:1750-1778 | admitting announced reads stays within the cap, mints fresh operations in counter order, and leaves no hash both waiting and in flight |
| PlanInvariants.AdmittedKeys | xrpld/acquisition/src/plan.rs:1750-1778 | after admission every announced hash is in flight or waiting, and nothing else joined |
| PlanInvariants.DeferredKeeps | xrpld/acquisition/src/plan.rs:1623-1645 | reads deferred behind an incremental write are all kept, once each, behind those already waiting |
| PlanInvariants.ProbedKeeps | xrpld/acquisition/src/plan.rs:1070-1117 | a reprobe batch mints fresh recovery operations in counter order and adds no other recovery read |
| PlanInvariants.ScoresMerge | xrpld/acquisition/src/plan.rs:634-654 | crediting keeps each peer's best score; neither the order nor the repetition of packets matters |
| PlanInvariants.PacketsFed | xrpld/acquisition/src/plan.rs:1186-1195 | feeding takes the oldest packets, one per answer, leaves the rest in order, and keeps the mailbox counters exact |
| PlanTurns.TurnMail | xrpld/acquisition/src/plan.rs:1186-1195 | a whole turn only ever takes the oldest packets and keeps the mailbox counters exact |
| PlanTurns.AtEngineKeeps | xrpld/acquisition/src/plan.rs:1186-1224 | up to the engine call a round touches only mailbox, scores and lanes; the frontier changes only by being dropped for a fresh scan |
| PlanTurns.EngineOnlyWhenQuiescent | xrpld/acquisition/src/plan.rs:1122-1265 | in every turn from every well-formed state the engine is advanced only while nothing is cancelled, being written, being read, or backlogged; at most four times; and the run counter counts exactly those calls |
| PlanTurns.NoAnnouncedWorkLost | xrpld/acquisition/src/plan.rs:1294-1371 | for whatever the engine announces in each call of a turn, every network need is afterwards retained, backlogged or suppressed as recent, and every read hash in flight or waiting, also when an incremental write takes the turn over |
| PlanTurns.RunTurnFacts | xrpld/acquisition/src/plan.rs:1122-1376 | every turn keeps the plan invariant, draws exactly the ids its result carries, puts reads in flight exactly as requested, adds exactly the announced reads to those owed, moves the frontier by retiring, queueing and dispatching a prefix only, and leaves a write pending exactly when it hands out a batch, with a fence only for a complete tree |
| PlanRuns.RunOk | xrpld/acquisition/src/plan.rs:658-1820 | every state any sequence of operations reaches, with any engine answers and any completions, satisfies the plan invariant: tidy frontier of at most 768 retained needs, reads within the cap and never both waiting and in flight |
| PlanRuns.IdsAgree | xrpld/acquisition/src/plan.rs:584-594 | the ids a turn or a reprobe consumes are exactly the ones the shared counter advances by |
| PlanRuns.DeadStaysDead | xrpld/acquisition/src/plan.rs:990-1033 | a cancelled plan with nothing in flight stays so, whatever is asked of it: turns are idle, reprobes and batches empty |
| PlanRuns.DeadRejects | xrpld/acquisition/src/plan.rs:1382-1538 | such a plan answers every read, write and fence completion with stale and does not change |
| PlanRuns.StaleAfterCancel | xrpld/acquisition/src/plan.rs:990-1029 | in every run, once the plan was cancelled or terminalized, it is dead at every later moment |
| PlanRuns.TimeoutBudget | xrpld/acquisition/src/plan.rs:1540-1559 | in every run a plan has given up if and only if its no-progress intervals exceed the budget; progress never refunds one, and the largest 32-bit budget is never exceeded |
| PlanRuns.MailboxStaysExact | xrpld/acquisition/src/plan.rs:410-488 | in every reachable plan the mailbox counters are the sums over its queued packets and within bounds |
| FrontierRuns.StepExplained | xrpld/acquisition/src/plan.rs:775-1748 | every public operation changes the queues and the recent set exactly as its observable effect says: needs retired or dropped, announced, dispatched, sent |
| FrontierRuns.BacklogIsOneBatch | xrpld/acquisition/src/plan.rs:665-668 | in every reachable state the network backlog is an ordered part of the batch the engine announced last, and at most 768 needs are retained |
| FrontierRuns.FrontierIsOwed | xrpld/acquisition/src/plan.rs:1671-1732 | in every reachable state retained and backlogged needs are exactly those announced since the last fresh scan, not suppressed as recent, and not yet retired or discarded: none lost, none invented |
| FrontierRuns.NeverSentTwice | xrpld/acquisition/src/plan.rs:820-852 | in every run, between two clears of the recent set, normal batches never emit the same exact need twice |
| FrontierRuns.BatchesFollowDispatch | xrpld/acquisition/src/plan.rs:940-973 | within a frontier epoch the normal batches, concatenated and followed by what is still to be sent, are the dispatched needs in dispatch order with only retired or discarded needs missing |
| OperationRuns.AcceptedAsIssued | xrpld/acquisition/src/plan.rs:1378-1538 | in every run, with no bound on its length, each operation is accepted or in flight at most as often as it was issued |
| OperationRuns.IssuedRise | xrpld/acquisition/src/plan.rs:1145-1157 | until the 64-bit counter wraps, the operations a plan issues carry strictly rising ids through the whole run |
| OperationRuns.AcceptedAtMostOnce | xrpld/acquisition/src/plan.rs:1378-1538 | until the 64-bit counter wraps, every operation is accepted at most once, only if it was issued, and is then no longer in flight |
| OperationRuns.DurableInOrder | xrpld/acquisition/src/plan.rs:1450-1538 | in every run a durable plan went through, in this order and with no cancellation in between: a complete tree with its final batch, exactly that write taken by the plan as the acceptance of its final batch, exactly that fence passed and answered as durable; the intermediate persistence states are backed in the same way |
| OperationRuns.ReadsAreOwed | xrpld/acquisition/src/plan.rs:1378-1448 | in every reachable state the reads in flight and waiting are exactly those announced and not yet settled by their own completion, suspension or cancellation |
| SessionPlans.SessionPlan.constructor | xrpld/acquisition/src/plan.rs:702-725 | builds an empty plan that satisfies the plan invariant |
| SessionPlans.SessionPlan.RefreshPendingNetwork | xrpld/acquisition/src/plan.rs:1734-1740 | rebuilds the hash view of retained and backlog and nothing else |
| SessionPlans.SessionPlan.NormalizeCursor | xrpld/acquisition/src/plan.rs:1742-1748 | brings the timeout cursor back in range and nothing else |
| SessionPlans.SessionPlan.RetireNetworkResolutions | xrpld/acquisition/src/plan.rs:1712-1721 | removes exactly the resolved needs from the three queues |
| SessionPlans.SessionPlan.EnqueueNetworkFrontier | xrpld/acquisition/src/plan.rs:1674-1687 | loop: the backlog grows by the announced needs that are neither recent nor known |
| SessionPlans.SessionPlan.DispatchNetworkBacklog | xrpld/acquisition/src/plan.rs:1693-1707 | loop: moves into retained and unemitted as many backlogged needs as slots are free, and returns exactly those |
| SessionPlans.SessionPlan.DiscardUnrequestedTail | xrpld/acquisition/src/plan.rs:792-811 | drops what was never emitted |
| SessionPlans.SessionPlan.ResetNetworkEpoch | xrpld/acquisition/src/plan.rs:854-860 | empties the frontier and rewinds the cursor |
| SessionPlans.SessionPlan.TakeNextNormalNetworkBatch | xrpld/acquisition/src/plan.rs:947-973 | returns and removes the front of the unemitted queue, one kind, within the limit, and remembers its hashes as recent; a cancelled plan or a zero limit changes nothing |
| SessionPlans.SessionPlan.NextTimeoutRecoveryBatch | xrpld/acquisition/src/plan.rs:1055-1068 | returns the retained needs from the cursor on, wrapping around, and rotates the cursor |
| SessionPlans.SessionPlan.SubmitRead | xrpld/acquisition/src/plan.rs:1145-1158 | puts one read in flight under an operation of two fresh ids |
| SessionPlans.SessionPlan.DrainReadBacklog | xrpld/acquisition/src/plan.rs:1136-1164 | loop: submits waiting reads in order while the cap allows |
| SessionPlans.SessionPlan.AdmitReads | xrpld/acquisition/src/plan.rs:1752-1778 | loop: submits announced reads up to the cap, queues the overflow, skips those in flight |
| SessionPlans.SessionPlan.DeferReadsAfterIncrementalWrite | xrpld/acquisition/src/plan.rs:1627-1645 | loop: keeps announced reads behind an incremental write, each once |
| SessionPlans.SessionPlan.ReprobeNetworkBatch | xrpld/acquisition/src/plan.rs:1075-1117 | loop: a fresh recovery read for each need not already probed, within the cap; refused while cancelled, persisting, unrooted or without a sequence |
| SessionPlans.SessionPlan.FindRead | xrpld/acquisition/src/plan.rs:1388-1396 | search: the first pending hash, in hash order, dispatched as exactly this operation |
| SessionPlans.SessionPlan.FeedPackets | xrpld/acquisition/src/plan.rs:1186-1195 | loop: feeds at most four queued packets, stopping at an empty mailbox or a missing engine |
| SessionPlans.SessionPlan.CreditPeers | xrpld/acquisition/src/plan.rs:1196-1224 | keeps each peer's best score; a drained mailbox turns scores into reply lanes, and the first lane drops the frontier for a fresh scan |
| SessionPlans.SessionPlan.WriteIncrementally | xrpld/acquisition/src/plan.rs:1294-1348 | keeps the announced reads or needs and hands out a batch without fence, or an invalid turn when the sequence is missing or zero |
| SessionPlans.SessionPlan.Complete | xrpld/acquisition/src/plan.rs:1783-1820 | hands out the final batch with fresh write and fence operations, or an invalid turn when the sequence is missing or zero |
| SessionPlans.SessionPlan.RespondTo | xrpld/acquisition/src/plan.rs:1349-1374 | answers each engine outcome: go on, yield, admit reads, queue and dispatch needs, complete, or invalid |
| SessionPlans.SessionPlan.RunRound | xrpld/acquisition/src/plan.rs:1181-1375 | one pass of the turn's loop |
| SessionPlans.SessionPlan.RunTurn | xrpld/acquisition/src/plan.rs:1122-1376 | the whole turn: refuses while cancelled, persisting or reading; drains reads; dispatches the backlog; then at most four rounds; every invariant of the plan is kept |
| SessionPlans.SessionPlan.OnRead | xrpld/acquisition/src/plan.rs:1382-1448 | a read or recovery completion settles exactly its own entry, retires the exact recovered need when it attached, and notes progress only for attached edges; anything else is stale |
| SessionPlans.SessionPlan.OnWrite | xrpld/acquisition/src/plan.rs:1454-1507 | an exact write completion moves an incremental write back to idle and a final write to its fence; failure and cancellation end it; anything else is stale |
| SessionPlans.SessionPlan.OnDurability | xrpld/acquisition/src/plan.rs:1512-1538 | only the exact pending fence makes the plan durable or failed; anything else is stale |
| SessionPlans.SessionPlan.OnTimeout | xrpld/acquisition/src/plan.rs:1545-1559 | counts a no-progress interval, saturating, and cancels beyond the budget |
| SessionPlans.SessionPlan.FinishNetworkLane | xrpld/acquisition/src/plan.rs:775-790 | pops a lane and drops what was never emitted; nothing without a lane |
| SessionPlans.SessionPlan.BeginTimeoutScan | xrpld/acquisition/src/plan.rs:820-845 | clears the recent set and queues a timeout lane and one lane per added peer |
| SessionPlans.SessionPlan.InstallEngine | xrpld/acquisition/src/plan.rs:874-880 | installs an engine only in a live plan that has none |
| SessionPlans.SessionPlan.PushPacket | xrpld/acquisition/src/plan.rs:884-886 | accepts a packet exactly when the mailbox has room for it |
| SessionPlans.SessionPlan.SuspendForDormancy | xrpld/acquisition/src/plan.rs:979-985 | drops the identities of all reads in flight and nothing else |
| SessionPlans.SessionPlan.TerminalizeRetainingEngine | xrpld/acquisition/src/plan.rs:1014-1029 | drops every permit and queue, keeping the engine |
| SessionPlans.SessionPlan.Cancel | xrpld/acquisition/src/plan.rs:994-1010 | drops every permit and queue and the engine |
| SessionPlans.SessionPlan.TakeNoProgressInterval | xrpld/acquisition/src/plan.rs:1045-1047 | reports and consumes the interval's progress bit |
| SessionPlans.SessionPlan.NoteUsefulPeer | xrpld/acquisition/src/plan.rs:813-818 | keeps a peer's best score |
| Admission.ActIsExact | xrpld/acquisition/src/ingress.rs:411-472 | each atomic step moves each counter by exactly what its activity gains or gives up; nothing wraps |
| Admission.RunConserves | xrpld/acquisition/src/ingress.rs:405-472 | in every interleaving of any number of callers each counter equals the sum over reservations in progress and leases not yet released, and stays within its budget |
| Admission.QuiescentIsEmpty | xrpld/acquisition/src/ingress.rs:405-472 | when every caller has finished, both counters are zero |
| Admission.NoLeak | xrpld/acquisition/src/ingress.rs:167-216 | after any interleaving, letting every activity finish returns the whole budget |
| Admission.ReleasedOnce | xrpld/acquisition/src/ingress.rs:167-216 | in every interleaving a lease is released exactly once if its release has started and never otherwise, whichever of settle and drop wins |
| Admission.LeaseIdsUnique | xrpld/acquisition/src/ingress.rs:411-437 | in every interleaving shorter than the 64-bit counter no two leases share an id |
| Admission.TryReserveAdmits | xrpld/acquisition/src/ingress.rs:411-437 | an uncontended reservation is admitted exactly when both amounts fit, a packet count of zero counting as one; a deferred one leaves the counters and the id counter as they were |
| Mailbox.SaturatingTestExact | xrpld/acquisition/src/plan.rs:435-449 | finding: the saturating bound test is the exact one for every amount if and only if the bound is below 2^64 - 1 or nothing is counted yet |
| Mailbox.PushKeepsExact | xrpld/acquisition/src/plan.rs:435-449 | pushing keeps the counters equal to the sums over queued leases and within bounds if and only if the packet is refused or truly fits; below the largest bounds the test accepts exactly what truly fits |
| Mailbox.SaturationAdmitsOverflow | xrpld/acquisition/src/plan.rs:435-449 | finding: under the largest bound, with one packet queued, a lease of the largest amount is admitted although it does not fit, and the counter wraps to zero while both are queued |
| Mailbox.SessionMailbox.constructor | xrpld/acquisition/src/plan.rs:423-431 | an empty mailbox with exact counters |
| Mailbox.SessionMailbox.Push | xrpld/acquisition/src/plan.rs:435-449 | appends a packet exactly when the test accepts it and otherwise changes nothing; exact counters stay exact if and only if it is refused or truly fits, which below the largest bounds is always |
| Mailbox.SessionMailbox.PopFront | xrpld/acquisition/src/plan.rs:451-461 | removes the oldest packet and gives its amounts back; exact counters stay exact |
| Mailbox.SessionMailbox.Clear | xrpld/acquisition/src/plan.rs:483-487 | empties the mailbox and zeroes the counters |
| Mailbox.PushNeverFails | xrpld/acquisition/src/plan.rs:435-449 | a live packet of a gate with the same budget always fits, because what the mailbox holds is part of what the gate granted |
| Mailbox.RunsNeverRefuse | xrpld/acquisition/src/ingress.rs:253-298 | in every run of one gate and its mailbox, queued packets are distinct consumed leases, the counters are their sums, and no push of a live packet is refused |
| SkipLists.WindowGrows | xrpld/ledger/src/lib.rs:2688-2731 | appending the parent hash slides the window, which was never over-full, to exactly the last min(256, n) ancestors |
| SkipLists.BlocksGrow | xrpld/ledger/src/lib.rs:2650-2686 | appending keeps every block list exactly the multiples of 256 of its block, in order, and never over-full |
| SkipLists.Ledger.Genesis | xrpld/ledger/src/lib.rs:686-725 | the first ledger of a chain has no lists |
| SkipLists.Ledger.FromPrevious | xrpld/ledger/src/lib.rs:776-812 | a child shares its parent's lists until its own update |
| SkipLists.Ledger.UpdateSkipList | xrpld/ledger/src/lib.rs:2629-2731 | one update makes both lists index every ancestor; the size assertions cannot fire |
| SkipLists.Ledger.HashOfSeq | xrpld/ledger/src/lib.rs:2502-2627 | answers with the true ancestor hash if the ancestor is at most 256 back or on a multiple of 256, and with nothing otherwise |
| SkipLists.CloseChild | xrpld/app/src/bootstrap/build_ledger.rs:449-460 | building a child and updating its lists keeps them exact |
| SkipLists.GrowChain | xrpld/app/src/bootstrap/build_ledger.rs:449-460 | for every chain from its first ledger the tip's lists index the whole chain |
| SkipLists.LedgerRequest | xrpld/rpc/src/state/context.rs:449-489 | every past sequence of a fresh validated ledger is resolved in at most two lookups to the true ancestor, or to the 256-boundary ledger still to be fetched; too small is answered exactly for sequence zero, not synced exactly for a missing or stale validated ledger, too large exactly for a sequence not yet past, and not found never |
| CowTrie.PathIsKey | xrpl/shamap/src/cow_shamap.rs:63-126 | sixty-four branches determine a key |
| CowTrie.SplitIsAboveBottom | xrpl/shamap/src/cow_shamap.rs:92-120 | splitting two different keys ends above depth 64, so every key access is in bounds |
| CowTrie.InsertSetsLeaf | xrpl/shamap/src/cow_shamap.rs:63-126 | the leaves after an insert are the old leaves with the key's entry set, and nothing else |
| CowTrie.LeafOnPath | xrpl/shamap/src/cow_shamap.rs:63-126 | every leaf lies on the nibble path of its own key |
| CowTrie.OffPathShared | xrpl/shamap/src/cow_shamap.rs:50-126 | every subtree off the key's path is the very same one as before |
| CowTrie.InsertCanonical | xrpl/shamap/src/cow_shamap.rs:63-126 | below the root, inserting into the canonical trie of a map gives the canonical trie of the updated map |
| CowTrie.SplitCanonical | xrpl/shamap/src/cow_shamap.rs:92-120 | splitting a leaf gives the canonical trie of the two entries |
| CowTrie.InsertCanonicalInner | xrpl/shamap/src/cow_shamap.rs:63-126 | the same at every inner node, the root included |
| CowTrie.CanonicalInnerHolds | xrpl/shamap/src/cow_shamap.rs:58-61 | the canonical trie holds exactly the entries of its map |
| CowTrie.BuiltIsCanonical | xrpl/shamap/src/cow_shamap.rs:58-126 | every trie built by inserts is the canonical trie of the map those inserts write |
| CowTrie.OrderIsIrrelevant | xrpl/shamap/src/cow_shamap.rs:58-126 | two insert sequences build the same trie if and only if they write the same final map |
| CowTrie.InsertsCommute | xrpl/shamap/src/cow_shamap.rs:58-126 | inserts of distinct keys commute; a second insert of a key only replaces its leaf |
| CowTrie.CowSHAMap.constructor | xrpl/shamap/src/cow_shamap.rs:42-46 | an empty map is canonical |
| CowTrie.CowSHAMap.Fork | xrpl/shamap/src/cow_shamap.rs:50-54 | a fork starts with the same contents |
| CowTrie.CowSHAMap.Insert | xrpl/shamap/src/cow_shamap.rs:58-61 | insert refines map update on the contents |
| PathSets.Inferred | xrpl/protocol/src/st_path_set.rs:109-143 | the type byte flags account and issuer exactly when non-zero, a currency when forced or not XRP, and an MPT always |
| PathSets.ReadsWhole | xrpl/protocol/src/st_path_set.rs:363-533 | a non-empty set of non-empty paths whose type bytes are non-zero and free of undefined bits is read to exactly its end, each element as the parser infers it from its flagged values |
| PathSets.RoundTrip | xrpl/protocol/src/st_path_set.rs:363-533 | a printable set survives printing and parsing byte for byte, whatever follows, if and only if it and its paths are non-empty and every type byte is the inferred one and non-zero |
| PathSets.RoundTripUpToEquality | xrpl/protocol/src/st_path_set.rs:240-533 | a printable set is read back equal, as the source compares elements, if and only if the parser reads it to its end and every element flags all values it holds and no zero account |
| PathSets.PrintInjective | xrpl/protocol/src/st_path_set.rs:494-533 | printing is injective on sets that survive byte for byte, even as a prefix of longer data |
| PathSets.ParseShape | xrpl/protocol/src/st_path_set.rs:363-424 | whatever the bytes, a successful parse holds non-empty paths of inferred elements |
| PathSets.DefectStopsEarly | xrpl/protocol/src/st_path_set.rs:363-533 | an element with a zero type byte or undefined bits, or an empty path, makes the parse fail or end before the printed set ends |
| PathSets.UnreadableFails | xrpl/protocol/src/st_path_set.rs:363-533 | so no other printable set is read to its end |
| PathSets.ReparsesExactlyWhenTyped | xrpl/protocol/src/st_path_set.rs:363-533 | finding, exact condition: whatever bytes the parser accepts, printing the set and parsing again gives the same set if and only if no parsed element has the type byte zero |
| PathSets.ParsedSetNotReprintable | xrpl/protocol/src/st_path_set.rs:363-533 | finding: the parser accepts a flagged zero account, and the set it yields prints to bytes the parser rejects |
| PathSets.AddElement | xrpl/protocol/src/st_path_set.rs:505-528 | appends exactly the printed element |
| PathSets.AddPath | xrpl/protocol/src/st_path_set.rs:502-529 | loop: appends exactly the printed path |
| PathSets.Add | xrpl/protocol/src/st_path_set.rs:494-533 | loop: prints the set with boundary and end markers |
| PathSets.FromSerial | xrpl/protocol/src/st_path_set.rs:363-424 | loop: parses a set, with the three malformed cases as results |
| SyncPhases.AnchorStep | xrpld/acquisition/src/phase.rs:148-209 | one fact in Syncing keeps the target hash and at most adds an unknown sequence |
| SyncPhases.AnchorIsStable | xrpld/acquisition/src/phase.rs:148-209 | in every fact sequence that stays in Syncing the target hash is constant and its sequence only goes from unknown to known |
| SyncPhases.FullIsEarned | xrpld/acquisition/src/phase.rs:148-209 | from Disconnected every phase is backed by the history that leads there; Full needs availability, then an LCL install or reconcile, then contiguity, with nothing in between that takes any of it back |
| SyncPhases.StoppingIsFinal | xrpld/acquisition/src/phase.rs:148-209 | no fact leaves Stopping |
| ShadowRuns.InsertedIs | xrpld/acquisition/src/shadow.rs:854-870 | inserting keeps the mirror strictly ordered by session and replaces at most an entry of the same key |
| ShadowRuns.EvictedIs | xrpld/acquisition/src/shadow.rs:2062-2068 | eviction leaves room for one more and keeps the order |
| ShadowRuns.AcquireMoves | xrpld/acquisition/src/shadow.rs:788-891 | acquiring reuses or starts one session, keeps the mirror ordered, bounded and consistent, and with usable peers leaves a live session for the target |
| ShadowRuns.OfSessionMoves | xrpld/acquisition/src/shadow.rs:987-1467 | an event about one session changes at most that session's entry, by a legal step for that very event, and leaves exactly one observation |
| ShadowRuns.DerivedMoves | xrpld/acquisition/src/shadow.rs:571-699 | deriving any event evolves each tracked session, starts at most one, and keeps the mirror and the recovery latch consistent |
| ShadowRuns.ReconcileMoves | xrpld/acquisition/src/shadow.rs:941-985 | reconciling leaves a recovery owner that is tracked, live and for the latched target, or none |
| ShadowRuns.RecordMoves | xrpld/acquisition/src/shadow.rs:571-716 | every record keeps mirror, recovery latch and owner consistent, starts at most two sessions, and moves the anchor only when it must |
| ShadowRuns.RunsKeepMirror | xrpld/acquisition/src/shadow.rs:571-716 | in every run the mirror is strictly ordered and bounded, every entry's outcome is present exactly when its phase is terminal and agrees with it, and its key carries its target hash |
| ShadowRuns.RecoveryOwnerIsLive | xrpld/acquisition/src/shadow.rs:893-985 | after every recorded event, whatever came before, and at every moment of a run without adoptions, a stored recovery owner is a tracked live session for the latched target; a stored candidate is for another hash |
| ShadowRuns.AnchorMovesOnlyWhenLost | xrpld/acquisition/src/shadow.rs:1507-1530 | outside a startup seed the anchor hash changes during Syncing only when no viable session for it remains and the latest consensus target, the new anchor, has one |
| ShadowRuns.TrailGrows | xrpld/acquisition/src/shadow.rs:2073-2107 | recording only appends observations |
| ShadowRuns.TerminalIsFinal | xrpld/acquisition/src/shadow.rs:545-1339 | before the id counter wraps, a session seen terminal whose key is of another run or plan or already counted is never seen in another phase or with another outcome, not even under a reused key after eviction, whatever else is adopted, unless its own key is adopted again after the eviction |
| ShadowRuns.IdsStayBelow | xrpld/acquisition/src/shadow.rs:545-565 | as long as every adopted key is of another run or plan or already counted, so is every tracked key, in every run before the id counter wraps |
| ShadowPhases.EventStays | xrpld/acquisition/src/shadow.rs:571-699 | an event that asks for no ledger keeps every session at its place and for its hash, in the phase a function of entry and event tells |
| ShadowPhases.EventLeavesTable | xrpld/acquisition/src/shadow.rs:571-699 | an event that asks for no ledger keeps every session at its place, and takes it outside the session phase table if and only if the session is in DurablePending and the event is a newer store, a shutdown, a failed or cancelled write of that session or a failed fence of that session |
| ShadowPhases.ReconcileMirror | xrpld/acquisition/src/shadow.rs:941-985 | reconciling starts a session exactly when the latched target, or the candidate taking the place of an ended owner, has no live owner and peers are usable, and otherwise leaves the mirror alone |
| ShadowPhases.RecordEntries | xrpld/acquisition/src/shadow.rs:571-716 | after any record every tracked session carries a key the record starts, and is new, or follows one tracked before; every key it starts is tracked |
| ShadowPhases.LeavesTableExactlyWhen | xrpld/acquisition/src/session.rs:188-202 | finding, exact condition: a step takes a tracked session outside the session phase table if and only if it starts a session under the same key while the old one is neither Active nor Dormant, or starts none there and its event revokes a session in DurablePending |
| ShadowPhases.ContinuesExactlyWhen | xrpld/acquisition/src/shadow.rs:788-891 | what is tracked after a step under a key tracked before continues the old session if and only if the step starts no session under that key or the old one was no further than a new one |
| ShadowPhases.RevivedExactlyWhen | xrpld/acquisition/src/shadow.rs:545-891 | finding, exact condition: a key under which only an ended session is tracked, or nothing any more, shows anything else after a step if and only if the step starts a session under it or adopts it |
| ShadowPhases.AdoptionRevivesTerminal | xrpld/acquisition/src/shadow.rs:545-565 | finding: with an adoption a failed mirror session becomes active again, because a later acquisition mints the adopted key |
| ShadowLatch.SurvivesExactlyWhen | xrpld/acquisition/src/shadow.rs:571-891 | deriving any event leaves a live session under a key if and only if it starts one there, or one was alive and the event neither ends nor evicts it, told from the state before |
| ShadowLatch.LatchGivenUpExactlyWhen | xrpld/acquisition/src/shadow.rs:893-985 | finding, exact condition: a record gives up a latched recovery target if and only if it has a stored owner and no live session survives under the owner's key: it had ended, was evicted or renamed before, or the event ends or evicts it; the candidate then takes its place |
| ShadowLatch.AdoptionDropsLatch | xrpld/acquisition/src/shadow.rs:545-957 | finding: in a run from the new shadow an adoption renames the owner, and the next heartbeat gives the target up while its session is alive |
| ShadowLatch.StartsExactlyWhen | xrpld/acquisition/src/shadow.rs:941-985 | an event that asks for no ledger makes the record start a session if and only if it leaves the latch with a target to own, no live session for it and usable peers, all told from the state before, and exactly under the next key |
| ShadowLives.EveryoneLives | xrpld/acquisition/src/shadow.rs:545-716 | in every run every tracked session has a life: one entry after each input since the record that started its key, each passing into the next by that very input, adoptions only renaming it |
| ShadowLives.DurableInOrder | xrpld/acquisition/src/shadow.rs:1109-1339 | in every run, with any adoptions, a session with the durable outcome was in its life taken from Active to Persisting by its accepted write, to DurablePending by its passed fence and to Complete by its acknowledged handoff, in this order; the intermediate phases are backed in the same way |
| ShadowLives.ExpiresOnlyAfterItsTimer | xrpld/acquisition/src/shadow.rs:520-1505 | in every run, with any adoptions, a session expires idle only after, in its life, an expiry timer was armed for it, that very timer fired while the session waited for it, and a registry sweep found it eligible and not scanning, in this order |
| ShadowPhases.RotationRevokesDurable | xrpld/acquisition/src/shadow.rs:1766-1807 | finding: connected, acquired, written and fenced, a session waits for its handoff, and a store rotation cancels it, which the session phase table forbids |
| ShadowRunners.ShadowRunner.constructor | xrpld/acquisition/src/shadow.rs:489-508 | builds the disconnected, empty, consistent shadow with zero counters |
| ShadowRunners.ShadowRunner.Push | xrpld/acquisition/src/shadow.rs:2073-2107 | appends an observation, moves exactly one counter by one, and keeps the buffer the most recent observations up to its cap |
| ShadowRunners.ShadowRunner.DrainObservations | xrpld/acquisition/src/shadow.rs:729-731 | returns and empties the buffer; the counters stay |
| ShadowRunners.ShadowRunner.ApplyFact | xrpld/acquisition/src/shadow.rs:2022-2040 | moves the phase exactly when the table allows the fact, and says so |
| ShadowRunners.ShadowRunner.MintSession | xrpld/acquisition/src/shadow.rs:2054-2070 | draws the next id and evicts the oldest sessions until one more fits; the eviction never finds the mirror empty |
| ShadowRunners.ShadowRunner.DeriveAcquire | xrpld/acquisition/src/shadow.rs:788-891 | reuses the first live session for the target or starts one, then applies the target fact unless phase-neutral or an LCL is installed |
| ShadowRunners.ShadowRunner.DeriveValidationRecoveryTarget | xrpld/acquisition/src/shadow.rs:893-939 | latches a first target, parks one for another hash as candidate, clears the candidate otherwise |
| ShadowRunners.ShadowRunner.FindOwner | xrpld/acquisition/src/shadow.rs:962-970 | the live session for a hash with the least id, the first in order among equals |
| ShadowRunners.ShadowRunner.ReconcileValidationRecoveryOwner | xrpld/acquisition/src/shadow.rs:941-985 | keeps a live owner; otherwise falls back to the candidate and latches or acquires an owner |
| ShadowRunners.ShadowRunner.HasViable | xrpld/acquisition/src/shadow.rs:1511-1518 | some session for the hash neither failed nor was cancelled |
| ShadowRunners.ShadowRunner.PromoteLatestViableSyncingAnchor | xrpld/acquisition/src/shadow.rs:1507-1530 | moves the anchor to the latest consensus target exactly under its four conditions |
| ShadowRunners.ShadowRunner.DerivePacket | xrpld/acquisition/src/shadow.rs:987-1044 | counts a packet for an active session; stale otherwise |
| ShadowRunners.ShadowRunner.DeriveRead | xrpld/acquisition/src/shadow.rs:1046-1107 | tracks the local scan of an active session; stale otherwise |
| ShadowRunners.ShadowRunner.DeriveWrite | xrpld/acquisition/src/shadow.rs:1109-1206 | an accepted write moves Active to Persisting, failure and cancellation end the session, other acceptances are rejected, late ones stale |
| ShadowRunners.ShadowRunner.DeriveDurability | xrpld/acquisition/src/shadow.rs:1208-1292 | a passed fence moves Persisting to DurablePending, a failed one ends the session, others are rejected or stale |
| ShadowRunners.ShadowRunner.DeriveAck | xrpld/acquisition/src/shadow.rs:1294-1339 | an acknowledgement completes exactly a session in DurablePending |
| ShadowRunners.ShadowRunner.DeriveHandoffRejected | xrpld/acquisition/src/shadow.rs:1344-1368 | changes no session |
| ShadowRunners.ShadowRunner.DeriveTimer | xrpld/acquisition/src/shadow.rs:1370-1467 | only the exact armed expiry timer makes a session sweep-eligible |
| ShadowRunners.ShadowRunner.CancelSelected | xrpld/acquisition/src/shadow.rs:1469-1505 | loop: cancels every selected session with the event's reason and leaves one observation each, in session order |
| ShadowRunners.ShadowRunner.DeriveLclInstalled | xrpld/acquisition/src/shadow.rs:1574-1707 | advances the phase as the table and the sequence allow and cancels the sessions for the installed hash |
| ShadowRunners.ShadowRunner.DerivePublication | xrpld/acquisition/src/shadow.rs:1709-1764 | reaches Full on a fresh publication and only advances it afterwards |
| ShadowRunners.ShadowRunner.DeriveStoreRotation | xrpld/acquisition/src/shadow.rs:1766-1823 | cancels every live session of an older store generation |
| ShadowRunners.ShadowRunner.DeriveShutdown | xrpld/acquisition/src/shadow.rs:1916-1966 | stops the service and cancels every live session |
| ShadowRunners.ShadowRunner.DeriveFetchPack | xrpld/acquisition/src/shadow.rs:1828-1870 | loop: one observation per active session, or one for none |
| ShadowRunners.ShadowRunner.AdoptProductionSession | xrpld/acquisition/src/shadow.rs:545-565 | renames the last live session for the hash to the production key, unless that key is tracked; a consistent mirror stays consistent |
| ShadowRunners.ShadowRunner.ObserveExpiryTimer | xrpld/acquisition/src/shadow.rs:520-543 | the last armed expiry timer replaces the one waited for; a consistent mirror stays consistent |
| ShadowRunners.ShadowRunner.CompareReference | xrpld/acquisition/src/shadow.rs:1968-2016 | categorizes a reference decision by target, outcome and phase, in this order, and changes no session |
| ShadowRunners.ShadowRunner.Record | xrpld/acquisition/src/shadow.rs:571-716 | one event: derive, reconcile the owner, promote the anchor; nothing when disabled; from a consistent mirror it leaves a consistent one whose stored recovery owner is a tracked live session |
| ShadowRunners.InsertedInOrder | xrpld/acquisition/src/shadow.rs:854-870 | loop: the mirror with the entry at its place in session order, in place of one of the same key |
| ShadowRunners.CountsAddUp | xrpld/acquisition/src/shadow.rs:2073-2107 | matches, disagreements and stale events together count every observation ever pushed exactly once |
| ShadowRunners.TallyGrows | xrpld/acquisition/src/shadow.rs:2073-2107 | pushing and trimming at every step keeps the counters exact and the buffer the most recent observations since the last drain, up to its cap |
| StateBatch.LastWriterWins | xrpld/ledger/src/lib.rs:3114-3203 | a batch that succeeds leaves under every key exactly what its last operation on that key says |
| StateBatch.SucceedsIff | xrpld/ledger/src/lib.rs:3114-3203 | a batch succeeds if and only if every walk succeeds and, given the operations before it, every insert finds no item and every update and delete finds one |
| StateBatch.AtomicExactlyBelowSaturation | xrpld/ledger/src/lib.rs:3114-3203 | finding, exact condition: every failed batch leaves whoever holds the root what they saw if and only if the root's copy-on-write id is not the largest 32-bit value; there the fork draws the root's own id and edits it in place |
| StateBatch.FailingShows | xrpld/ledger/src/lib.rs:3114-3203 | finding: over a root of the largest id a batch that deletes one key twice, or inserts one twice into an empty tree, fails and shows its first operation |
| StateBatch.BatchesAreOneFold | xrpld/ledger/src/lib.rs:3114-3203 | as long as no batch meets a root of the largest id, any sequence of batches, with other ledgers forking in between, equals one fold of those that succeed: batch boundaries are invisible and a failed batch leaves nothing behind |
| StateBatch.RoomLasts | xrpld/ledger/src/lib.rs:3130-3148 | starting above every root in use, no batch meets the largest id before as many forks were taken as ids are left |
| StateBatch.WorkedIsFold | xrpld/ledger/src/lib.rs:3159-3188 | a batch that succeeds leaves the fork with its left fold, under the root's id or the fork's |
| StateBatch.CowidsRise | xrpld/ledger/src/lib.rs:3130-3148 | copy-on-write ids rise strictly across all forks, and each lies above the root it forks, exactly until the 32-bit counter saturates |
| StateBatch.CowIds.Allocate | xrpld/ledger/src/lib.rs:3130-3148 | one atomic draw: above the root, and below the next draw, until saturation, where it is the root's own id |
| StateBatch.LedgerState.constructor | xrpld/ledger/src/lib.rs:3133-3137 | both views of a new ledger agree |
| StateBatch.LedgerState.ApplyStateBatch | xrpld/ledger/src/lib.rs:3114-3203 | success publishes the left fold in both views; a failure reports the first error and keeps both views on the same root; a root below the largest id is never written, and one of the largest id shows exactly the operations before the failure |

## Left out

- The tree engine behind a plan: its answers are arguments of a turn (announced work, resolved needs, useful peers, accepted nodes, header sequences), assumed only to announce each read hash once per batch. Which reply peers are selected is an argument too.
- Decoding packets and nodes, durable-ledger hand-over, and the engine's own scan restarts: they do not touch the plan's state.
- The coordinator that owns plans, timers, routes and ports.
- Order of traced side effects: an event's tag, reason and reference fields in a shadow observation are labels and not modelled; the shadow's counters, queue depths and a plan's run counter are unbounded numbers.
- Memory orderings of the admission gate: each atomic instruction is one indivisible step, and all callers see the steps in one order.
- Admission.LeaseIdsUnique: stated for interleavings shorter than the 64-bit id counter, after which ids repeat.
- OperationRuns.AcceptedAtMostOnce: stated up to the wrap of the 64-bit id counter; OperationRuns.AcceptedAsIssued is the statement without that bound.
- OperationRuns.IssuedRise: stated up to the wrap of the 64-bit id counter, where ids start over.
- ShadowRuns.TerminalIsFinal: stated for a key the mirror's own counter can no longer produce and before that counter wraps, since otherwise the key can be minted again; ShadowPhases.RevivedExactlyWhen is the statement of one step without that bound.
- PlanRuns.MailboxStaysExact: needs mailbox bounds below the largest 64-bit value, where the saturating test stops being exact.
- ShadowRunners.ShadowRunner.Record: needs room for at least one session when shadowing is enabled, as the eviction loop does.
- PathSets.RoundTrip: speaks of sets whose asset flags agree with their assets, since the printer has no answer for others.
- Hashes, keys of objects and ledger contents are opaque distinct numbers; equal hashes mean equal histories in SkipLists.LedgerRequest.
- The legacy decoding fallback of ledger skip lists, and ledgers whose transactions touch the skip-list objects.
- SHAMap internals behind state batches: a tree is the map it holds and the id of its root, no node carries a larger id than its root, and a walk that misses a node is an input of the batch, taken to stop its operation before it edits anything.
- The tree type, backing and fullness flags that a state batch carries over unchanged.
- JSON, base58 and hex forms of paths, and path assembly.
- Snapshots, labels, tracing, metrics and configuration.
