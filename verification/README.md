# Verification of the order-book engines and feed adapters

A Dafny model of the parts of the repository that keep state under loss, reordering and
concurrency, with proofs of what they promise. `dafny verify dfyconfig.toml` checks it all.

Six programs are modelled. Where the original updates objects in place there is a class,
and each of its methods is proved to be a step of a value-level specification; the
theorems about runs are about that specification.

* **Market-by-Price bot** (`go/marketbyprice-bot`). `Book`, `InstrumentSpec`, `ShardSpec`
  and `CoordinatorSpec` state what instrument, shard and coordinator do;
  `Instruments`, `Shards` and `Coordinators` are the objects. `Publisher` and `Engine`
  put the engine against a publisher and an environment that loses, duplicates,
  reorders and corrupts. On top: `ShardInvariant` (what every message keeps),
  `CrossedIndex`, `SeriesSafety` and `Safety` (a serving book is the publisher's),
  `Recovery` (the floor), `Service`, `Levels`, `Bootstrap`, `ReorderWindow`, `RefData`,
  `EventLog`, `OpenGroups` (of both bots), `CoordinatorRuns`, `Sharding` and `Deployments`. `Leftovers` and `Limits` hold the properties that fail, with their
  states and their exact conditions.
* **Redundant-feed dedupe** (`rust/adapter/dz-adapter-core/src/threaded.rs`). `Claims` and
  `Generations` are state machines over atomic steps; `Decoders` and `Windows` are the
  objects: claim table, generations, ring of 256 and loop stage.
* **Strike adjacency**. `Datagrams` is the Market-by-Price wire walk, `Strikes` takes it
  through the coordinator to the shard, `TopOfBook` and `Pendings` are the two-goroutine
  parser.
* **AF_XDP receiver** (`go/xdp-receiver`). `Rings` (wrapping counters), `Frames` (user and
  kernel in interleaved steps), `Sockets` (the socket's own methods).
* **Market-by-Order bot** (`go/marketbyorder-bot`). `OrderSpec`, `OrderBooks`,
  `OrderLives`, `OrderWindow`, `OrderBootstrap`, `OrderBuffers`, `OrderChannels`, `OrderRoutes`,
  `DelayedEnds`, and the objects in `Orders`.

Hypotheses, stated once:

* `Engine.EnvRecord` says what may be delivered. A delta is of the instrument's current
  series or stamped at or before its reset's New Anchor Seq. The latter kind, a leftover,
  arrives at an instrument that is ready again only where it is harmless, and
  `Leftovers.HarmlessExactly` says exactly when that is. A reset starts a new series, as
  do a Reset Count change and a prune for what they forget.
* No delta and no snapshot group of a new series arrives before the record that starts
  it, although snapshots come over a port of their own.
* A snapshot port is FIFO, lossy and non-duplicating; groups do not interleave; per
  instrument Snapshot IDs do not repeat and anchors do not go back. Ids of different
  instruments may collide.
* `Intended` mutations let the effect a malformed clear had on the publisher's own book
  be anything at all.
* Strike adjacency assumes that channel, port and sequence number identify a datagram.

Where the code and its comment disagree the model follows the code: a commit on a ready
instrument frees the reorder window although the comment says that none of it could ever
drain (`Limits.FreedWindowCouldDrain` has the exact condition), and a Market-by-Price replay
skips the second of two deltas that share a mktdata seq (`Bootstrap.BootstrapIsLive`).
A Market-by-Order commit keeps the reorder window although nothing in it need be behind the
snapshot (`OrderWindow.LeftoversNarrowTheWindow`).

## Model

| member | source | states |
|---|---|---|
| `Safety.ReadyBookIsThePublishers` | go/marketbyprice-bot/shard.go:272-399 | in every reachable state of any run (deltas lost, duplicated, reordered, malformed; evictions; partial snapshots; socket drops; resets, prunes, barriers, and leftovers from before a reset wherever they are harmless) a ready instrument's book is the publisher's history folded up to exactly its last applied Per-Instrument Seq |
| `Safety.ReadyLevelIsThePublishers` | go/marketbyprice-bot/instrument.go:185-239 | the same price by price, from the series' messages alone: a serving book has at each price of each side what the last message up to its tracker to name or clear that price said of it, or what the series started from; and no zero-quantity level comes of an update |
| `Levels.RunLeaves` | go/marketbyprice-bot/instrument.go:185-301 | after any run of updates and clears a price holds what the last of them to concern it said: its level unless the quantity is zero, nothing after a clear that reaches it; a price none concerns keeps what it held |
| `Safety.StepSafe` | go/marketbyprice-bot/coordinator.go:127-244 | every dispatched record and every socket drop keeps the whole safety invariant of coordinator, ports and shard |
| `Safety.CommittedIsWhole` | go/marketbyprice-bot/instrument.go:372-431 | on a FIFO, lossy, non-duplicating snapshot port, with Snapshot IDs that collide across instruments, a commit only ever happens on the complete level set of the published group, captured in the current series |
| `Safety.CommitsIffWhole` | go/marketbyprice-bot/dispatch.go:186-216 | an open shadow commits exactly when every record of its group was delivered and its Last Instrument Seq reaches the recovery floor |
| `SeriesSafety.ReplaySound` | go/marketbyprice-bot/shard.go:649-671 | replay on a committed snapshot keeps book and tracker the publisher's, whatever leftovers the buffer holds |
| `SeriesSafety.ClassifySound` | go/marketbyprice-bot/shard.go:272-399 | any delta of the series at a ready instrument leaves the book the publisher's at the tracker, through hold, drain, gap and malformed demotion |
| `Book.BookOfListsLast` | go/marketbyprice-bot/instrument.go:338-370 | a snapshot's book has exactly the prices its records name, each at the last level named for it |
| `Book.ClearLeaves` | go/marketbyprice-bot/instrument.go:278-301 | a well-formed clear removes exactly the covered levels and nothing more the second time; one of both whole sides is a clear of each and empties the book |
| `ShardInvariant.CoreKept` | go/marketbyprice-bot/dispatch.go:502-537 | every inbox message keeps: ready means nothing lost, no requirement, known depth bound and no buffered deltas; not ready means an empty window; an open shadow meets the required anchor; buffers sorted, running total exact and within budget |
| `CrossedIndex.EveryRun` | go/marketbyprice-bot/dispatch.go:10-41 | the same over every run of a shard from its start, together with the crossed index |
| `ShardInvariant.ReadyExpectsNext` | go/marketbyprice-bot/instrument.go:535-543 | a ready instrument waits for exactly the seq after its tracker |
| `CrossedIndex.EvictionSparesReady` | go/marketbyprice-bot/shard.go:597-637 | the buffer an overflow evicts never belongs to a ready instrument, and no ready instrument changes |
| `ShardInvariant.InsertIsSplice` | go/marketbyprice-bot/shard.go:571-589 | a splice at the slot any search finds is stable insertion |
| `ShardInvariant.BuffersOk` | go/marketbyprice-bot/shard.go:571-640 | buffering one delta, with the eviction it may cause, keeps order, accounting and budget |
| `ShardInvariant.WindowCount` | go/marketbyprice-bot/shard.go:314-320 | the window never holds more than 16 keys |
| `CrossedIndex.IndexedKept` | go/marketbyprice-bot/dispatch.go:271-342 | after every message, in both evaluation modes, membership in the crossed index is whether the current book is crossed, for every instrument not touched since |
| `CrossedIndex.EvaluatedOrMarked` | go/marketbyprice-bot/dispatch.go:301-342 | an applied delta or snapshot marks its instrument and evaluates nothing while the channel batches, and otherwise evaluates that instrument at once and marks nothing; no other key is affected |
| `CrossedIndex.IndexIsExactBeforeBoundaries` | go/marketbyprice-bot/dispatch.go:301-342 | over any run without a boundary nothing is marked and the index is exactly the instruments whose current book is crossed |
| `CrossedIndex.BatchingSinceBoundary` | go/marketbyprice-bot/dispatch.go:284-330 | over any run a shard batches exactly when a boundary came since the last wipe |
| `Recovery.FloorIsNewestDiscard` | go/marketbyprice-bot/shard.go:337-380 | a demotion from ready sets the recovery floor at exactly the newest seq it discarded or skipped |
| `Recovery.LedgerStep` | go/marketbyprice-bot/instrument.go:440-479 | one message keeps every seq owed at or below the floor; the floor falls only with a commit or when the instrument is forgotten |
| `Recovery.DebtIsCovered` | go/marketbyprice-bot/shard.go:461-491 | over any run, with window gaps, malformed records and evictions all recorded, what was discarded or skipped stays covered by the floor and its instrument is not serving |
| `Recovery.ReturnsOnlyCovered` | go/marketbyprice-bot/instrument.go:391-431 | an instrument returns to ready only through a commit whose Last Instrument Seq covers every seq owed |
| `Service.StopsServingExactly` | go/marketbyprice-bot/dispatch.go:10-41 | an instrument stops serving exactly when its book is reset, wiped or pruned, or a message of its own reports a gap or a malformed record; no overflow of another buffer ever does it |
| `Service.BufferingExactly` | go/marketbyprice-bot/shard.go:571-637 | buffering inserts a delta behind every one not later; only when the budget is spent does a longest buffer, the new delta counted, go as a whole, with its instrument demoted and no other changed |
| `Service.EvictionFloorExactly` | go/marketbyprice-bot/shard.go:597-637 | an evicted instrument waits for a snapshot covering every delta given up, the one after its tracker and its earlier floor, and for nothing above all of those; no other instrument or buffer changes |
| `Service.ResetKeepsTheTail` | go/marketbyprice-bot/dispatch.go:245-276 | a reset starts its instrument afresh and keeps exactly the buffered deltas behind the New Anchor Seq, in order; running total and crossed sets follow |
| `Service.HeldToTheLastReset` | go/marketbyprice-bot/instrument.go:440-465 | over any run an instrument is held to an anchor exactly while a reset of it has not been followed by a commit, a wipe or a prune, and then to the last reset's |
| `Service.MalformedExactly` | go/marketbyprice-bot/shard.go:461-491 | a malformed delta behind the tracker is ignored; one ahead demotes, is the one seq lost and required, and hands each entry of the window to the buffer once |
| `Service.GroupTakenExactly` | go/marketbyprice-bot/dispatch.go:109-149 | which groups an instrument takes: none below its anchor or floor, and while serving only one ahead of its tracker; a declined one changes nothing |
| `Service.AnnouncedOnce` | go/marketbyprice-bot/dispatch.go:10-41 | each trade, definition, reset and boundary is announced once whatever the state, and nothing else announces one |
| `OpenGroups.UnderWayExactly` | go/marketbyprice-bot/dispatch.go:109-228 | over any run an instrument has a snapshot under way exactly since a begin it took that no other replaced and no end, socket drop, reset, wipe or prune closed, and it is that begin's group |
| `Service.CommitStepsBack` | go/marketbyprice-bot/instrument.go:372-431 | a group taken while serving commits after live deltas passed it: book and tracker go back to it, exactly when the tracker had passed its Last Instrument Seq, and the next live delta is not applied |
| `Bootstrap.BootstrapIsLive` | go/marketbyprice-bot/shard.go:649-671 | commit at n and replay of n+1..m ends where live receipt of n+1..m ends, in status, tracker, book, window and events, if and only if the buffered mktdata seqs are distinct |
| `Bootstrap.SnapshotEndBootstraps` | go/marketbyprice-bot/dispatch.go:186-216 | an end whose group is whole, behind it a buffer of deltas its anchor covers and then Last Instrument Seq + 1 onwards in datagrams of their own: the instrument serves at the last of them with all of them applied on the snapshot's book, reports just that, and nothing stays buffered |
| `Bootstrap.SharedDatagramLosesADelta` | go/marketbyprice-bot/shard.go:655-658 | two deltas of one datagram in the buffer: the second is skipped and the instrument serves one behind |
| `ReorderWindow.ReceiveTracks` | go/marketbyprice-bot/shard.go:314-399 | a gap is declared exactly when some delta arrives more than 16 ahead of the first missing seq; until then tracker and window say exactly what was seen, in any order and with duplicates |
| `ReorderWindow.ReorderingIsRepaired` | go/marketbyprice-bot/shard.go:381-398 | any arrival order within the window ends with the in-order book, at m, with an empty window |
| `ReorderWindow.CountFollowsDistance` | go/marketbyprice-bot/shard.go:314-335 | the count test of the window never fires unless the distance test does |
| `EventLog.LogIsFaithful` | go/marketbyprice-bot/dispatch.go:10-41 | folding the returned events over any run reproduces every live book and its tracker: an applied_snapshot stands for the level records handled since the begin the instrument took, applied deltas are contiguous, gap and malformed events change nothing |
| `EventLog.ShadowIsTheWire` | go/marketbyprice-bot/dispatch.go:151-184 | over any run a shadow is exactly the level records handed to it since its begin, in order, and counts them |
| `Deployments.DeploymentIsOneShard` | go/marketbyprice-bot/coordinator.go:127-244 | start any number of shards and feed the coordinator any records and socket drops; however sends and handling interleave over the FIFO inboxes, without overflow, once drained the union of the shards is what one shard under its own coordinator can make of the same input |
| `Deployments.HandledIsQuiet` | go/marketbyprice-bot/shard.go:571-589 | a message handled with room for what it buffers has the one overflow-free result |
| `Deployments.BuffersWithRoom` | go/marketbyprice-bot/shard.go:571-589 | with room nothing is evicted and every delta is inserted |
| `Deployments.ReplaySpillSize` | go/marketbyprice-bot/shard.go:649-671 | a replay buffers again no more than it was given, so a commit never overflows |
| `Deployments.DispatchOrderIsOne` | go/marketbyprice-bot/coordinator.go:127-244 | what a coordinator sends, and in which order, does not depend on the number of shards |
| `Sharding.DrainedIsOneShard` | go/marketbyprice-bot/coordinator.go:282-289 | for overflow-free steps, any shard count and any schedule: drained, the union of the shards is one shard over the dispatch order |
| `Sharding.QuietIsHandled` | go/marketbyprice-bot/shard.go:571-589 | handling absent overflow is handling |
| `Sharding.AllSendsAreRight` | go/marketbyprice-bot/coordinator.go:176-212 | every record the coordinator sends goes to the shard that owns its instrument, stamped levels included |
| `Sharding.WipesMarkEras` | go/marketbyprice-bot/coordinator.go:320-345 | in every shard's inbox the wipes of a channel are as many as its Reset Count changes so far: each lies between the last record of the old era and the first of the new |
| `CoordinatorRuns.NoStrikeAcrossBarriers` | go/marketbyprice-bot/coordinator.go:127-175 | a strike that brings a barrier is not sent on |
| `CoordinatorRuns.DropForgets` | go/marketbyprice-bot/coordinator.go:258-270 | after a socket drop no level is sent on until its channel begins a group again, nor a strike that comes first |
| `Sharding.WipeIsOneChannel` | go/marketbyprice-bot/dispatch.go:385-421 | a wipe takes all of its channel and nothing of any other |
| `RefData.DefinedExactly` | go/marketbyprice-bot/dispatch.go:43-97 | over any run a definition is held exactly when one came that was neither replaced nor wiped nor more than one generation below a later prune; it is that definition, with the last strike behind it |
| `RefData.PruneTakes` | go/marketbyprice-bot/dispatch.go:357-379 | a prune takes everything held for an instrument more than one generation below it and nothing of any other |
| `CoordinatorRuns.BarrierExactly` | go/marketbyprice-bot/coordinator.go:127-150 | over any records, a wipe goes out ahead of a record exactly when it brings its channel a Reset Count other than the last one there |
| `CoordinatorRuns.PrunesExactly` | go/marketbyprice-bot/coordinator.go:292-315 | over any records, every shard is told to prune exactly by a valid summary that rises above the one in force, the last since any barrier |
| `CoordinatorRuns.LevelSentExactly` | go/marketbyprice-bot/coordinator.go:176-212 | over any records, a level is sent on exactly when its id is that of the last begin on its channel with no end or barrier since, and to that begin's instrument on its shard |
| `Limits.ReadyIgnoresTheMktdataSeq` | go/marketbyprice-bot/shard.go:272-320 | what a ready instrument serves and waits for never depends on a delta's mktdata seq |
| `Limits.LeftoverReachesAReadyBook` | go/marketbyprice-bot/shard.go:381-398 | a delta left over from before a reset that arrives after recovery at the expected seq corrupts the book: the state, reached from the reset through a begin and an end |
| `Leftovers.HarmlessExactly` | go/marketbyprice-bot/shard.go:272-399 | the condition: a leftover keeps a ready instrument right for every publisher that explains it if and only if it is old, malformed, beyond the window, or next with a run behind it in the window that settles every price anew |
| `Leftovers.DeliveredSound` | go/marketbyprice-bot/shard.go:272-399 | deltas of the series and harmless leftovers keep the book the publisher's, and what they leave to buffer fits the series |
| `Leftovers.DrainIsRun` | go/marketbyprice-bot/shard.go:381-398 | a drain applies exactly the contiguous run the window held, in order |
| `Limits.FreedWindowCouldDrain` | go/marketbyprice-bot/instrument.go:419-428 | the window a commit frees could still have drained if and only if it held the seq right behind the snapshot; the comment there says it never could |
| `Limits.CommitDropsTheNextDelta` | go/marketbyprice-bot/instrument.go:419-428 | the state, from the start: commit at 5, hold 7, commit at 6, and wait for 7, which is gone |
| `Limits.LateEndTakesTheRoute` | go/marketbyprice-bot/coordinator.go:209-212 | any end closes the channel's route, so a level behind it goes nowhere |
| `Limits.OrdersSurviveLateEnds` | go/marketbyorder-bot/coordinator.go:110-133 | however many ends of a channel come in, the live group's orders still reach the same shard if and only if none was that group's own end |
| `Limits.OnlyOneBotKeepsTheResetFloor` | go/marketbyprice-bot/instrument.go:440-465 | after a reset an empty snapshot, begun and ended, brings the Market-by-Price instrument back if and only if it was captured at or past the New Anchor Seq; the Market-by-Order one comes back on any |
| `Instruments.Instrument.ApplyBookClear` | go/marketbyprice-bot/instrument.go:278-301 | the level-by-level removal is the specified clear; malformed exactly for reserved values or one price bounding both sides |
| `Instruments.Instrument.EndSnapshot` | go/marketbyprice-bot/instrument.go:372-431 | commits exactly when id, anchor, count and floor agree; on any failure only the shadow goes |
| `Instruments.Instrument.AddSnapshotLevel` | go/marketbyprice-bot/instrument.go:338-370 | adds a level to the shadow exactly when its id matches, and says so |
| `Instruments.Instrument.ApplyAndDrain` | go/marketbyprice-bot/shard.go:381-399 | the in-place drain loop applies the delta and the contiguous run of the window, in order, and reports them |
| `Instruments.Instrument.DeclareGap` | go/marketbyprice-bot/shard.go:337-366 | the walk over the window raises the floor to the highest seq that is being lost |
| `Instruments.Instrument.DemoteMalformed` | go/marketbyprice-bot/shard.go:461-491 | the malformed record's seq is lost and required, and the window is handed over entry for entry |
| `Instruments.Instrument.DemoteEvicted` | go/marketbyprice-bot/shard.go:611-637 | the floor reaches the highest buffered seq and at least the one after the tracker |
| `Instruments.Instrument.NextExpectedInstrumentSeq` | go/marketbyprice-bot/instrument.go:535-543 | the loop finds the first seq past the tracker that is not known lost |
| `Instruments.Instrument.Crossed` | go/marketbyprice-bot/instrument.go:483-501 | comparing best bid and best ask decides whether any bid is above any ask |
| `Instruments.Instrument.Reset` | go/marketbyprice-bot/instrument.go:505-524 | a reset forgets everything but the anchor recovery has to reach |
| `Shards.LiveShard.Append` | go/marketbyprice-bot/shard.go:571-587 | binary-search insertion is stable insertion by mktdata seq |
| `Shards.LiveShard.BufferDelta` | go/marketbyprice-bot/shard.go:571-589 | inserts, and on overflow evicts a largest buffer and demotes its instrument |
| `Shards.LiveShard.ApplyDelta` | go/marketbyprice-bot/shard.go:258-399 | a delta's whole effect and events: buffered, discarded, held, applied with a drain, or demoting |
| `Shards.LiveShard.ReplayAll` | go/marketbyprice-bot/shard.go:649-671 | the replay loop is the specified fold, and buffers again from a demotion on |
| `Shards.LiveShard.ApplySnapshotEnd` | go/marketbyprice-bot/dispatch.go:186-216 | commit and replay exactly when the shadow commits, events in that order; otherwise only the shadow goes |
| `Shards.LiveShard.ApplyInstrumentReset` | go/marketbyprice-bot/dispatch.go:245-276 | instrument, buffer, running total, crossed and touched sets after a reset |
| `Shards.LiveShard.ApplyBatchBoundary` | go/marketbyprice-bot/dispatch.go:284-296 | every touched instrument is re-evaluated, none is left touched |
| `Shards.LiveShard.PruneManifest` | go/marketbyprice-bot/dispatch.go:357-379 | drops exactly what fell two generations behind, with its buffer accounted for |
| `Shards.LiveShard.ResetChannel` | go/marketbyprice-bot/dispatch.go:385-421 | the five walks together wipe one channel |
| `Shards.LiveShard.Receive` | go/marketbyprice-bot/dispatch.go:502-537 | one message: the new state and events are a step of the specification, and the invariant holds again |
| `Shards.LiveShard.Run` | go/marketbyprice-bot/dispatch.go:502-537 | the inbox loop is a run in the sense of every whole-run theorem above |
| `Coordinators.LiveCoordinator.Dispatch` | go/marketbyprice-bot/coordinator.go:127-244 | the new channel state, and each shard's inbox grown by exactly its share of the record's sends, a wipe first when the Reset Count changed |
| `Coordinators.LiveCoordinator.Read` | go/marketbyprice-bot/coordinator.go:127-244 | after any records, each inbox holds its shard's share of all sends in dispatch order |
| `Coordinators.LiveCoordinator.OnDisconnect` | go/marketbyprice-bot/coordinator.go:258-270 | forgets open groups and the pending definition, and every shard is told to drop its shadows |
| `Claims.EachKeyWonOnce` | rust/adapter/dz-adapter-core/src/threaded.rs:441-456 | in any interleaving of load and fetch_max steps, no key of an instrument is won twice, and winning keys only go up |
| `Claims.PrecheckIsInvisible` | rust/adapter/dz-adapter-core/src/threaded.rs:441-456 | over any run, table and verdicts are those of bare fetch_max claims in the order of the deciding steps |
| `Claims.LosesOnlyToAsHigh` | rust/adapter/dz-adapter-core/src/threaded.rs:438-456 | a claim loses if and only if one as high has won, or it is u64::MAX behind u64::MAX - 1 |
| `Claims.LoopEndsAtTheTop` | rust/adapter/dz-adapter-core/src/threaded.rs:768-790 | in any queue order the keys applied per instrument go up strictly; drained, they have reached the highest key claimed if and only if its winner pushed it |
| `Generations.KeyOrder` | rust/adapter/dz-adapter-core/src/threaded.rs:661-666 | keys order lexicographically by generation and counter, and give both back |
| `Generations.NoKeyAboveItsEra` | rust/adapter/dz-adapter-core/src/threaded.rs:573-640 | with in-order connections and one counter restart no won key carries a generation above its counter's era, and nothing from before the restart wins after a key of the new generation |
| `Generations.AdoptsTheTrueGeneration` | rust/adapter/dz-adapter-core/src/threaded.rs:615-640 | a decoder that loses to a newer generation catches up exactly when it was delivered a higher counter since its own generation last changed, and then to exactly the generation that beat it, the true one |
| `Generations.OneRestartIsExact` | rust/adapter/dz-adapter-core/src/threaded.rs:586-640 | that holds of every run if and only if the counter restarts at most once: from two restarts on, some run lets an older era win under a newer generation |
| `Decoders.SettledIsTheRace` | rust/adapter/dz-adapter-core/src/threaded.rs:604-646 | a claim in one piece is the race of its atomic steps when nothing else moves |
| `Decoders.CounterGenerations.Claim` | rust/adapter/dz-adapter-core/src/threaded.rs:604-646 | the vectors, the table and the answer after a claim, for tracked, untracked and too wide |
| `Decoders.CounterGenerations.Restart` | rust/adapter/dz-adapter-core/src/threaded.rs:573-585 | the next generation, saturating, for one instrument only |
| `Decoders.ClaimTable.Claim` | rust/adapter/dz-adapter-core/src/threaded.rs:441-456 | wins exactly above the slot, and changes no other instrument's slot, over lazily allocated segments |
| `Windows.ExactlyOnce` | rust/adapter/dz-adapter-core/src/threaded.rs:734-750 | over a run of any length no identity is applied twice |
| `Windows.AppliedExactlyWhen` | rust/adapter/dz-adapter-core/src/threaded.rs:734-750 | 256 keys and one bound decide over the whole past: a key is applied if and only if it never was and is above all that was let go |
| `Windows.LateIsForever` | rust/adapter/dz-adapter-core/src/threaded.rs:728-742 | a key found late is late for good |
| `Windows.Window.Admit` | rust/adapter/dz-adapter-core/src/threaded.rs:734-750 | the ring holds exactly the last 256 applied keys, `evicted` is the greatest let go, and the answer is the specified one |
| `Windows.Dedupe.Judge` | rust/adapter/dz-adapter-core/src/threaded.rs:769-796 | newest wins for one order, exactly once for the other, always applied beyond the table; no other instrument is affected |
| `Datagrams.ParseDatagram` | go/marketbyprice-parser/marketbyprice.go:47-128 | parses if and only if the header is whole, of the format and its length, and the body cuts into the declared number of messages with nothing left over and none fails hard; then one record per decodable message under its own index, and skips and flag mismatches counted |
| `Datagrams.WrittenIsRead` | go/marketbyprice-parser/marketbyprice.go:47-128 | a datagram written as a publisher writes it reads back to its header and exactly its messages |
| `Datagrams.ReadIsWritten` | go/marketbyprice-parser/marketbyprice.go:47-128 | nothing else is read: an accepted header whose body cuts into the messages it announces makes a datagram a publisher writes |
| `Datagrams.MismatchedCounts` | go/marketbyprice-parser/marketbyprice.go:47-128 | exactly the messages whose snapshot flag disagrees with their port count as mismatched |
| `Datagrams.SplitIsUnique` | go/marketbyprice-parser/marketbyprice.go:62-95 | a body cuts into messages in at most one way |
| `Datagrams.EveryMessageIsCounted` | go/marketbyprice-parser/marketbyprice.go:97-118 | every message is a record, an unknown type or a malformed body |
| `Strikes.StrikeRoutedExactly` | go/marketbyprice-bot/coordinator.go:127-174 | over any stream of datagrams, duplicates and resets included, a strike is routed if and only if its message directly follows, in its datagram, the definition of its instrument with its Source ID |
| `Strikes.RemembersTheLast` | go/marketbyprice-bot/coordinator.go:127-140 | after any dispatch the coordinator remembers a definition exactly when that was the record |
| `Strikes.RoutedStrikeIsHeld` | go/marketbyprice-bot/dispatch.go:81-97 | a routed strike finds the very definition it follows at its shard and is held on it |
| `TopOfBook.EmittedExactly` | go/topofbook-parser/tob/topofbook.go:262-313 | two goroutines, any interleaving and any resets: a strike record is emitted if and only if it comes directly behind the matching definition in its datagram and that has been neither cleared nor replaced since |
| `TopOfBook.EmittedIsHeld` | go/topofbook-parser/tob/topofbook.go:278-300 | an emitted strike is the one held, on that very definition; one not emitted changes no instrument |
| `TopOfBook.PendingAlwaysOk` | go/topofbook-parser/tob/topofbook.go:519-555 | at most one message pends per instrument and at most 1000 in all |
| `TopOfBook.FlushLeavesOnlyUnknown` | go/topofbook-parser/tob/topofbook.go:616-640 | after a flush nothing pends for an instrument that is known |
| `Pendings.KnownExactly` | go/topofbook-parser/tob/topofbook.go:198-313 | over any interleaving an instrument is known exactly when a definition of it was neither cleared nor replaced, and carries the strike last emitted since, if any |
| `Pendings.PendingStep` | go/topofbook-parser/tob/topofbook.go:519-640 | what one section leaves pending for each instrument, and what it drops: a new message needs one already pending or room for it, a flush takes exactly the known, a reset all |
| `Pendings.PendingIsNewest` | go/topofbook-parser/tob/topofbook.go:519-555 | over any interleaving what is pending for an instrument is the newest message brought for it since the last reset |
| `Pendings.PendingStays` | go/topofbook-parser/tob/topofbook.go:519-640 | a message that found a place, or a newer one in it, stays until a reset or the first flush behind its definition |
| `TopOfBook.TopOfBookParser.HandleStrikeInterval` | go/topofbook-parser/tob/topofbook.go:262-313 | check and store in one: emitted exactly when held |
| `TopOfBook.TopOfBookParser.FlushBuffer` | go/topofbook-parser/tob/topofbook.go:616-640 | emits each message that has become known once, and keeps the rest |
| `Frames.EachFrameInOnePlace` | go/xdp-receiver/receiver.go:195-238 | against any kernel and any interleaving each submitted frame is in exactly one of fill ring, kernel, rx ring and batch, and nothing else ever appears |
| `Frames.NothingIsOverwritten` | go/xdp-receiver/receiver.go:228-238 | no returned frame lands on an unconsumed fill entry and no delivery on an unreleased descriptor, though neither side checks for room |
| `Frames.BatchIsWhatWasThere` | go/xdp-receiver/receiver.go:206-225 | a batch is exactly the rx ring's contents at the poll that began it, in order, whatever the kernel takes and delivers meanwhile; its release leaves the rest |
| `Rings.PushAppends` | go/xdp-receiver/receiver.go:228-236 | with room, writing and publishing appends, across the u32 wrap |
| `Rings.PushOverwritesWhenFull` | go/xdp-receiver/receiver.go:228-236 | without room the slot written is the oldest unconsumed one |
| `Rings.MaskIsRemainder` | go/xdp-receiver/receiver.go:195-203 | masking a counter with size - 1 is its remainder by the size, for every power of two up to 2^20 |
| `Rings.PopTakesFirst` | go/xdp-receiver/receiver.go:217-221 | a masked read at the consumer takes the oldest entry, across the wrap |
| `Sockets.AfXdpSocket.ReceivePackets` | go/xdp-receiver/receiver.go:206-225 | the wrapping `cons != prod` loop ends for all u32 counters with everything produced, in order |
| `Sockets.AfXdpSocket.ReturnToFill` | go/xdp-receiver/receiver.go:228-238 | writes and publishes every frame unchecked; with room they are appended to the fill ring |
| `Sockets.PushedAllAppends` | go/xdp-receiver/receiver.go:228-238 | with room, writing and publishing one after another appends them all |
| `Sockets.AfXdpSocket.FillRing` | go/xdp-receiver/receiver.go:195-203 | submits the first frames, as many as the ring holds |
| `Sockets.NearestPow2` | go/xdp-receiver/receiver.go:427-443 | the largest power of two at most n, 1 for none |
| `Sockets.FilledIsInitial` | go/xdp-receiver/receiver.go:195-203 | after the fill, the rings are where every run of Frames starts |
| `OrderBooks.ReadyBookIsSnapshotAndDeltas` | go/marketbyorder-bot/shard.go:355-395 | over any run a ready instrument holds no shadow, and its book is the order records of the last group it committed, as many as announced, with contiguous delivered deltas folded on up to its tracker |
| `OrderBooks.ShadowIsTheWire` | go/marketbyorder-bot/shard.go:235-267 | over any run a shadow is exactly the order records handed to it while its group was open, in order, and counts them |
| `OpenGroups.OrdersUnderWayExactly` | go/marketbyorder-bot/shard.go:205-326 | the same for orders: taken exactly while not serving, and an end older than the group closes nothing |
| `OrderBooks.PointerIsTheWire` | go/marketbyorder-bot/shard.go:275-290 | the open pointer is the last begin of the channel whose own end has not come |
| `OrderBooks.AnyReadingBuilds` | go/marketbyorder-bot/shard.go:420-431 | whatever the walked buffer turns into after a demotion, replay builds only from delivered deltas; without one there is only the buffer to read |
| `OrderBooks.ExecutionTakes` | go/marketbyorder-bot/instrument.go:118-131 | an execution takes exactly its quantity, or the order with all that is left, and touches no other |
| `OrderBooks.DrainBuilds` | go/marketbyorder-bot/shard.go:380-394 | draining extends the contiguous run and takes only what was pending |
| `OrderLives.OneLeaves` | go/marketbyorder-bot/instrument.go:82-131 | one message, one id, one side: what an add, a cancel or an execution leaves there |
| `OrderLives.ExecutionsAddUp` | go/marketbyorder-bot/instrument.go:108-131 | over a run that only executes a bid it is gone exactly when an execution filled it, and otherwise rests with what it had less all that was executed |
| `OrderLives.AskExecutionsAddUp` | go/marketbyorder-bot/instrument.go:108-131 | the same for an ask whose id rests on no bid |
| `OrderWindow.WindowTracks` | go/marketbyorder-bot/shard.go:355-395 | a ready instrument with any window and any arrivals: it stays ready exactly when each has room as it arrives, and then tracker and window say exactly what was seen |
| `OrderWindow.DemotedExactlyByDistance` | go/marketbyorder-bot/shard.go:367-379 | from an empty window, in any order and with duplicates, it is demoted exactly by an arrival more than 16 ahead of the first missing seq |
| `OrderWindow.ShardRepairsReordering` | go/marketbyorder-bot/shard.go:355-395 | deltas n+1..m in any order of arrival within the window: the shard serves m with the in-order book and an empty window |
| `OrderWindow.LeftoversNarrowTheWindow` | go/marketbyorder-bot/shard.go:367-379 | each entry left in the window from before a commit takes one of its 16 places for good |
| `OrderWindow.ReplayLeavesADelta` | go/marketbyorder-bot/shard.go:420-431 | the state: replay goes on behind a demotion, so a delta is held that still sits in the window once a later group commits |
| `OrderWindow.StopsServingExactly` | go/marketbyorder-bot/shard.go:355-408 | an instrument stops serving exactly on a wipe of its channel, its own reset, or an own delta its window has no room for |
| `OrderWindow.DemotionExactly` | go/marketbyorder-bot/shard.go:367-379 | a delta that demotes drops the window and changes nothing else of its instrument, and no other instrument |
| `OrderBootstrap.OrderEndBootstraps` | go/marketbyorder-bot/shard.go:275-326 | an end whose group is whole, behind it a buffer of covered deltas and then Last Instrument Seq + 1 onwards: the instrument reaches the last of them exactly when no two share a mktdata seq, and then serves the snapshot with all of them applied |
| `OrderBootstrap.OnlyWholeGroupsServe` | go/marketbyorder-bot/instrument.go:172-196 | the only way into service is the end of the group under way, by id and anchor and with as many orders as announced; any other end leaves status, book, trackers and buffer |
| `OrderChannels.KnownExactly` | go/marketbyorder-bot/shard.go:190-205 | over any run exactly the instruments defined or begun since the last wipe of their channel are known |
| `OrderChannels.WipeTakesOneChannel` | go/marketbyorder-bot/shard.go:110-133 | a wipe takes everything of its channel and nothing of any other |
| `OrderChannels.ContextIsTheWire` | go/marketbyorder-bot/shard.go:542-589 | over any run the context a row is stamped with is the instrument's last begin, taken or not, until that group's own end |
| `OrderChannels.OpenHasItsContext` | go/marketbyorder-bot/shard.go:560-580 | while a group is open its instrument has that group's context, so an order's row and its shadow name one instrument |
| `OrderBuffers.EveryBufferOk` | go/marketbyorder-bot/shard.go:410-418 | over any run each buffer is sorted and holds at most ten thousand deltas |
| `OrderBuffers.BufferedExactlyWhen` | go/marketbyorder-bot/shard.go:328-339 | a delta goes into the buffer, behind every one not later, exactly unless its instrument serves before and after it; a full buffer gives up its earliest first |
| `OrderBuffers.ResetKeepsTheTail` | go/marketbyorder-bot/shard.go:397-408 | a reset starts a known instrument afresh and keeps exactly the deltas behind the new anchor; an unknown one is left alone |
| `OrderRoutes.RouteExactly` | go/marketbyorder-bot/coordinator.go:88-142 | over any records and socket drops a channel's orders have a route exactly since a begin that no drop, new Reset Count, later begin or own end closed, and it is that group's, to the shard of its instrument |
| `OrderRoutes.OrderSentExactly` | go/marketbyorder-bot/coordinator.go:112-121 | an order goes to a shard exactly when the route open on its channel is of its snapshot, and to that route's |
| `OrderRoutes.BarrierReachesEveryShard` | go/marketbyorder-bot/coordinator.go:88-108 | a new Reset Count wipes its channel on every shard before the record that brings it; otherwise a record moves one shard at most |
| `OrderRoutes.DropReachesEveryShard` | go/marketbyorder-bot/shard.go:148-158 | a socket drop takes every shadow, context and open group on every shard, and nothing that serves |
| `DelayedEnds.LiveGroupIsUntouched` | go/marketbyorder-bot/coordinator.go:122-133 | from the start of a bot with any number of shards: a begin makes its group live, and ends inserted late while it is change nothing of its route, pointer, shadow, context, book or buffer in all that follows |
| `DelayedEnds.LateEndsChangeNothing` | go/marketbyorder-bot/shard.go:275-326 | the same for any two agreeing bots and any number of inserted ends |
| `DelayedEnds.OnlyLateEndsPass` | go/marketbyorder-bot/shard.go:547-589 | an end leaves the live group untouched if and only if it is another instrument's, older, or ahead of a group with no shadow |
| `Orders.OrderInstrument.EndSnapshot` | go/marketbyorder-bot/instrument.go:172-196 | commits exactly when id, anchor and count agree; otherwise only the shadow goes |
| `Orders.OrderInstrument.DeliverDelta` | go/marketbyorder-bot/shard.go:355-395 | discard, hold, apply with a drain, or demote |
| `Orders.LiveOrderShard.ApplySnapshotOrder` | go/marketbyorder-bot/shard.go:235-267 | the order goes to the open group's instrument or nowhere |
| `Orders.LiveOrderShard.ApplySnapshotEnd` | go/marketbyorder-bot/shard.go:275-326 | closes the group it names and no other, and commits and replays exactly when the shadow commits |
| `Orders.LiveOrderShard.Run` | go/marketbyorder-bot/shard.go:623-660 | the inbox loop is the run of the whole-run theorem |
| `Orders.LiveOrderCoordinator.Dispatch` | go/marketbyorder-bot/coordinator.go:88-142 | routes and Reset Counts after a record, and each inbox grown by exactly its mail |
| `Orders.MailDrivesTheBot` | go/marketbyorder-bot/shard.go:623-660 | the shards move by that mail and by nothing else |

## Left out

- Generations.NoKeyAboveItsEra: at most one counter restart per instrument; `Generations.OneRestartIsExact` proves that two break it.
- Deployments.DeploymentIsOneShard: absent buffer overflow; each shard has a budget of its own, so with overflow one shard and several evict differently.
- Safety.ReadyBookIsThePublishers: seqs are unbounded naturals, so Per-Instrument Seqs stay below the u32 wrap and mktdata seqs below the u64 one; a harmful leftover is not delivered to an instrument that is ready again.
- Orders.LiveOrderShard.BufferDelta: the source sorts with an unstable sort; among equal mktdata seqs the model keeps arrival order.
- Orders.LiveOrderShard.ApplySnapshotEnd: replays the buffer as it stood; the source ranges over a slice that a demotion on the way can re-sort in place, so which entries follow it may differ. `OrderBooks.AnyReadingBuilds` holds of whatever is read, and without a demotion the two are the same.
- Orders.OrderInstrument.ApplyOrderExecute: resting orders are values in a map, so decrementing one is a map update rather than a write through a shared pointer.
- Instruments.Instrument.AddSnapshotLevel: the shadow is a value in the instrument's field rather than an object of its own.
- Decoders.ClaimTable.Claim: one call runs undisturbed; interleaving is in Claims and Generations, for one instrument in the latter.
- Datagrams.ParseDatagram: what a message body decodes to is a parameter, by schema version; the send timestamp is not read.
- Sockets.NearestPow2: integers do not overflow.
- Reset barrier and fence acknowledgements: they are FIFO messages here, and the theorem holds of every schedule of those, the acknowledged ones among them.
- Display metadata, action divergence kinds, metrics, log lines, ClickHouse rows, snapshot writer and symbol filter: they read books and change none.
- LastAppliedSendTS, receive timestamps and the float scaling of prices and quantities: representation.
- Market-by-Order events and Market-by-Order manifest state: nothing in the book depends on them.
- Inline delivery of the Rust crate (`on_payload`, `InPlace`, `Inline`) and `carried`: one decoder and the same loop stage, with nothing concurrent to prove.
- Memory ordering of the Rust atomics: one location per instrument, totally ordered by its read-modify-writes.
- Sockets, eBPF programs, mmap, UDP payload search, JSON decoding, shutdown by context.
