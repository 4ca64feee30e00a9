# wsarb: the arbiter and client registry, verified

wsarb merges one logical market-data feed from several redundant upstream sources and serves it to
many websocket clients. This project models the part that decides what each client receives, and
proves what that part is for: nothing repeats, nothing is reordered, nobody is moved from one source's
book onto another's, and nobody is served a stream with a hole in it without being disconnected.
Where the code does not give one of these guarantees, a lemma names the input, and another says when
the guarantee holds.

`dafny verify dfyconfig.toml` checks everything.

## How it is laid out

| file | what it models |
|---|---|
| `Wire`, `Books` | subscription keys, parsed frames, routing; books, diffs and their replay |
| `Arbiter`, `Modes`, `Resets`, `TradeTape`, `Delays`, `Charges` | the rule for one frame; what each of the five ordering modes forwards over a run, said without its state; snapshots among blocks; trades cut into batches; who is charged a delay or counted stale |
| `Entries`, `Streams` | one subscription with its subscribers and waiting clients, its steps and its runs; the stream a client is offered |
| `Bridge` | what is proved of the modes, said of an entry's runs and of what a client is sent |
| `Epochs`, `Leading`, `LateJoin`, `JoinInTime`, `DiffStream`, `WriteOff`, `Opening` | one source per epoch; whom a stream comes from; the late joiner, and when it can be answered; a client's book against the leader's; write-off; how a stream opens |
| `Flushes`, `JoinerCases` | a snapshot taken anywhere in a block; runs in which a late joiner goes wrong |
| `L4Check`, `L4Stream`, `SafeAnswers` | the stream checker, why streams pass it, and when a waiting client can be answered |
| `Registry`, `Membership`, `Losing`, `Ledger`, `Pins`, `Queues`, `Hangups`, `Delivery` | all entries, clients and connections together: one function per operation, and what every run keeps |
| `InFlight` | sending after the lock is released |
| `Stats`, `Fetch`, `Gate` | counters, windows and silence; whom to ask for a snapshot; refusing frames by block time |
| `Entities`, `State` | the objects the program updates in place, each method proved against the functions above |
| `Stranded`, `Tasks` | the program's tasks as the calls they make on those objects, the fetches they spawn, and why nobody waits in vain |
| `LoadTest` | the load test's percentiles and order check |

`State` and `Entities` are the program's own shape: classes whose fields the methods update. Each
method's contract gives the whole new value of the registry as a function of the old one
(`View() == Subscribed(old(View()), ...)`), and the invariants and run theorems are proved of those
functions. `Tasks.Server` ties the two together: whatever calls the program's tasks make, in whatever
order, its objects' value is the value of a run (`Tasks.Server.Valid`), so what is proved of every run
holds of the objects at every moment (`Tasks.Server.Always`).

A run is any sequence of events in any order: sources deliver frames, clients come and go and drain or
fill their queues, sources are lost, snapshots arrive or fail, connections drop and come back. Nothing
is assumed about the order except where a lemma says so in its `requires`.

## What the code does not guarantee

* `deliver_snapshot` pins the leader to the snapshot's source even while other clients are attached
  (`src/state.rs:781-783`), which moves them across (`AnswerFromAnotherSourceSplices`).
* It never compares the snapshot with the entry's height, nor updates that height. A source that is
  ahead makes the joiner's stream repeat and go back (`SnapshotAheadRepeats`), one that is behind leaves
  a hole (`SnapshotBehindLeavesAHole`). Nothing repeats, whatever comes, exactly when the snapshot is
  below the height the entry stands at when it arrives (`AnswerRepeatsNothingIff`), and nothing is
  missing either exactly when it is also no older than what went out before the join
  (`LateJoinerIsEquivalentIff`).
* The backlog is cut by height alone, and several `l2Diff` flushes share a height
  (`MidBlockSnapshotSkipsAFlush`). The joiner is sent the rest exactly when its snapshot is of the last
  flush of a block (`LateJoinerIsSentTheRestIff`), and its book comes right exactly when what it missed
  has been overwritten since (`LateJoinerRebuildsIff`).
* Frames held behind a waiting client survive the loss of the source that sent them
  (`SecondLossBreaksOrderFromTheStart`). On `l4Book` an answer is safe, whatever comes after it, exactly
  when what is held above the snapshot rises and neither it nor the snapshot is above the height of the
  entry (`AnswerIsSafeIff`). A loss sets that height to zero, so the answer that follows one is safe only
  as long as no increment below it comes (`L4StreamPassesIff`).
* A frame for a key with no entry creates one (`src/state.rs:560`), and the next subscriber then joins a
  stream that never opened (`StrayFrameOpensAStream`). A first subscriber is safe exactly when the entry
  it finds has no height (`FreshJoinIsSafeIff`).
* A command given between the two halves of a reconnect can reach the node twice
  (`SubscribeInTheGapRepeats`); that happens exactly when the keys live at the second half are not those
  live at the first (`ReconnectRepeatsIff`).
* The lock is released before sending, so two sends can be swapped (`SwappedSendsBreakOrder`); the order
  is kept exactly when nothing is sent ahead of something older (`LockOrderIff`).
* A source's 32-bit position counter ends at 2^32 - 1 messages of a block, and with it the block
  (`WrappedCounterDropsAPosition`).
* The comment at `src/state.rs:379-380` says sharing mask bits beyond 64 sources costs nothing in
  correctness; it lets a lost source back in (`AliasExcusesALostSource`).
* The repository's `README.md:83-84` says an equal trade id means the same batch twice; batches that
  overlap without sharing their newest id repeat a trade (`OverlappingCutsRepeatATrade`). None does
  exactly when each batch that goes out starts at or above what was covered
  (`TradesRepeatIffReachingBack`).
* A full bucket of the load test's histogram wraps to nothing (`FullBucketVanishes`, `NothingVanishesIff`).
* A frame stamped zero never goes out under Point, Lead or Snapshot, since heights start at zero. Under
  Block it does on a fresh entry.

## Modelling choices

* The two per-entry bitmasks are sets of bit positions (`id % 64`). Block position counters and the
  silence count wrap at 32 bits as in a release build; 64-bit counters do not wrap.
* Monotonic time is a parameter in microseconds, wall-clock time one in milliseconds, idle time is in
  seconds.
* Clients are named by their ids. A client's queue is its length and, for the proofs, everything it ever
  took; draining it, closing it, and acknowledgements that take a slot are events.
* Each operation is one step, except that a reconnect is two (the queue is emptied, then what is live is
  listed), that a fetch is two (the sources are ranked, then one of them answers or none does), and that
  `InFlight` separates a step from its sends.
* A payload is what it parses to, its length, and a serial number for content the model does not keep.
* The loss-free and steal-free conditions of the end-to-end results are about the run, not about the
  order in which sources interleave.
* Percentile ranks are computed over reals. The histogram's buckets wrap at 32 bits.

## Model

| member | source | states |
|---|---|---|
| `Wire.RoutedAsDocumented` | src/upstream.rs:433-522 | every routed frame lands on a normalised key and under the mode its channel is documented to use |
| `Wire.ReachesWhoAskedIff` | src/upstream.rs:428-522 | a frame is routed to the key a client's request is filed under iff it is one of those the client asked for, field by field: same channel and coin, users equal up to ASCII case, same aggregation, twenty levels read as the default |
| `Wire.RoutedIff` | src/upstream.rs:441-522 | every frame is for some request, but for errors and empty batches |
| `Wire.StampedAsDocumented` | src/upstream.rs:441-522 | every frame is ordered under its channel's mode by its block's time, its height, or the newest id or height of its batch |
| `Wire.TradesOrderByNewest` | src/upstream.rs:476-480 | the stamp of a batch of trades is in the batch, bounds it, and does not depend on how the batch is ordered |
| `Arbiter.RulingsAreCoherent` | src/state.rs:567-699 | no frame is both forwarded and counted against its source; only a forwarded frame moves the height, to its own stamp; except under Sticky the height never falls |
| `Modes.PointForwards` | src/state.rs:568-579 | under Point a frame goes out iff its stamp exceeds zero and every earlier stamp |
| `Modes.LeadForwards` | src/state.rs:580-601 | under Lead a frame goes out iff its stamp is positive, nothing newer came before, and its source is the first that showed the stamp |
| `Modes.LeadShowsRunningMaxima` | src/state.rs:580-601 | the stamps that go out are exactly the running maxima of the input above zero |
| `Modes.StickyForwards` | src/state.rs:602-630 | under Sticky a frame goes out iff it is from the first source to speak and no older than anything that source sent before |
| `Modes.BlockForwards` | src/state.rs:658-698 | under Block a frame goes out iff nothing newer came before it, it takes its source past every position any source had reached, and its source had supplied fewer than 2^32 - 1 messages of the block |
| `Modes.BlockRacingRefinesOneStream` | src/state.rs:658-698 | with all sources replaying the same messages per block, the output is one ideal stream: heights never fall and each block is a prefix of its messages, each position once and in order; the open block is as long as the longest any source supplied iff no source supplied 2^32 messages of it, and 2^32 - 1 long otherwise |
| `Modes.ClosedBlockIsFinal` | src/state.rs:669-698 | once a newer block opens nothing is added to an older one |
| `Modes.WrappedCounterDropsAPosition` | src/state.rs:361-369 | the 32-bit position counter wraps: once a source has supplied 2^32 - 1 messages of the open block, no message of it goes out any more from any source |
| `Modes.OutBounded` | src/state.rs:567-699 | except under Sticky, what goes out never steps back |
| `Resets.SnapshotsActAsBlocks` | src/state.rs:631-698 | on a raced channel the entry behaves on any run of blocks and snapshots as on the run with each snapshot that is newer than everything before read as a block, and the others left out |
| `Resets.SnapshotsAndBlocksRefineOneStream` | src/state.rs:631-698 | so a raced stream with snapshots in it is one ideal stream as well |
| `Bridge.ModesCarryOver` | src/state.rs:567-699 | on any run of an unused entry in which no leader is lost, the entry is not dropped and no answer moves the lead, the entry forwards exactly what its mode is proved to forward |
| `Bridge.FirstClientGetsTheOutput` | src/state.rs:742-750 | so a client that subscribes first and stays is sent exactly that |
| `Bridge.RacedClientSeesOneStream` | src/state.rs:631-698 | and on a raced channel, snapshots included, it sees the one ideal stream, as long as the furthest source's iff no counter wraps |
| `TradeTape.CutForwards` | src/state.rs:568-579 | a batch cut from a tape of trades goes out iff it reaches further along the tape than all before it |
| `TradeTape.TradesCompleteIffNoLeap` | src/state.rs:568-579 | no trade is ever missing iff each batch that goes out starts at or below what was covered |
| `TradeTape.TradesAreNeverLost` | src/state.rs:568-579 | however sources cut the tape and interleave, every trade up to the newest has gone out, and the newest ids of the batches that go out strictly increase |
| `TradeTape.TradesRepeatIffReachingBack` | src/state.rs:568-579 | no trade is in two batches that go out iff each batch that goes out starts at or above what was covered, which can be read off each batch as it arrives |
| `TradeTape.TradesOnceIffAligned` | src/state.rs:568-579 | every trade goes out, and only once, iff each batch that goes out starts exactly where the tape was covered to |
| `TradeTape.OverlappingCutsRepeatATrade` | src/upstream.rs:473-480 | two sources cutting at different places make the same trade go out twice |
| `Books.ApplyInvertsDiff` | tools/l2diff-measure.py:137-146 | replaying the diff of two books on the first gives the second, repeated prices included |
| `Books.DiffNamesExactlyTheChanges` | tools/l2diff-measure.py:141-146 | a diff sets exactly the changed prices, drops exactly the vanished ones, and names none twice |
| `Books.DiffKeepsTheOrder` | tools/l2diff-measure.py:141-146 | it sets prices in the order the new side first names them, and drops them in the order the old one does |
| `Books.ForeignDiffLandsIff` | tools/l2diff-measure.py:141-146 | a diff laid on another book gives the node's new book iff that book agreed at every price the node did not touch |
| `Books.ByPxKeepsTheLast` | tools/l2diff-measure.py:137-138 | the dictionary of a side holds each price it names, with the quantity of the last level that names it |
| `Books.AppliedExactly` | tools/l2diff-through-wsarb.py:137-141 | replaying any increment overrides the levels it sets, the last for each price, and removes the prices it drops, even those it set |
| `Books.Side.Apply` | tools/l2diff-through-wsarb.py:137-141 | the two loops that set and drop prices in place compute the replay the inversion is proved of |
| `Stats.SourceStats.RecordDelay` | src/stats.rs:98-108 | a delay is counted, summed and filed in the histogram in place |
| `Stats.SourceStats.RollWindow` | src/stats.rs:121-142 | a window's deltas are taken and the silence counter moved |
| `Stats.ChargingKeepsDelaysAgreed` | src/stats.rs:98-108 | histogram total, delay count and duplicates always agree, and each delay is in the bucket whose edges bracket it |
| `Stats.WindowsAddUp` | src/stats.rs:121-142 | over any run of windows the deltas add up to the totals, and the silence counter is the number of windows since the last that delivered |
| `Stats.PacketsAreFrames` | src/upstream.rs:127-130 | over any run of frames received and windows ended, the packets counted are the frames received |
| `Stats.LivesByWindows` | src/stats.rs:98-142 | over any such run every counter is what the ended windows gained, frame by frame, and what the open one has so far |
| `Stats.SilentExactly` | src/state.rs:813-826 | right after all sources roll, a source is reported iff it is connected, has sent a frame, sent none in its last two windows, and some source did send one in its last two, counted from the frames received |
| `Stats.QuietMarketFlagsNobody` | src/state.rs:813-826 | a market that silences every source flags none |
| `Delays.ChargedExactly` | src/state.rs:683-695 | who is charged a delay for a raced frame, exactly |
| `Delays.OneChargePerStamp` | src/state.rs:683-695 | each source is charged at most once per stamp, and the opener never |
| `Delays.DelayIsLateness` | src/state.rs:688-694 | a charged delay is the time since the stamp was first seen from any source |
| `Delays.CountersAfterARun` | src/state.rs:727-735 | after any run wins are the stamps opened, duplicates, delay count and histogram total are the charges, and the delay sum is how late the charged frames were |
| `Charges.CountersHoldTheRulings` | src/state.rs:727-735 | after any run, whatever its modes, a source's wins, stale frames and duplicates are how often its frames were ruled so |
| `Charges.DelayIsTimeSince` | src/state.rs:567-699 | under every mode the delay charged is the time since the value in force was last set |
| `Charges.PointCharges` | src/state.rs:568-579 | under Point a frame is late iff its stamp is the newest but not new, and stale iff a newer one came before |
| `Charges.LeadCharges` | src/state.rs:580-601 | under Lead likewise, but the source that first showed a stamp is not late with it |
| `Charges.PointAndLeadLateness` | src/state.rs:568-601 | there the delay is the time since the stamp was first seen from any source |
| `Charges.StickyCharges` | src/state.rs:602-630 | under Sticky everyone is late but the first source to speak, whose frames are stale iff it sent a newer one before |
| `Charges.SnapshotForwards` | src/state.rs:631-657 | a snapshot goes out iff it is higher than all before that count: all where sources race, and where one carries the stream those of the first to show a height; any other is stale, and none is ever late |
| `Charges.BlockStales` | src/state.rs:658-698 | under Block a frame is stale iff a newer one came before |
| `Entries.StepKeepsWellFormed` | src/state.rs:456-897 | every step of an entry keeps: nobody listed twice in either list or across both; a listed client or a pin keeps the upstream subscription; every backlog is accounted for byte by byte and within its cap; only incremental channels park or write off |
| `Streams.RunKeepsWellFormed` | src/state.rs:456-897 | the same along every legal run |
| `Streams.AttachedHearsEverything` | src/state.rs:742-750 | a client that neither leaves nor is parked is offered every frame forwarded meanwhile, in order, and nothing else |
| `Streams.WaitingHoldsEverything` | src/state.rs:701-720 | a client that waits through a run has everything forwarded meanwhile held behind it, in order, and is offered nothing |
| `Streams.EvictedIff` | src/state.rs:701-720 | a waiting client is evicted iff a forwarded frame would bring what is held for it to more than 64 MiB |
| `Streams.AnsweredExactly` | src/state.rs:758-803 | an answered client is sent its snapshot and then, in order, each held frame above it, on single-sourced channels only those of the snapshot's source |
| `Streams.JoinGoesLast` | src/state.rs:461-477 | a joining client goes last, onto the waiting list iff the channel is incremental and already running, and moves nobody else |
| `Epochs.HeightsAscend` | src/state.rs:602-698 | until the leader is lost an entry's height never falls and what it forwards never steps back |
| `Epochs.LeadershipLeavesIff` | src/state.rs:602-657 | on a single-sourced channel leadership leaves a source iff it is lost, the last client leaves, or a waiting client is answered by another source |
| `Epochs.EpochHasOneSource` | src/state.rs:602-657 | within an epoch nobody steals, all that is forwarded is from the one leader |
| `Epochs.StickyEpochHasOneSource` | src/state.rs:602-657 | between two losses an attached client of a single-sourced channel sees one source's frames, none stepping back; on `l2Book` unconditionally, on `l2Diff` when answers come from the source being followed |
| `Epochs.AnswerFromAnotherSourceSplices` | src/state.rs:781-783 | whenever an answer comes from another source than the one followed, attached clients are moved onto that source's increments |
| `Epochs.SplicingIsReachable` | src/state.rs:781-783 | the situation above is reached in three legal steps |
| `Leading.LeaderIsWhoItCameFrom` | src/state.rs:567-699 | over any legal run of an unused entry, on every channel but trades, the entry is led by s iff the last frame forwarded, or on single-sourced channels the last answer, came from s since a leader was lost or the entry dropped |
| `Leading.LossFollowsTheStream` | src/state.rs:836-877 | a loss parks and returns the attached clients of an incremental entry, behind those waiting, and writes the source off iff the last frame forwarded was the lost source's; otherwise it changes and returns nothing |
| `Leading.LossElsewhere` | src/state.rs:836-877 | on the other channels a loss returns nobody; it frees an `l2Book` entry that came from the source and leaves everything else alone |
| `Leading.LossRebuildsWhomItCarried` | src/state.rs:836-877 | over every run of the registry, a loss is work for exactly the clients attached to the incremental keys whose stream came from the lost source last |
| `LateJoin.LateJoinerExactly` | src/state.rs:758-803 | a late joiner gets its snapshot and then the always-attached client's frames above it, iff the snapshot is no older than what went out before the join and older than what goes out after the attach |
| `LateJoin.LateJoinerIsEquivalent` | src/state.rs:758-803 | it does whenever height at parking <= snapshot height < height at attach |
| `JoinInTime.AnswerRepeatsNothingIff` | src/state.rs:758-803 | judged when the snapshot arrives: whatever comes after, as long as the leader and both clients stay, nothing the snapshot holds follows it iff the snapshot is below the height the entry stands at |
| `JoinInTime.LateJoinerIsEquivalentIff` | src/state.rs:758-803 | whatever comes after, the joiner gets what the always-attached client gets above the snapshot iff that holds and the snapshot is no older than what went out before the join |
| `DiffStream.ClientRebuildsTheLeadersBook` | src/state.rs:602-657 | end to end on `l2Diff`: for any interleaving without loss or steal, the book a client rebuilds is the leader's own book after each of the leader's frames |
| `DiffStream.LateJoinerRebuildsTheLeadersBook` | src/state.rs:758-803 | a late joiner's rebuilt book equals the always-attached client's |
| `Flushes.LaidLandsIff` | tools/l2diff-through-wsarb.py:137-141 | a run of a node's increments laid on another book arrives at the node's book iff that book agreed at every price the run does not touch |
| `Flushes.LateJoinerIsSentTheRestIff` | src/state.rs:758-803 | with the snapshot taken at any frame of the leader, a late joiner is sent every frame after it iff the next frame is of a later block |
| `Flushes.LateJoinerRebuildsIff` | src/state.rs:758-803 | a late joiner's book comes out as the always-attached client's iff every price the missed flushes of the snapshot's block changed has been changed again since |
| `JoinerCases.MidBlockSnapshotSkipsAFlush` | src/state.rs:775-777 | in a legal run from an unused entry, a snapshot taken between two flushes of one block loses the second, and the joiner rebuilds another book |
| `JoinerCases.SnapshotAheadRepeats` | src/state.rs:758-803 | in a legal run from an unused entry, a joiner answered by a source that is ahead is sent a frame its snapshot already holds, and the checker reports a violation |
| `JoinerCases.SnapshotBehindLeavesAHole` | src/state.rs:758-803 | in a legal run from an unused entry, a joiner answered by a source that is behind never gets a frame that its snapshot does not hold |
| `WriteOff.LosingIsExact` | src/state.rs:836-877 | per key: what losing a source changes and what it leaves alone |
| `WriteOff.LosingIsIdempotent` | src/state.rs:836-877 | per key: a second loss of the same source changes nothing and returns nothing |
| `WriteOff.WrittenOffBlockIsDropped` | src/state.rs:658-663 | a block frame of a written-off source goes nowhere, changes nothing, and is counted stale |
| `WriteOff.StaysWrittenOffIff` | src/state.rs:631-663 | while the entry lives, a written-off bit stays set iff no source sharing it has sent a snapshot |
| `WriteOff.LostSourceStaysSilent` | src/state.rs:658-663 | with at most 64 sources, no block frame of a source lost while leading an `l4Book` key goes out until its snapshot arrives, whatever else happens |
| `WriteOff.AliasExcusesALostSource` | src/state.rs:379-383 | with more than 64 sources a snapshot of the source 64 places on excuses the lost one, against the comment that sharing bits costs nothing in correctness |
| `L4Check.Report.Receive` | tools/l4check.py:161-193 | one turn of the checker's loop, on its fields and its two loop variables |
| `L4Check.Report.RunClient` | tools/l4check.py:161-193 | the loop over a whole stream |
| `L4Check.NoViolationIffOrdered` | tools/l4check.py:167-193 | no height violation is reported iff heights never fall within a snapshot-delimited segment; the first violation is always a height going backwards |
| `L4Check.ReportExactly` | tools/l4check.py:161-193 | the whole report: how many frames came, those before the first snapshot and its height, how many of each height, every change of height, every restart, and each frame that is wrong |
| `L4Stream.PassesIffNeverBelow` | src/state.rs:631-698 | the stream of an `l4Book` client that joins once and stays, opens with a snapshot, and is answered with a backlog that is safe to send passes the checker iff no increment is forwarded to it below the snapshot it stands on |
| `L4Stream.ArbiterPassesTheChecker` | src/state.rs:631-698 | it passes whatever is forwarded, if each answer is safe when it is given: what is held rises, and neither it nor the snapshot is above the height of the entry |
| `SafeAnswers.NoLossWhileWaitingIsSafe` | src/state.rs:705-710 | what is held for a client that waited through no loss is safe to send, so its answer is safe iff the snapshot is not above the height of the entry |
| `SafeAnswers.AnswerIsSafeIff` | src/state.rs:758-803 | a waiting `l4Book` client can be answered without breaking its stream, whatever comes after, iff what is held above the snapshot rises and neither it nor the snapshot is above the height of the entry; otherwise a legal run breaks it |
| `SafeAnswers.SecondLossWhileWaitingBreaksOrder` | src/state.rs:869-874 | held frames survive a second loss, and the client answered below them gets heights out of order |
| `SafeAnswers.SecondLossBreaksOrderFromTheStart` | src/state.rs:869-874 | the same in a legal run from an unused entry |
| `Opening.StreamOpensWithSnapshot` | src/state.rs:464-474 | every client of an incremental channel is sent a snapshot first, if each source opens its subscription with one, nothing arrives unsubscribed, and nobody steals |
| `Opening.L4StreamPasses` | src/state.rs:631-698 | from an unused entry, every `l4Book` stream passes the checker when the upstream keeps to that, the client joins once and stays, and each answer is safe when it is given |
| `Opening.L4StreamPassesIff` | src/state.rs:631-698 | and when only the backlogs are safe, as after a loss, it passes iff no increment below the snapshot is forwarded to the client |
| `Opening.FreshJoinIsSafeIff` | src/state.rs:464-474 | a client that joins a key nobody is subscribed to has its stream opened by a snapshot in every continuation in which the upstream pays what it owes and nobody steals, iff the entry it finds has no height |
| `Opening.StrayFrameOpensAStream` | src/state.rs:560 | a frame still under way when the last client left re-creates the entry, and the next subscriber's first frame is an increment |
| `Membership.StepView` | src/state.rs:456-916 | each registry operation does to every key exactly its own step, and to other keys nothing |
| `Membership.StepKeepsRegistry` | src/state.rs:456-916 | every operation keeps the registry invariant |
| `Membership.RegistryHolds` | src/state.rs:456-916 | over every run from the start: nobody listed twice; listed implies holding the key; holding implies listed or being hung up; listed or pinned implies upstream; upstream implies pinned or held; backlogs bounded |
| `Membership.CleanupForgets` | src/state.rs:910-916 | a removed client holds nothing and is listed nowhere, and nobody else's place is touched |
| `Membership.ProjectedRunIsLegal` | src/state.rs:456-916 | each key's part of a registry run is a legal run of its entry, so per-key results carry over |
| `Losing.LosingASource` | src/state.rs:836-877 | registry-wide: no incremental or single-sourced key stays led by the source, other keys are untouched, the work is each attached client of each incremental key it led, once, each waits with an empty backlog, nobody is gained or lost, and a second call finds nothing |
| `Ledger.LedgerHolds` | src/state.rs:544-549 | over every run: the broadcasts replayed name exactly the live keys, each command changes something, and a connected node's subscriptions plus its queue come to the same keys |
| `Ledger.ConnectionsStand` | src/upstream.rs:102-176 | over every run, each connection is down, emptied or up as what last happened to it says: up once it was emptied and then resubscribed, until it goes down; nothing is subscribed over one that was only emptied |
| `Ledger.CommandsAlternate` | src/state.rs:461-542 | per key the broadcasts alternate, subscribe first |
| `Pins.PinnedIff` | src/state.rs:497-508 | over every run a key is pinned iff it has been, and then it is live |
| `Pins.PinnedIsNeverGivenUp` | src/state.rs:521-542 | once a key has been pinned no unsubscribe for it is ever broadcast |
| `Pins.UnsubscribeGoesUpstreamIff` | src/state.rs:521-542 | over every run an unsubscribe is broadcast iff the key is live, nobody but the client is listed for it, and it was never pinned |
| `Pins.RemovalGoesUpstreamIff` | src/state.rs:910-916 | the same of a removed client, for each key it held |
| `Ledger.RepeatsNothingIff` | src/upstream.rs:113-122 | commands that each changed something repeat nothing to a node already at their outcome iff that outcome is what they started from |
| `Ledger.ReconnectRepeatsIff` | src/upstream.rs:113-122 | over every run: a reconnecting source's queue repeats something it has just been told iff the keys live then differ from those live when its queue was emptied; either way it ends at the live keys |
| `Ledger.SubscribeInTheGapRepeats` | src/upstream.rs:113-122 | a first subscribe between emptying the queue and listing what is live reaches the node twice |
| `Delivery.FrameIsAccountedFor` | src/state.rs:737-750 | a forwarded frame goes into an attached client's queue iff that is open and holds fewer than 65536 messages, and is counted dropped otherwise; a client is newly hung up iff its backlog was evicted or an incremental frame was refused |
| `Delivery.NoSilentHole` | src/state.rs:257-264 | over whole runs, a client of an incremental key that is not to be hung up has queued exactly what it was offered, in order |
| `Delivery.QueuesStayBounded` | src/state.rs:414-422 | over every run no client's queue outgrows its bound |
| `Queues.QueueConserved` | src/state.rs:242-263 | over every run, what a client's queue holds and what its writer took off it is what it was ever given, frames and acknowledgements |
| `Queues.ClosedForGood` | src/state.rs:242-263 | a queue is open iff it has not been closed, and a closed one takes nothing more |
| `Hangups.HungUpIff` | src/state.rs:254-264 | over every run, a client is to be hung up iff its queue once refused a frame of an incremental channel, more than 64 MiB came to be held for it, or its snapshot could not be had; and the frames counted as dropped are those its queue refused |
| `Hangups.ConnectedIff` | src/state.rs:437-452 | over every run, clients are numbered from one as they register, and the connected ones are those not cleaned up since |
| `Delivery.AttachedQueueTakesEverything` | src/state.rs:742-750 | while attached, the queue takes every forwarded frame of the key, in order, and no other |
| `Delivery.QueueIsTheStream` | src/state.rs:742-803 | from the start of the registry, a client's whole queue for an incremental key is its stream, unless it is to be hung up |
| `Delivery.QueuedL4StreamPasses` | src/state.rs:631-803 | what an `l4Book` client has been queued passes the checker in any run of the whole registry meeting the conditions |
| `Delivery.QueuedL2DiffRebuildsTheLeadersBook` | src/state.rs:602-803 | what an `l2Diff` client has been queued rebuilds the leader's book in any run of the whole registry without loss or steal |
| `InFlight.NothingLostInFlight` | src/state.rs:724-750 | with the lock released before sending, however steps and sends interleave, what the queue took and what is in flight are together the stream, frame for frame |
| `InFlight.LandedExactly` | src/state.rs:724-750 | once nothing is in flight, the queue took exactly the stream's frames, each as often |
| `InFlight.LockOrderKeepsOrder` | src/state.rs:784-801 | sends carried out in lock order keep the stream's order |
| `InFlight.LockOrderIff` | src/state.rs:784-801 | when no two frames of the stream are equal and nothing was refused, order is kept iff nothing is ever sent ahead of something older in flight |
| `InFlight.SwappedSendsBreakOrder` | src/state.rs:742-750 | sends carried out the other way round do not, and the checker reports it |
| `Entities.Client.SendOrHangUp` | src/state.rs:257-264 | a refused send counts a drop and raises the hang-up; an accepted one is queued |
| `Entities.Client.SendBacklog` | src/state.rs:797-801 | a backlog is sent up to the first failure |
| `Entities.Source.DropQueued` | src/upstream.rs:113-117 | whatever queued up is dropped, at the live keys of that moment |
| `Entities.SubEntry.BumpBlockCount` | src/state.rs:363-369 | the counters grow to the source's place and its count goes up, wrapping at 32 bits |
| `Entities.SubEntry.OpenNewBlock` | src/state.rs:372-376 | all counters are cleared and the opener's first message counted |
| `Entities.SubEntry.ArbitrateSticky` | src/state.rs:602-630 | the Sticky branch on the entry's fields |
| `Entities.SubEntry.ArbitrateSnapshot` | src/state.rs:631-657 | the Snapshot branch on the entry's fields |
| `Entities.SubEntry.ArbitrateBlock` | src/state.rs:658-698 | the Block branch on the entry's fields |
| `Entities.SubEntry.Arbitrate` | src/state.rs:567-699 | arbitration in place computes the rule the modes are characterised by |
| `Entities.SubEntry.HoldForAll` | src/state.rs:705-710 | the frame is put behind every waiting client and its bytes counted |
| `Entities.SubEntry.EvictOverflowed` | src/state.rs:711-718 | the waiting clients over the cap are taken off, in order |
| `Entities.SubEntry.Join` | src/state.rs:461-477 | a joiner is parked or listed, once |
| `Entities.SubEntry.Detach` | src/state.rs:524-533 | a client is taken off both lists, and the subscription dropped with the last |
| `Entities.SubEntry.Unheld` | src/state.rs:775-779 | the held frames above the snapshot, of its own source where single-sourced |
| `Entities.SubEntry.Lose` | src/state.rs:839-874 | one entry's part of losing a source |
| `State.AppState.RegisterClient` | src/state.rs:437-452 | a client with a fresh id, known and empty |
| `State.AppState.Subscribe` | src/state.rs:456-487 | the whole registry after a subscribe, and its outcome |
| `State.AppState.Pin` | src/state.rs:497-508 | the whole registry after a pin |
| `State.AppState.Unsubscribe` | src/state.rs:511-517 | the whole registry after an unsubscribe, and whether the key was held |
| `State.AppState.Detach` | src/state.rs:521-542 | the whole registry after a detach |
| `State.AppState.Broadcast` | src/state.rs:544-549 | a control frame reaches every source's queue, once |
| `State.AppState.OnUpdate` | src/state.rs:553-751 | the whole registry after a frame, and the source's statistics |
| `State.AppState.HandleFrame` | src/upstream.rs:368-427 | a frame is dropped, refused by its block time, or handled under its routed key and mode, its source's statistics charged in the last case only |
| `State.AppState.FanOut` | src/state.rs:742-750 | the loop over subscribers sends each the frame once |
| `State.AppState.DeliverSnapshot` | src/state.rs:758-803 | the whole registry after a snapshot is delivered |
| `State.AppState.ResyncAfterSourceLoss` | src/state.rs:836-877 | the whole registry after a source is lost, and the work returned, counted pair by pair |
| `State.AppState.FailPending` | src/state.rs:882-897 | the whole registry after a waiting client is given up |
| `State.AppState.SubscribedRequests` | src/state.rs:901-907 | the keys live upstream, each once |
| `State.AppState.CleanupClient` | src/state.rs:910-916 | the whole registry after a client is removed, whatever order its keys come out in |
| `State.AppState.SilentSources` | src/state.rs:813-826 | the two passes over the sources compute the set characterised by `SilentExactly` |
| `State.AppState.EmptyQueue` | src/upstream.rs:113-117 | the first half of a reconnect |
| `State.AppState.Resubscribe` | src/upstream.rs:119-122 | the second half: the node is subscribed to exactly what is live |
| `State.AppState.RankSources` | src/upstream.rs:191-208 | of the sources as they stand: the connected ones within the limit, or all connected ones if there is none, never a staler one before a fresher one |
| `State.AppState.FetchSnapshot` | src/upstream.rs:210-221 | a snapshot is delivered from the first candidate that answers, and the client given up when none does |
| `Fetch.CandidatesExactly` | src/upstream.rs:191-208 | who is asked for a snapshot; no staler source is asked before a fresher one, and sources that tie are asked in the order they are configured in |
| `Fetch.RebuiltOnTheFreshest` | src/upstream.rs:183-222 | the source a client is rebuilt on answered, is connected, is within the silence limit if any is, and no strictly fresher one answered |
| `Gate.HighWaterStaysNearTheClock` | src/upstream.rs:387-408 | whatever the sources send, a time-ordered subscription's height stays within five seconds of the clock |
| `Gate.HonestFrameGetsThrough` | src/upstream.rs:387-408 | so a frame stamped with its own clock goes out once that clock is past the limit from the last arrival |
| `Gate.UngatedFutureFrameSilences` | src/upstream.rs:391-397 | without the gate one frame stamped ahead drops everything stamped below it |
| `Gate.AdmittedFramesAreRecent` | src/upstream.rs:410-424 | with a freshness limit no older frame is arbitrated |
| `Gate.AdmittedExactly` | src/upstream.rs:387-425 | the gate lets through, in order, exactly the arrivals without a block time or with one no more than 5000 ms ahead of the clock and, when a limit is set, no further behind it than the limit |
| `Stranded.SubscribeStrandsNobody` | src/client.rs:94-103 | a subscribe parks only a late joiner, for whom a fetch is spawned |
| `Stranded.NeedsFetchIff` | src/client.rs:94-103 | and a fetch is spawned only for a client that the subscribe leaves waiting |
| `Stranded.LossStrandsNobody` | src/upstream.rs:163-165 | every client a loss parks is in the work a fetch is spawned for |
| `Stranded.FinishedFetchStrandsNobody` | src/upstream.rs:210-221 | a fetch that ends, either way, leaves its client not waiting, and everybody still waiting with a fetch |
| `Tasks.Server.Always` | src/state.rs:424-917 | after any sequence of calls, the registry invariant holds, the ledger is settled, and whoever waits for a snapshot has a fetch under way |
| `Tasks.Server.HandleSubscribe` | src/client.rs:88-104 | a request is refused, or subscribed and acknowledged, with a fetch for a late joiner of an incremental stream |
| `Tasks.Server.HandleUnsubscribe` | src/client.rs:105-112 | an unsubscribe, acknowledged when the key was held |
| `Tasks.Server.HangUp` | src/client.rs:56-68 | a connection's end: the queue closes and the client is cleaned up |
| `Tasks.Server.Receive` | src/upstream.rs:127-130 | a frame's packet is counted whatever it is, and the frame is routed, gated, handled and charged to its source's statistics |
| `Tasks.Server.Disconnected` | src/upstream.rs:157-165 | a connection's loss, which spawns one fetch for every client of every key that it leaves to be rebuilt and for nobody else |
| `Tasks.Server.Watch` | src/main.rs:101-121 | windows are rolled and each silent source is treated as lost, in order, and a fetch is spawned for every client each of those losses leaves to be rebuilt and for nobody else |
| `Tasks.Server.BeginFetch` | src/upstream.rs:191-208 | a fetch begins by ranking the sources as they stand |
| `Tasks.Server.EndFetch` | src/upstream.rs:210-221 | a fetch ends, whatever happened since it began, with its client answered by the first candidate that answers, or given up, and no longer waiting |
| `LoadTest.FillHistogram` | src/bin/loadtest.rs:759-763 | ages fill the clamped histogram in place |
| `LoadTest.PctOf` | src/bin/loadtest.rs:462-476 | the walk finds the bucket at the rank |
| `LoadTest.HistogramRefinesSorted` | src/bin/loadtest.rs:316-323 | at every rank the histogram gives the sorted ages' value, clamped to the last bucket |
| `LoadTest.PercentileOfAges` | src/bin/loadtest.rs:459-476 | filling and walking gives the sorted age at the percentile's rank, at most 120000, for every population in which no bucket fills |
| `LoadTest.NothingVanishesIff` | src/bin/loadtest.rs:759-763 | the histogram counts every age iff no bucket's count of clamped ages reaches 2^32 |
| `LoadTest.FullBucketVanishes` | src/bin/loadtest.rs:759-763 | 2^32 equal ages wrap their bucket to zero and the histogram reads empty |
| `LoadTest.KeyStats.OrderFrame` | src/bin/loadtest.rs:327-344 | the order check on one frame |
| `LoadTest.ChecksExactly` | src/bin/loadtest.rs:327-344 | the count is exactly the frames that fall back behind the one before, and the first sixty-four are kept |
| `LoadTest.RacedOutputNeverFalls` | src/bin/loadtest.rs:327-344 | on every raced channel the check finds nothing in what the arbiter forwards |

## Left out

- Websocket connections, TLS, tokio tasks, timeouts and reconnect backoff: only their effects are events here.
- JSON decoding and the wire spelling of requests: frames arrive parsed, and the block time found in a frame's text is a parameter.
- Axum handlers, command-line parsing, logging, the statistics page and `tools/book.html`.
- The hand-written `Ws` classes and the report text of the Python tools.
- DashMap sharding and memory ordering: an entry's step is atomic under its lock.
- `compare` in `tools/l4check.py`: it sets two measured streams side by side and tolerates their edges.
- The load test's stall heuristics, heat strips, block hashing and verdict wording.
- Averages in floating point, and the sub-microsecond part of durations.
- The counters `too_old`, `from_future` and `disconnects`: each only counts its branch.
- DiffStream.LateJoinerRebuildsTheLeadersBook: assumes the snapshot was not taken between two flushes of one block, because then it is false (`MidBlockSnapshotSkipsAFlush`); the exact condition without that assumption is `Flushes.LateJoinerRebuildsIff`.
- L4Stream.ArbiterPassesTheChecker: assumes each answer is safe when it is given, because otherwise it is false (`SnapshotAheadRepeats`, `SecondLossBreaksOrderFromTheStart`, `AnswerIsSafeIff`); which of the other runs pass is `L4Stream.PassesIffNeverBelow`.
- SafeAnswers.AnswerIsSafeIff: assumes that some source is not written off and the open block's counter is not at its 32-bit end, because an entry that can forward nothing more cannot break a stream.
- JoinInTime.AnswerRepeatsNothingIff: assumes the same of an `l4Book` entry, for the same reason.
- WriteOff.LostSourceStaysSilent: assumes at most 64 sources, because beyond that it is false (`AliasExcusesALostSource`).
- Tasks.Server.Watch: does not bounce the connection of a source that stays silent (`src/main.rs:128-135`); a bounce is a `Disconnected` and a reconnect.
