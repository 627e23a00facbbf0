# The durable Bestiary store, the bus router and their gates, in Dafny

This project models five parts of the system and proves what they promise.

**The Bestiary store** (`Records`, `Catalog`, `Chain`, `Store`, `Curator`, `Compaction`, `Recovery`) is an
append-only signed log per Realm, a content-addressed blob directory and an in-memory catalog. The model is a state
machine: each operation takes the old state, its arguments and a fault (an append that fails to open, that ends in
doubt with its line landed or not, or that leaves part of a line; a blob write that fails; a compaction that stops at
any Realm or in the middle of blob collection) and gives the new state and the reply. `Meaning` is the independent
reference: what replaying the Realm files from nothing would rebuild. `Invariant`, `Operations`, `CompactionProofs`
and `Runs` prove that every run of commands under every fault keeps disk and memory in step with it; `Guarantees`,
`Effects` and `Promises` what each call does to the durable catalog; `Replies`, `CompactReplies` and `Signals` what
each call answers, exactly; `Shapes` which signals are accepted; `Faults` how far a failing call can get; `FaultFree`
that recovery accepts everything a fault-free run leaves; `Tampering` and `Repair` what recovery, reads and puts do
with files and blobs that something else has changed; `Merges` that overlapping merges are runs of plain operations;
`Replication`, `Peers`, `Ample` and `Overlap` when stores merging the same pushes converge and when not; `Findings`
promises that fail, with their exact conditions. `StoreLoops` holds the loops of the store (the blob scan, the
compaction buffer, the decision loop, the dry pass, replay) and `FsStore` the store itself, an object changed in
place, each method proved equal to the state machine; its `Valid()` ("in order" below) is the store invariant.

**The bounded line readers** (`LineReader`) pull lines through a buffer whose fills may break anywhere; `TornLog`
joins lines to records and says what recovery does with a Realm file torn at any byte.

**Addresses** (`Addresses`) are printed as capability keys, matched by the router's gate, and read and written by
critters.

**The JSON gate** (`JsonGate`) is a recursive walk that threads one mutable node counter.

**The bus router** (`Router`, `RouterRuns`, `Provenance`, `BusRouter`) is a machine whose steps are the lock sections
and atomic counter updates of `register`, `deregister` and `route`, and one step for each copy of a fan-out, so that
a run of steps is any interleaving of any number of calls; `BusRouter` is the router as an object, each method proved
to be the matching run of steps, and its `Valid()` the soundness that every interleaving keeps; `Provenance` traces
every delivery, journal entry and capability list of a run back to the steps it comes from.

## What was found

Seven promises do not hold as they stand; each has a witness and the exact condition under which it does.

- A curator may return a score that is not a number. Compaction writes it, and recovery can then never read that
  log: `Findings.NanPromotionLosesTheLog`. A compacted directory recovers if and only if all scores handed out are
  finite (and the Realm files fit the cap): `Findings.CompactedLogRecoversIff`. Runs (`Runs.Step`) therefore take
  curators with finite scores.
- A first append that fails after its file was created leaves an empty Realm file. The comment in `recover` that
  every Realm file holds a retained key is then wrong, and a directory within all caps can be refused:
  `Findings.EmptyFileBlocksRecovery`. Recovery accepts if and only if no Realm file is torn and their number is
  within the key cap: `Runs.RunRecoverable`; after fault-free runs they always are: `FaultFree.FaultFreeRunsRecover`.
- A write that loses only the final newline is accepted by replay, but the next record then lands on the same line
  and recovery refuses the file: `TornLog.LostNewlineLosesTheFile`, and `TornLog.LostNewlineThenAppendRefused` for all
  records. Records appended later stay apart if and only if the file is empty or ends in a newline:
  `LineReader.AppendsStayApartIff`; which torn files are accepted: `TornLog.TornFileAcceptedIff`.
- A pushed entry is up to three appends, and a fault between them leaves a Realm neither as before nor as after:
  `Findings.StrandedPush`. It is all or nothing if and only if no signal of it is due: `Faults.PushIsWholeIff`, and
  `Signals.SignalDue` tells that from push and store before the call.
- Merges release the lock between reading a score and writing one, so the lesser of two scores can land last:
  `Overlap.RacingScoresDiverge`. A late write is what an uninterrupted one would be if and only if the score read and
  the score there lead to the same decision: `Overlap.LateIsFreshIff`. The store invariant holds however merges
  overlap: `Merges.OverlapsKeepInv`.
- Markers of one key do not always merge to the union of their peers. A list may name a peer twice and each repeat
  counts towards the limit of 64, so already two peers can leave replicas with different markers:
  `Overlap.TwoPeersDiverge`; 65 different ones can as well: `Overlap.SixtyFivePeersDiverge`. Two orders agree if and
  only if one list names all the peers of the other or each has room for those it lacks: `Overlap.MarkersAgreeIff`.
  For any number of pushes, conditions a caller can check make replicas converge: `Ample.AmpleReplicasConverge`.
- The comment that a critter can pass `env.from` straight back to `emit` fails for a peer's address, which reads back
  as a local creature: `Addresses.NodeReadsAsLocalCreature`; `Addresses.ReadBackIff` says for which addresses it
  holds.

Ids and stamps are 64-bit counters that wrap: `RouterRuns.IdsAreFreshIff`, `RouterRuns.StampsAreFreshIff` and
`RouterRuns.WrappedIdReturns` say exactly how far "never reused" goes.

## Assumptions

- The record hash and the Realm hash are symbolic and injective; a signature verifies exactly when it was made by
  the key over that payload. The artifact hash is an arbitrary function of the bytes, with no assumption at all.
- The size of an encoded record is an arbitrary function of its operation, author and birth order, plus the link
  (shorter for the genesis link) and the decimal digits of the sequence number, plus the newline.
- Manifest and Realm validity, promotion signatures, UTF-8 validity and header size are arbitrary predicates passed
  in. Caps are arbitrary, zero meaning unbounded, as in the source.
- In `TornLog`, the records at hand encode to one nonempty line of text that parses back, fits the line cap and does
  not end in a carriage return; no proper prefix of it parses or is blank, and neither do two of them on one line.

## Model

| member | source | states |
|---|---|---|
| `Runs.RunInv` | cosmos/bestiary/src/store.rs:1584-2606 | after every run of puts, signals, evictions, pushed entries, compactions, recoveries and restarts, with an append at any step refused, failing to open, in doubt with its line there or not, or torn, a blob write failing, or a compaction stopping anywhere, the disk and (while healthy) the memory satisfy the full store invariant |
| `Runs.RunReplay` | cosmos/bestiary/src/store.rs:2204-2273 | at every healthy point of every run, replaying the Realm files one after another, in any order, rebuilds exactly the entries, tombstones, Realm names, heads and journal total held in memory, although the operations were interleaved across Realms |
| `Recovery.ReplayRefinesMemory` | cosmos/bestiary/src/store.rs:2204-2273 | the same for any state satisfying the invariant; and the next birth order picked by recovery exceeds every live one |
| `Recovery.AnyOrderReplays` | cosmos/bestiary/src/store.rs:2203-2257 | the catalog a recovery rebuilds does not depend on the order in which Realm files are replayed |
| `Runs.TombstonesArePermanent` | cosmos/bestiary/src/store.rs:1933-1949 | a key once durably tombstoned is never live again, through any later commands, faults, restarts and replays |
| `Runs.BirthOrdersAreStable` | cosmos/bestiary/src/store.rs:1617-1661 | live birth orders are pairwise distinct, below the next one, and an entry live at two points of a run has the same birth order at both |
| `Runs.ProofsAreStable` | cosmos/bestiary/src/store.rs:2285-2319 | an entry's proof is the same at any two healthy points between which its manifest is the same |
| `Runs.ProofSurvivesCompaction` | cosmos/bestiary/src/store.rs:2285-2319 | a compaction changes no proof of an entry it does not collect |
| `Runs.RunAccounting` | cosmos/bestiary/src/store.rs:864-917 | in every run the disk is within all caps and every live row of every Realm has its artifact; while healthy the three running totals are exactly the sums over the disk |
| `Runs.RunRecoverable` | cosmos/bestiary/src/store.rs:2141-2275 | after every such run recovery accepts exactly when no Realm file is torn and their number is within the key cap, and never changes what the logs mean |
| `Runs.LatchHolds` | cosmos/bestiary/src/store.rs:919-930 | once unhealthy, any sequence of catalog commands leaves the store exactly as it was |
| `Runs.UnhealthyReplies` | cosmos/bestiary/src/store.rs:919-930 | every read and write of an unhealthy store answers Unhealthy, or a refusal decided by its arguments alone |
| `Runs.RunEvolves` | cosmos/bestiary/src/store.rs:1521-1568 | between any two points of a run the durable catalog only evolves: tombstones stay, birth orders stay, an entry leaves only by tombstone |
| `FaultFree.FaultFreeRunsRecover` | cosmos/bestiary/src/store.rs:2171-2202 | recovery accepts every state a fault-free run can leave; neither Realm files nor blob files outnumber the retained keys |
| `Chain.TipCommits` | cosmos/bestiary/src/store.rs:399-413 | two accepted logs that end in the same tip are equal record for record |
| `Chain.ChainExtend` | cosmos/bestiary/src/store.rs:1340-1358 | the record built for the next position extends an accepted chain to an accepted chain |
| `Chain.ChainForOk` | cosmos/bestiary/src/store.rs:1412-1449 | a renumbered, relinked and re-signed chain is accepted by replay if and only if every operation in it can be read back |
| `Chain.AcceptedIffWritten` | cosmos/bestiary/src/store.rs:2204-2257 | a file is accepted if and only if it is what this store itself would have written for the operations in it (numbered, linked and signed with its key) and those are readable, of that Realm and within the line limit |
| `Chain.ReplayRealmOps` | cosmos/bestiary/src/store.rs:1454-1517 | replaying the canonical chain written for a Realm gives back exactly that Realm's rows and tombstones |
| `Chain.ChainForBytes` | cosmos/bestiary/src/store.rs:1412-1449 | the byte length of a rewritten chain, as the sum of its operations plus the links and sequence digits that depend on position |
| `Addresses.DecimalIsThatWide` | cosmos/bestiary/src/store.rs:176-187 | the width a sequence number adds to its line is the number of its decimal digits |
| `Catalog.MeaningAppend` | cosmos/bestiary/src/store.rs:1521-1568 | appending one record to one Realm's file changes the meaning of the whole directory exactly as applying the operation |
| `Catalog.ApplyEvolves` | cosmos/bestiary/src/store.rs:1521-1568 | no operation revives a tombstone, changes a birth order or leaves a key both live and tombstoned |
| `Catalog.MeaningAddRealm` | cosmos/bestiary/src/store.rs:2204-2257 | replaying one more Realm file onto the meaning of the others gives the meaning of them all |
| `Invariant.AppendLands` | cosmos/bestiary/src/store.rs:1334-1408 | an append that succeeds leaves the disk exactly one applied operation ahead of memory, with exact heads and byte count |
| `Invariant.AppendFails` | cosmos/bestiary/src/store.rs:1364-1389 | an append that is refused, ends in doubt or is torn keeps the whole invariant and the blobs, whether or not its line landed |
| `Invariant.CommitKeeps` | cosmos/bestiary/src/store.rs:1334-1408 | append followed by apply keeps the invariant under every fault |
| `Operations.WriteBlobKeeps` | cosmos/bestiary/src/store.rs:1088-1172 | a blob reported as created was on no disk and needed by no live row; an error leaves the blobs as they were; accounting stays exact under every fault |
| `Operations.PutLoggedKeeps` | cosmos/bestiary/src/store.rs:1633-1658 | the tail of a put keeps the invariant on every failure path, its rollback removing only a blob no live row references |
| `Operations.PutKeeps` | cosmos/bestiary/src/store.rs:1584-1664 | a put keeps the invariant and lets the catalog only evolve, under every fault |
| `Operations.AttestKeeps` | cosmos/bestiary/src/store.rs:1828-1856 | the same for an attestation |
| `Operations.QuarantineKeeps` | cosmos/bestiary/src/store.rs:1858-1909 | the same for a quarantine |
| `Operations.UnquarantineKeeps` | cosmos/bestiary/src/store.rs:1911-1931 | the same for lifting a quarantine |
| `Operations.TombstoneKeeps` | cosmos/bestiary/src/store.rs:1933-1949 | the same for an eviction |
| `Merges.AloneIsMergePush` | cosmos/bestiary/src/store.rs:1951-2065 | the calls of a merge, each made under the lock and with nothing in between, amount to the machine's one merge |
| `Merges.OverlapsAreRuns` | cosmos/bestiary/src/store.rs:1951-2065 | however any number of merges overlap with each other, with other operations, faults and restarts, the store goes through a run of plain puts, attestations, quarantines and evictions and those other operations |
| `Merges.OverlapsKeepInv` | cosmos/bestiary/src/store.rs:1951-2065 | so the whole store invariant holds after every such overlap |
| `Guarantees.PutEffect` | cosmos/bestiary/src/store.rs:1602-1661 | a successful put of a tombstoned key changes nothing; any other makes the key live under the new manifest, keeps an existing row's birth order and signals, gives a new row the next birth order, and touches no other key |
| `Guarantees.RefusedPutChangesNothing` | cosmos/bestiary/src/store.rs:1584-1664 | on a disk that does not fail, a put refused by any cap or check changes neither disk nor catalog |
| `Guarantees.LiveIsReadable` | cosmos/bestiary/src/store.rs:1666-1688 | every live row of a healthy store reads back with bytes that hash to its key |
| `Faults.FaultsLeaveRealmsWhole` | cosmos/bestiary/src/store.rs:1364-1389 | after any catalog operation but a compaction, on a failing disk, each Realm's log lies between what it was and what the operation leaves without the fault; for every operation, compaction included, but a push of which a signal is due it is the one or the other; and a recovery that succeeds installs of each Realm the replay of that log |
| `Faults.PushBetween` | cosmos/bestiary/src/store.rs:1951-2065 | under any faults a push gets each Realm's log some way from where it was towards what it leaves without them |
| `Signals.TakesSignalIff` | cosmos/bestiary/src/store.rs:1951-2065 | on a disk that does not fail a push has a signal recorded if and only if, told from push and store before the call, it is an accepted offer whose put has room, and after the put's record there is room for its score if that is well-shaped and beats the row's, or else for a well-shaped marker that merges with the row's |
| `Faults.PushIsWholeIff` | cosmos/bestiary/src/store.rs:1951-2065 | a push is all or nothing under every fault if and only if, by that condition, no signal of it is due; when one is, losing its append is a fault that strands the push |
| `Faults.SignallessPushIsWhole` | cosmos/bestiary/src/store.rs:1951-2065 | a push that is no offer, or of a tombstoned key, or that carries no signal, is all or nothing under every fault |
| `Findings.StrandedPush` | cosmos/bestiary/src/store.rs:2024-2040 | witness: a first push of a scored entry whose score record is lost leaves the put alone, neither before nor after |
| `Promises.PushOnlyAt` | cosmos/bestiary/src/store.rs:1951-2065 | a push changes the durable catalog at its own key only, whatever faults hit it |
| `Promises.PushReports` | cosmos/bestiary/src/store.rs:1951-2065 | a reply of success means the record verified; its membership flag is true exactly when the key became live, or for an eviction when it was not tombstoned yet; an unverified push changes nothing |
| `Signals.PushReplies` | cosmos/bestiary/src/store.rs:1951-2065 | the exact answer to every push on a disk that does not fail: each error and when, that a full catalog drops a new key without one, and otherwise all three flags |
| `Signals.FullCatalogDropsPush` | cosmos/bestiary/src/store.rs:2010-2020 | a new key pushed to a full catalog changes nothing and is answered without an error, whatever the disk does |
| `Signals.RepeatedPushIsNoNews` | cosmos/bestiary/src/store.rs:1951-2065 | a push repeated at once makes no key live, evicts none and brings no better score, and says so |
| `Effects.AttestIsDurable` | cosmos/bestiary/src/store.rs:1828-1856 | an accepted score is the only change to the durable catalog; Ok(false) changes nothing at all and means no live row or a malformed score; an error without faults changes no log |
| `Shapes.ScoreAcceptedIff` | cosmos/bestiary/src/wire.rs:136-245 | a score is accepted if and only if it is a finite number, its Realms are valid and at most 512 bytes, and it is signed in full or not at all, by names that are not empty, hold no NUL and are at most 512 bytes |
| `Shapes.MarkerLimits` | cosmos/bestiary/src/wire.rs:262-327 | limits are reached and kept: reasons up to exactly 1024 bytes of UTF-8 in characters of one to four bytes, peers up to exactly 64 of up to 256 bytes |
| `Effects.QuarantineIsDurable` | cosmos/bestiary/src/store.rs:1858-1909 | a marker takes the new reason and exactly the union of the peers; nothing else in the durable catalog changes |
| `Effects.UnquarantineIsDurable` | cosmos/bestiary/src/store.rs:1911-1931 | exactly the marker of a quarantined row is removed; Ok(false) means there was none |
| `Effects.TombstoneIsDurable` | cosmos/bestiary/src/store.rs:1933-1949 | exactly the key moves from live, if it was, to tombstoned; Ok(false) means it already was |
| `Effects.MergePeersUnion` | cosmos/bestiary/src/store.rs:1881-1897 | merging peer lists keeps every name of both and invents none |
| `Replies.PutReplies` | cosmos/bestiary/src/store.rs:1584-1664 | the exact answer to every put, as a table over what the directory means, the room left and the faults: each refusal's one reason and that it changes nothing, what an interrupted put leaves, and when the store stops serving |
| `Replies.AttestReplies` | cosmos/bestiary/src/store.rs:1828-1856 | a score is recorded if and only if it is well-shaped, its row is live and there is room; without room the answer is a limit; only an append in doubt stops the store |
| `Replies.QuarantineReplies` | cosmos/bestiary/src/store.rs:1858-1909 | the same for a marker, which is also refused as a limit for its shape or its peers |
| `Replies.UnquarantineReplies` | cosmos/bestiary/src/store.rs:1911-1931 | a marker is lifted if and only if there is one and there is room for the record; an error without faults means exactly that there was none |
| `Replies.TombstoneReplies` | cosmos/bestiary/src/store.rs:1933-1949 | a key is evicted unless it was, or it is new and the catalog is full, or there is no room; a malformed hash is an integrity error |
| `Repair.ReadsAreHonest` | cosmos/bestiary/src/store.rs:1666-1688 | on any store, in order or not, a read returns only a live row with bytes that hash to its key, and tells a missing, an over-long and a falsified blob apart |
| `Repair.RepairIsExact` | cosmos/bestiary/src/store.rs:1088-1172 | on any store, writing the right bytes over a damaged or missing blob succeeds exactly when the directory has room, makes both totals exact whatever they were, and is not taken for a new blob |
| `Repair.PutLeavesReadable` | cosmos/bestiary/src/store.rs:1584-1664 | on any store, after a put of a key not evicted succeeded, the bytes under it hash to it |
| `Repair.RepairOutlivesFault` | cosmos/bestiary/src/store.rs:1633-1658 | a repaired blob stays even if the record of the put that brought it cannot be written |
| `Replication.MergeReflects` | cosmos/bestiary/src/store.rs:1951-2065 | one merged push that no cap refused turns a catalog reflecting the pushes so far into one reflecting all of them |
| `Replication.ReplicasConverge` | cosmos/bestiary/src/store.rs:1951-2065 | two empty stores that merge the same set of pushes, in any orders and with any repetitions, none refused by a cap, agree on live keys, tombstones, greatest verified score and quarantining peers per live key |
| `Ample.AmpleIsSmooth` | cosmos/bestiary/src/store.rs:1951-2065 | if the settings have room for the pushes (distinct keys, artifact bytes and three short records per push within the caps, and in each peer list room for all other peers named for its key) no merge of them is refused |
| `Ample.AmpleReplicasConverge` | cosmos/bestiary/src/store.rs:1951-2065 | so two empty stores with room for the same pushes agree after merging them in any orders and with any repetitions |
| `Ample.ScoredPushIsAmple` | cosmos/bestiary/src/store.rs:1951-2065 | such settings and pushes exist: a small store has room for a scored push and accepts it |
| `Peers.MergePeersIff` | cosmos/bestiary/src/store.rs:1881-1897 | a peer list takes up another if and only if it lacks none of its names or has room for those it lacks, each repeat taking up room; and then how long it gets |
| `Peers.OrdersAgreeIff` | cosmos/bestiary/src/store.rs:1881-1897 | two well-shaped markers leave the same peers in both orders if and only if one list names all the peers of the other or each has room for those of the other it lacks |
| `Overlap.MarkersAgreeIff` | cosmos/bestiary/src/store.rs:1951-2065 | two pushes that mark one unmarked row, merged in the two orders into a store with room, leave catalogs that agree if and only if their peer lists are like that |
| `Overlap.SixtyFivePeersDiverge` | cosmos/bestiary/src/store.rs:1881-1897 | witness: 65 different peers, 64 of them in one push, leave two orders of merging with different markers |
| `Overlap.TwoPeersDiverge` | cosmos/bestiary/src/store.rs:1881-1897 | witness: two peers, one of them named 64 times, do the same |
| `Overlap.LateScoreIsTwoCalls` | cosmos/bestiary/src/store.rs:2024-2040 | the score step of a merge that read the row earlier and writes now is its reading call and its attesting call |
| `Overlap.LateIsFreshIff` | cosmos/bestiary/src/store.rs:2024-2040 | such a late step does exactly what an uninterrupted one would if and only if the score it read and the score that is there lead to the same decision, or the score is malformed or the row gone |
| `Overlap.StaleScoreWins` | cosmos/bestiary/src/store.rs:2024-2040 | of two well-shaped scores that both beat the row's, with room for both, the lesser written late lands over the greater, which an uninterrupted merge would have kept |
| `Overlap.RaceLeavesLesser` | cosmos/bestiary/src/store.rs:2024-2040 | wherever, in any overlap of calls, two merges of one row both get to reading its score, there is an order of their next calls that leaves the lesser one |
| `Overlap.LesserScoreWins` | cosmos/bestiary/src/store.rs:1951-2065 | two scored pushes of one key to an empty store with room: merged one after the other, in either order, they leave the greater score; at the same time they can leave the lesser |
| `Overlap.RacingScoresDiverge` | cosmos/bestiary/src/store.rs:2024-2040 | witness: a concrete list of calls by which scores of two and one leave one, and the catalog agrees with neither order of merging |
| `Curator.DeterministicPassIdempotent` | cosmos/bestiary/src/curator.rs:121-134 | a deterministic pass evicts exactly the entries both older than the gap and below the floor, where no score counts as zero, leaves other rows alone, keeps the youngest, and repeated changes nothing |
| `Compaction.NewChainOk` | cosmos/bestiary/src/store.rs:1454-1517 | a Realm's rewritten chain is accepted from genesis if and only if the Realm's scores are finite |
| `Compaction.RewrittenMeaning` | cosmos/bestiary/src/store.rs:2479-2519 | a rewrite stopped after any number of Realms means the curated catalog in those Realms and the old one in the others |
| `Compaction.RewrittenTotal` | cosmos/bestiary/src/store.rs:2429-2462 | the journal total planned by the dry pass is the total the rewritten disk really has, and is within the cap |
| `Compaction.DryPassPrefix` | cosmos/bestiary/src/store.rs:2429-2462 | if the dry pass over all Realms succeeds, so does every prefix, and every single rewrite at the running total it meets |
| `CompactionProofs.CompactValue` | cosmos/bestiary/src/store.rs:2479-2586 | once staged, compaction can only fail by an I/O fault: no limit or accounting error is possible in the second pass or in blob collection |
| `CompactionProofs.CompactKeeps` | cosmos/bestiary/src/store.rs:2371-2606 | compaction keeps the invariant under every fault |
| `CompactionProofs.CompactPreservesMeaning` | cosmos/bestiary/src/store.rs:2371-2606 | a completed compaction leaves accepted chains that mean the old catalog with exactly the curator's decisions applied, and exactly the blobs some live row references |
| `CompactionProofs.KeepAllShrinks` | cosmos/bestiary/src/store.rs:1454-1517 | rewriting a Realm without decisions takes no more records and no more bytes than the log it replaces, although links and sequence digits may lengthen |
| `CompactionProofs.KeepAllNeverRefused` | cosmos/bestiary/src/store.rs:2429-2462 | with 68 bytes of slack under the per-record limit, a compaction that keeps everything always succeeds, grows no Realm's log and changes nothing in the catalog |
| `CompactReplies.DryPassIff` | cosmos/bestiary/src/store.rs:2429-2462 | the dry pass succeeds if and only if all new lines are within the limit and the journal is within its cap after each replacement; otherwise it answers a limit and never corruption |
| `CompactReplies.CompactReplies` | cosmos/bestiary/src/store.rs:2371-2606 | the exact answer to every compaction: a rewrite that does not fit is a limit, changes nothing and leaves the store serving; one that fits succeeds with exact counts unless the disk fails, which stops the store |
| `CompactReplies.BadAccountsStop` | cosmos/bestiary/src/store.rs:2521-2606 | on any store, accounts that disagree with the directory make compaction fail, and every failure but a limit stops the store |
| `Recovery.AcceptsIffFilesFit` | cosmos/bestiary/src/store.rs:2141-2275 | on every disk the store can leave behind, recovery accepts exactly when the Realm files are within the key cap |
| `Recovery.RecoverKeeps` | cosmos/bestiary/src/store.rs:2141-2275 | recovery restores the whole invariant or refuses without changing anything but the latch |
| `Recovery.TidyCounts` | cosmos/bestiary/src/store.rs:2191-2195 | on a disk without empty Realm files and stray blobs, neither outnumbers the retained keys |
| `Tampering.EditIsBadSignature` | cosmos/bestiary/src/store.rs:2222-2227 | a record of an accepted file edited in any field but its author, still readable and carrying its own or another record's signature, is refused as badly signed and as nothing else |
| `Tampering.ForeignIsRefused` | cosmos/bestiary/src/store.rs:2216-2221 | a record by another key put anywhere in a file is refused as foreign, however well it is signed |
| `Tampering.MisplacedBreaksChain` | cosmos/bestiary/src/store.rs:2228-2233 | records of a file dropped, repeated or moved about are refused as a broken chain |
| `Tampering.RenamedIsCorrupt` | cosmos/bestiary/src/store.rs:2241-2246 | a file under the name of another Realm is refused as corrupt |
| `Tampering.SignedButUnfit` | cosmos/bestiary/src/store.rs:2209-2240 | a record this store's key did sign is refused as corrupt if its hash is malformed and as over the limit if its line is longer than 4 MiB |
| `Tampering.CutTailIsAccepted` | cosmos/bestiary/src/store.rs:2258-2267 | what is not noticed: a file that lost records at its end is accepted as it is |
| `Tampering.RefusalIsDetermined` | cosmos/bestiary/src/store.rs:2202-2273 | a directory that is refused for a file has one first bad file and one reason |
| `Tampering.OneBadFile` | cosmos/bestiary/src/store.rs:2202-2273 | if one file of an acceptable directory is exchanged for a bad one, the directory is refused for that file's reason, in whatever order the files are taken |
| `Tampering.EditedDirectory` | cosmos/bestiary/src/store.rs:2222-2227 | so a directory in which one record was edited in place is refused as badly signed |
| `Findings.CompactedLogRecoversIff` | cosmos/bestiary/src/store.rs:1482-1499 | a completed compaction leaves a directory that recovery accepts if and only if every score the curator handed out is finite and the Realm files are within the key cap |
| `Findings.NanPromotionLosesTheLog` | cosmos/bestiary/src/store.rs:2402-2407 | witness: a promotion to NaN is accepted by compaction and the result can never be recovered |
| `Findings.EmptyFileBlocksRecovery` | cosmos/bestiary/src/store.rs:2196-2201 | witness: a first append that fails after creating its file leaves an empty Realm file, which later makes recovery refuse a directory that is within every cap |
| `StoreLoops.ScanBlobUsage` | cosmos/bestiary/src/store.rs:948-992 | the directory scan with its running checks reports exactly the byte sum and count, or the limit error when either is over its cap |
| `StoreLoops.PushRecords` | cosmos/bestiary/src/store.rs:1412-1449 | appending records one by one, each checked against line limit and budget, succeeds exactly when the whole extended chain fits |
| `StoreLoops.BuildCompactionBuffer` | cosmos/bestiary/src/store.rs:1454-1517 | the sorted walk over live rows and tombstones builds exactly the Realm's canonical chain, or refuses exactly when it does not fit |
| `StoreLoops.CurateCatalog` | cosmos/bestiary/src/store.rs:2379-2425 | the decision loop builds exactly the curated catalog and the exact counts |
| `StoreLoops.RewriteRealm` | cosmos/bestiary/src/store.rs:2432-2462 | one Realm's budget and rewrite give exactly the chain and total, or the error, that the plan says |
| `StoreLoops.Rehearse` | cosmos/bestiary/src/store.rs:2429-2462 | the discardable loop over all Realms computes the planned total or the first error |
| `StoreLoops.StagedNext` | cosmos/bestiary/src/store.rs:2479-2519 | the second pass meets at each Realm the very rewrite the dry pass planned there, and it succeeds |
| `StoreLoops.CollectFiles` | cosmos/bestiary/src/store.rs:2171-2202 | listing the log directory succeeds exactly when total size and file count are within their caps |
| `StoreLoops.ReplayFile` | cosmos/bestiary/src/store.rs:2204-2257 | replaying one file record by record succeeds exactly when its chain is valid and the keys stay within the cap, and yields the replayed catalog, tip and largest birth order; an error names a real fault |
| `StoreLoops.ReplayFiles` | cosmos/bestiary/src/store.rs:2202-2273 | replaying all files in sorted order succeeds exactly when all are whole and valid and the keys are within the cap, and yields the meaning of the directory; an error is that of the first file in order that cannot be replayed after those before it |
| `FsStore.FsBestiaryStore.constructor` | cosmos/bestiary/src/store.rs:758-791 | a store opened on a directory in order is in order, remembers nothing, and serves at once if and only if the directory is empty |
| `FsStore.FsBestiaryStore.AppendRecord` | cosmos/bestiary/src/store.rs:1334-1408 | one append in place, with its fault, as the state machine has it |
| `FsStore.FsBestiaryStore.CommitOp` | cosmos/bestiary/src/store.rs:1334-1408 | append then apply in place, as the state machine has it |
| `FsStore.FsBestiaryStore.WriteBlobFile` | cosmos/bestiary/src/store.rs:1088-1172 | stores or repairs a blob in place, with its scan loop and exact accounting, as the state machine has it |
| `FsStore.FsBestiaryStore.Put` | cosmos/bestiary/src/store.rs:1584-1664 | the whole put equals the machine's; on a store in order it keeps it in order, gives the exact answer under every fault, success stores the key as promised in the durable catalog, and a refusal without faults changes nothing |
| `FsStore.FsBestiaryStore.Get` | cosmos/bestiary/src/store.rs:1666-1688 | on any store honest; on a healthy store in order never an error, found exactly when the durable catalog has the key, and then that row with bytes that hash to the key |
| `FsStore.FsBestiaryStore.Prove` | cosmos/bestiary/src/store.rs:2285-2319 | on a healthy store in order: exactly the proof that the durable catalog determines |
| `FsStore.FsBestiaryStore.Attest` | cosmos/bestiary/src/store.rs:1828-1856 | on a store in order: keeps it in order, gives the exact answer, and the durable catalog changes at most in the row's score, as the reply says |
| `FsStore.FsBestiaryStore.Quarantine` | cosmos/bestiary/src/store.rs:1858-1909 | with its peer-merging loop, on a store in order: keeps it in order, gives the exact answer, and the durable catalog changes at most in the row's marker, as the reply says |
| `FsStore.FsBestiaryStore.Unquarantine` | cosmos/bestiary/src/store.rs:1911-1931 | on a store in order: keeps it in order, gives the exact answer, and the durable catalog loses at most the row's marker, as the reply says |
| `FsStore.FsBestiaryStore.Tombstone` | cosmos/bestiary/src/store.rs:1933-1949 | on a store in order: keeps it in order, gives the exact answer, and in the durable catalog at most the key moves to the tombstones, as the reply says |
| `FsStore.FsBestiaryStore.MergeSignals` | cosmos/bestiary/src/store.rs:2024-2061 | taking a pushed score and marker in place, as the state machine has it |
| `FsStore.FsBestiaryStore.MergePush` | cosmos/bestiary/src/store.rs:1951-2065 | on a store in order: keeps it in order, changes the durable catalog at the pushed key only, reports membership truthfully, and without faults gives the exact answer |
| `FsStore.FsBestiaryStore.ReplaceChains` | cosmos/bestiary/src/store.rs:2479-2519 | the second pass over all Realms reaches the staged or the interrupted state and never meets a limit |
| `FsStore.FsBestiaryStore.CollectOrphans` | cosmos/bestiary/src/store.rs:2541-2586 | the collection loop removes exactly the unreferenced blobs and keeps both totals exact |
| `FsStore.FsBestiaryStore.Sweep` | cosmos/bestiary/src/store.rs:2521-2586 | audit, then collection, as the state machine has it |
| `FsStore.FsBestiaryStore.Compact` | cosmos/bestiary/src/store.rs:2371-2606 | on a store in order: the exact answer, a refusal changing nothing; with finite scores it keeps the store in order, and success leaves the durable catalog with exactly the decisions applied and exactly the referenced blobs |
| `FsStore.FsBestiaryStore.Recover` | cosmos/bestiary/src/store.rs:2141-2275 | succeeds exactly on an acceptable directory without torn files, every file of which is then this store's own writing, installs exactly the replayed state and counts the records; a refusal names a cap the directory exceeds or, if it exceeds none, the fault of the first bad file in order, and stops the store; the directory is never touched |
| `LineReader.LineLengthIs` | cosmos/bestiary/src/store.rs:149 | the first line ends at the first newline or with the stream |
| `LineReader.TakeFrom` | cosmos/bestiary/src/store.rs:149 | the scan of one buffer fill stops just after its first newline |
| `LineReader.GatherLine` | cosmos/bestiary/src/store.rs:140-165 | however the fills break, the pulled bytes are the first line, or the line is longer than the cap and at most cap bytes were taken |
| `LineReader.ReadLogLine` | cosmos/bestiary/src/store.rs:136-174 | result and rest of the stream depend only on the split at the first newline; a line is refused exactly when it exceeds the cap with its terminator |
| `LineReader.ReadLog` | cosmos/bestiary/src/store.rs:2209 | reading a file to its end gives the lines of the whole stream, independent of the fills, or the first refusal |
| `LineReader.DrainLine` | alpha/src/node.rs:525-538 | skips exactly the rest of the current line |
| `LineReader.ReadReplLine` | alpha/src/node.rs:499-523 | the reader ends exactly after the line in every case; the line is skipped as too long exactly when it exceeds the cap with its terminator |
| `LineReader.StrippedText` | alpha/src/node.rs:540-546 | stripping gives back the text that a newline was added to if and only if the text does not end in a carriage return, and always the text that both were added to |
| `LineReader.RunPrompt` | alpha/src/node.rs:465-487 | the prompt loop runs or skips the lines of the whole stream in order, independent of the fills, until end, quit, undecodable text, or an error from running a line |
| `LineReader.LinesCover` | cosmos/bestiary/src/store.rs:136-174 | splitting a stream into lines loses no byte |
| `LineReader.LogRoundTrip` | cosmos/bestiary/src/store.rs:136-187 | newline-terminated lines read back exactly if and only if each fits the cap with its newline, decodes, and does not end in a carriage return |
| `LineReader.TornAppendKeepsLines` | cosmos/bestiary/src/store.rs:1364-1381 | a write that stops part way leaves every earlier line as it was and at most one fragment |
| `LineReader.AppendsStayApartIff` | cosmos/bestiary/src/store.rs:1358-1381 | later records stay lines of their own if and only if the file is empty or ends in a newline |
| `TornLog.TornFileAcceptedIff` | cosmos/bestiary/src/store.rs:1358-1381 | a file whose last append stopped at any byte is accepted if and only if nothing of the line landed, all of it did, or all but the newline; it then holds the records of before or of after |
| `TornLog.LostNewlineThenAppendRefused` | cosmos/bestiary/src/store.rs:1358-1381 | after a lost newline the next append puts two records on one line, and recovery refuses the file |
| `TornLog.LostNewlineLosesTheFile` | cosmos/bestiary/src/store.rs:1358-1381 | witness: a concrete record without its newline is accepted, and the file is refused once the next record is appended to it |
| `LineReader.OverlongLineIsIsolated` | alpha/src/node.rs:499-523 | an over-long line costs a session exactly that line |
| `LineReader.SessionRoundTrip` | alpha/src/node.rs:465-487 | readable typed lines that neither quit nor fail are run as typed and in order |
| `Addresses.NestingDepth` | cosmos/aether/src/address.rs:218-226 | the loop counts exactly the federation wrappers |
| `Addresses.NodeRoleKeyInjective` | cosmos/aether/src/address.rs:35-37 | node-role keys of different pairs differ, whatever the names contain |
| `Addresses.KeysCollideIff` | cosmos/aether/src/router.rs:401-432 | two addresses share a capability key if and only if each names the other: same kind, same name |
| `Addresses.ListGrantsExactlyWhatItNames` | cosmos/aether/src/router.rs:401-432 | a list made of the keys of some addresses permits exactly what they name; a node grant also covers the roles on it |
| `Addresses.GateGrantsIff` | cosmos/aether/src/router.rs:401-432 | any list at all grants everything if it has the wildcard, and otherwise exactly what its keys name |
| `Addresses.DepthCountsWrappers` | cosmos/aether/src/address.rs:218-226 | the depth of an address is the number of its wrappers, of either kind |
| `Addresses.PrintIsGateKeyIff` | cosmos/anima/src/script.rs:765-775 | an address is printed as the gate's key for it if and only if it is local |
| `Addresses.ReadBackIff` | cosmos/anima/src/script.rs:765-795 | reading a printed address gives it back if and only if it is the kernel, a creature, or a topic, role or intent with a nonempty name not ending in white space and no requirements |
| `Addresses.NodeReadsAsLocalCreature` | cosmos/anima/src/script.rs:765-795 | a peer creature's address comes back as the local creature of the same number |
| `Addresses.ReadsAreSpeakable` | cosmos/anima/src/script.rs:780-795 | whatever reads as an address prints and reads back as the same address, and but for a creature's number prints as the trimmed text |
| `Addresses.TrimCuts` | cosmos/anima/src/script.rs:781 | trimming takes away white space on both sides, all of it, and nothing else |
| `Addresses.SpacesAre` | cosmos/anima/src/script.rs:781 | white space is exactly the 25 characters of the Unicode property White_Space |
| `Addresses.CreatureSpellings` | cosmos/anima/src/script.rs:786-787 | a text reads as a creature's address if and only if, trimmed, it is the word, an optional plus sign, any number of zeros and the decimal form of the id |
| `JsonGate.ValidateJson` | cosmos/anima/src/script.rs:596-624 | the walk with its running counter accepts exactly when depth, node count (with those before it) and numbers are in range, and then has counted each value once |
| `JsonGate.ValidateArray` | cosmos/anima/src/script.rs:611-616 | the same for the loop over array elements |
| `JsonGate.ValidateObject` | cosmos/anima/src/script.rs:617-622 | the same for object members met in any order |
| `JsonGate.JsonAdmitted` | cosmos/anima/src/script.rs:560-568 | a value is admitted exactly when its height is at most 64, its size at most 65,536 and its numbers in range |
| `RouterRuns.RetiredInboxNeverGrows` | cosmos/aether/src/router.rs:201-207 | in every interleaving, the inbox of a registration that left the table never takes another envelope |
| `RouterRuns.HungUpInboxIsDead` | cosmos/aether/src/router.rs:375-384 | in every interleaving, an inbox whose receiver has hung up neither takes nor gives anything again |
| `RouterRuns.UnloadIsFinal` | cosmos/aether/src/router.rs:196-207 | in every interleaving with fewer than 2^64 ids handed out, an unloaded id never returns to the table and nothing is enqueued to it again |
| `RouterRuns.WrappedIdReturns` | cosmos/aether/src/router.rs:183-188 | the bound is needed: after 2^64 further registrations an unloaded id is in the table again |
| `RouterRuns.IdsAreFreshIff` | cosmos/aether/src/router.rs:119-120 | ids are pairwise different and never the kernel's if and only if fewer than 2^64 were handed out |
| `RouterRuns.StampsAreFreshIff` | cosmos/aether/src/router.rs:294 | stamps are pairwise different if and only if at most 2^64 envelopes were stamped |
| `RouterRuns.RunSound` | cosmos/aether/src/router.rs:283-396 | every interleaving, between the copies of a fan-out too, keeps the journal equal to the last cap-many accepted headers in append order, the topic table within its cap and without repeated subscribers, different ids on different inboxes, and each inbox within capacity with what was sent equal to what was received followed by what is queued |
| `RouterRuns.DeliveriesAreJournaled` | cosmos/aether/src/router.rs:281-330 | in every interleaving, whatever reached an inbox was stamped and journaled first |
| `RouterRuns.EntriesHaveTheirOwnStamps` | cosmos/aether/src/router.rs:294 | in every interleaving of fewer than 2^64 routings no two journal entries, and no envelope on its way there, share a stamp |
| `RouterRuns.FanOutIsFair` | cosmos/aether/src/router.rs:386-396 | in every interleaving the subscribers read at resolution are distinct, and the call's k-th turn offers one copy to the k-th of them, who gets it exactly when its inbox can take it at that very step; the turn after the last ends the call |
| `RouterRuns.RemoteExposureIsExplicit` | cosmos/aether/src/router.rs:208-233 | in every interleaving a role is resolvable from another node, to a given creature, if and only if some explicit remote bind of that role to it is the last word on the role and the creature's bindings were not dropped since |
| `RouterRuns.LastBindWins` | cosmos/aether/src/router.rs:208-222 | in every interleaving a role is bound to a creature, locally or for remote use, if and only if a bind that says so is the last word on the role and the creature's bindings were not dropped since |
| `RouterRuns.SubscribersAreThoseWhoStayed` | cosmos/aether/src/router.rs:246-261 | in every interleaving the subscribers of a topic are exactly those who subscribed when there was room and have not left since |
| `Provenance.ResolvesToAddressee` | cosmos/aether/src/router.rs:331-372 | an address resolves to the addressed creature, the kernel, the holder of the addressed role, or the holder of the distributor, transport, realm-gateway or omega-gateway role by kind; to the subscribers of a topic; or to nobody exactly when that role has no holder |
| `Provenance.DeliveriesReachTheirAddressee` | cosmos/aether/src/router.rs:283-399 | in every interleaving whatever was delivered was posted with that header and payload and stamped then, was allowed at the gate, and went to a creature its address meant when it was resolved |
| `Provenance.JournalHoldsOnlyGranted` | cosmos/aether/src/router.rs:303-329 | in every interleaving whatever was journaled was posted and allowed at the gate |
| `Provenance.ListsAreTheRegistered` | cosmos/aether/src/router.rs:183-196 | in every interleaving the list the gate reads for a creature is the one handed over when its id was given out |
| `Provenance.GateStopsIff` | cosmos/aether/src/router.rs:303-312 | the gate stops exactly registered creatures that have a list without the wildcard in which no entry names the destination |
| `Provenance.RefusedIsNeverSeen` | cosmos/aether/src/router.rs:303-312 | in every interleaving of fewer than 2^64 routings an envelope refused at the gate is never journaled or delivered, then or later |
| `BusRouter.Bus.constructor` | cosmos/aether/src/router.rs:136-150 | a new router: capacity at least one, ids from one, and in order |
| `BusRouter.Bus.Register` | cosmos/aether/src/router.rs:183-188 | one registration is exactly the machine's two sections: a row with the caller's list and a new empty inbox under the next id, nothing else; the router stays in order |
| `BusRouter.Bus.RetainRoles` | cosmos/aether/src/router.rs:203 | the retain loop drops exactly the bindings of the id |
| `BusRouter.Bus.RetainSubscribers` | cosmos/aether/src/router.rs:204-206 | the loop drops exactly the id from every subscriber list |
| `BusRouter.Bus.Deregister` | cosmos/aether/src/router.rs:201-207 | one deregistration is exactly the machine's three sections: the row, the bindings and the subscriptions of the id go, and everyone else keeps theirs, in their places; the router stays in order |
| `BusRouter.Bus.Subscribe` | cosmos/aether/src/router.rs:246-261 | nobody's earlier subscription is lost and nobody else is added; the caller is subscribed afterwards exactly when the topic existed or there was room for one more; the router stays in order |
| `BusRouter.Bus.PushJournal` | cosmos/aether/src/router.rs:315-329 | push then drop-oldest leaves the last cap-many entries |
| `BusRouter.Bus.FanOut` | cosmos/aether/src/router.rs:386-396 | the loop offers the envelope to each subscriber in turn |
| `BusRouter.Bus.Dispatch` | cosmos/aether/src/router.rs:331-372 | the in-place dispatch by address mode equals the machine's resolution and delivery, which `Provenance.ResolvesToAddressee` spells out |
| `BusRouter.Bus.Route` | cosmos/aether/src/router.rs:283-373 | one routing call is exactly the machine's run of sections, gives the answer and has the effect spelled out for it, and keeps the router in order |
| `BusRouter.RouteIs` | cosmos/aether/src/router.rs:283-373 | the run of steps of one routing call with no other in progress has the state computed section by section |
| `BusRouter.RepliesToRoute` | cosmos/aether/src/router.rs:283-384 | the answer of a routing call names the first thing in the way: depth, size, the gate, a role without holder, or the recipient's inbox; recipients by address mode are spelled out |
| `BusRouter.EffectOfRoute` | cosmos/aether/src/router.rs:283-399 | what a routing call does: refused for its header nothing; denied only the clock; otherwise one journal entry, and one copy at the end of exactly the recipient's inbox, or of each subscriber's that can take it, in order, or of none if an error is answered |
| `BusRouter.TooDeepIff` | cosmos/aether/src/router.rs:286-288 | an envelope is too deep if and only if its sender or destination is wrapped more than eight times |

## Left out

- Real file I/O, fsync, temporary names and inode checks: a write is one step with an outcome.
- Runs.RunInv: a write that loses exactly its final newline is not a fault of the machine, whose byte totals count whole
  lines; `TornLog` proves on bytes what it does to a file.
- Runs.RunRecoverable: the same, and compactions in a run list each known Realm once and use finite scores; the
  non-finite case is `Findings.CompactedLogRecoversIff`.
- Replication.ReplicasConverge: manifest and quarantine reason are last-writer and not compared; merges that overlap
  or are refused are outside its hypothesis (`Overlap`).
- FsStore.FsBestiaryStore.MergePush: the object's method is not interrupted; `Merges` has the overlaps.
- FsStore.FsBestiaryStore.Recover: the sorted order of the Realm files is a parameter, since file names are symbolic
  hashes; of a journal total and a file count that are both over their caps either may be reported, since the listing
  that checks them is not ordered.
- JsonGate.ValidateJson: which error message is returned is not modelled, only acceptance and the count.
- BusRouter.Bus.Route: signature verification has no effect on routing and is not modelled.
- The `.head` hint files, which recovery ignores on mismatch.
- SHA-256, Ed25519 and the JSON encodings themselves.
- Listing, metadata, chunked reads, snapshots and `signed_entries`: reads that copy rows out of the catalog.
- The AI curator, its prompts and the model client; a curator is only the decisions it returns.
- `validate_dynamic_json`, which repeats the JSON walk over script values with two extra size checks.
- The Function and Job runtime, kernel, engines, HTTP, MCP and command-line surfaces.
- I/O errors of the line readers and of the prompt's own output: a failing fill or write ends the call with that error.
