# tether: a verified model of the sync pipeline

tether keeps client replicas of filtered Postgres tables. Source transactions are read from the write-ahead log and
made durable in `change_log`. A polling cursor hands the logged changes to shape streams. Each stream keeps a row cache
and an event log, and sessions receive snapshots and events over a bounded buffer. Client writes come back as
idempotent mutations.

This project models that pipeline in Dafny 4.11 and proves that the parts fit together: in every run, the replica of an
open, subscribed session is the filtered source table at the position the pipeline has reached
(`Pipeline.ReplicaIsFilteredTable`), under hypotheses that are shown to be exact where the code can violate them.

Verify everything with `dafny verify dfyconfig.toml`.

## How it is organised

| file | content |
|---|---|
| `Text.dfy`, `Rows.dfy` | joining and decimal rendering; values, rows, the rendered primary key |
| `Filters.dfy`, `FilterText.dfy` | the filter evaluator and its SQL meaning; the WHERE parser and SQL rendering |
| `Spellings.dfy` | which texts the WHERE parser accepts, and what it makes of each |
| `Wal.dfy` | changes, tuple decoding, relation fingerprints |
| `ShapeLog.dfy`, `Shapes.dfy` | the event log and the shape instance, as values and as classes updated in place |
| `Views.dfy` | view maintenance and snapshot handoff |
| `Replay.dfy`, `Drift.dfy` | log replay, resume, event life cycles; schema drift and handoff |
| `ConcurrentRead.dfy`, `SubscribeRace.dfy` | the unlocked snapshot read; subscribing while changes are dispatched |
| `Ingest.dfy`, `Consumer.dfy` | the persist-then-acknowledge protocol with crashes; the consumer loop in place |
| `Messages.dfy` | what replication messages mean: edits, transactions, relations, status updates |
| `Engine.dfy`, `EngineLoops.dfy` | subscriptions, sessions and dispatch; the engine's loops in place |
| `Delivery.dfy` | what lands in a session's buffer, message by message, and the buffer in every run |
| `Pipeline.dfy` | the composition and the end-to-end results |
| `Reconnect.dfy` | every point at which a client can stop reading is a resume point, in the engine and end to end |
| `Mutations.dfy`, `Outbound.dfy` | idempotent mutations and queue replay; the outbound buffer |

State that the program changes in place is modelled twice: as a class or a looping method that changes it, and as a
function on values. The method's contract equates its result with the function, and the theorems are about the function.

Concurrent and crash-prone protocols are state machines. A run is any sequence of actions, and an action that is not
enabled leaves the state alone, so every theorem about `Run(actions)` holds for all interleavings.

## Hypotheses

The code relies on these facts without establishing them. They appear in the definitions named here, always for one
shape at a time: what happens to other shapes is unrestricted.

- The source table evolves by possible changes: complete inserts of new keys, deletes whose old image carries the key,
  and updates of present keys (`Views.PossibleChange`).
- Past the snapshot of a stream, its updates are ones a shape can follow (`Views.Recoverable`). `Views.UpdateExact` shows
  that this is exactly what one update needs, and `Views.ViewMaintenance` and `Views.HandoffExact` that it is exactly
  what a whole history needs. `Views.OmittedColumnIsLost` and `Views.MovedRowKeepsOldKey` give inputs outside it.
- Rendered primary keys identify rows. A table is a map from rendered keys to rows. `Rows.PkKeyExact` says exactly when
  a composite text key identifies its row.
- Snapshot rows are the rows the query returns at the snapshot position, and the query and the filter agree on the rows
  the filter accepts (`Views.SnapshotOf`). `Views.SqlViewExact` says that without this the query does not return the view.
- When a stream is registered, no change of its table past its snapshot position has been dispatched yet
  (`Pipeline.InTime`). `Views.LateRegistrationExact` and `Views.LateRegistrationPerKey` say exactly what happens otherwise.
- There is one stream per shape name, and clients do not bring offsets from an earlier process (`Engine.Resumable`).
  `Reconnect.ReconnectAnywhere` shows that whatever a client of the current streams holds qualifies, when the client
  remembers the offset stamped on the last snapshot or change it read. `Engine.StaleOffsetStrandsClient` shows what a
  stale offset does to the other clients.
- In `Engine` and `Pipeline` subscribing and dispatching do not overlap. `SubscribeRace` models the overlap and says
  exactly when it loses an event.

Go values are modelled as null, integers and text, with one rendering. Offsets, ids and log positions are unbounded
integers.

## Model

| member | source | states |
|---|---|---|
| `Rows.ComputePkKey` | internal/shape/log.go:134-147 | the key is the rendered key columns joined by a bar; an empty key list and the first missing column are errors |
| `Rows.KeyFails` | internal/shape/log.go:134-147 | a row has no key exactly when the key list is empty or a key column is missing, and the error names the first one missing |
| `Rows.PkKeyText` | internal/shape/log.go:134-147 | the key of one column is its rendered value, and each further column follows after a bar, in order |
| `Rows.RenderExact` | internal/shape/log.go:144-146 | two values render alike exactly when they are the same or one is the text that prints the other |
| `Rows.PkKeyReadsKeyColumns` | internal/shape/log.go:134-147 | rows that agree on the key columns have the same key, or the same error |
| `Rows.PkKeyInjective` | internal/shape/log.go:144-146 | equal rendered keys mean equal key values when each column keeps one kind and, for composite keys, the parts of one of the rows contain no bar |
| `Rows.PkKeyCollides` | internal/shape/log.go:144-146 | for every composite text key with a bar in a value there is a different text key that renders alike |
| `Rows.PkKeyExact` | internal/shape/log.go:144-146 | a composite text key is shared by no other text key exactly when no value contains a bar |
| `Filters.SqlSelectsIff` | internal/shape/filter.go:138-174 | under SQL three-valued logic the rendered filter selects a row exactly when Match accepts it, its columns exist, every argument is non-nil and every `!=` column is non-null |
| `Filters.SqlDisagrees` | internal/shape/filter.go:166-170 | a null in a `!=` column is accepted by Match and not selected by the query |
| `Filters.ValuesEqualExact` | internal/shape/filter.go:176-213 | a null equals only a null, values of one kind are equal exactly when they are the same, an integer equals the text that prints it, and equality is symmetric |
| `Filters.MissingColumn` | internal/shape/filter.go:154-174 | a row without the column passes IS NULL and nothing else |
| `Filters.Opposites` | internal/shape/filter.go:154-174 | on a present column `!=` is the opposite of `=`, IS NOT NULL of IS NULL, and IS NULL means null |
| `FilterText.ComputeSplitAnd` | internal/shape/filter.go:107-120 | the loop over one upper-cased copy yields the recursive cut of the clause at every " AND " |
| `FilterText.ComputeParseWhere` | internal/shape/filter.go:37-79 | the parse pairs fragments with arguments left to right; which texts it accepts, and as what, is `Spellings.AcceptedExactly` |
| `Spellings.FragmentParses` | internal/shape/filter.go:46-105 | every spelling of a fragment reads as its column and operator: `=`, `!=` and `<>` with any white space, IS NULL and IS NOT NULL in any letter case |
| `Spellings.FragmentReads` | internal/shape/filter.go:46-105 | every fragment the parser accepts is such a spelling |
| `Spellings.AmbiguousExactly` | internal/shape/filter.go:107-120 | a fragment is cut in two exactly when its column is called AND and stands between two spaces |
| `Spellings.SplitReads` | internal/shape/filter.go:107-120 | the parts, glued with the separators that stood between them, are the clause, and no part holds a separator |
| `Spellings.SpellingParses` | internal/shape/filter.go:37-133 | every clause spelt from such fragments, with AND in any letter case between them and any white space around, parses to its filter |
| `Spellings.AcceptedExactly` | internal/shape/filter.go:37-133 | a text with arguments parses to a filter if and only if it is such a spelling of the filter and the arguments are the compared values in order |
| `Spellings.ParseRoundTrip` | internal/shape/filter.go:37-133 | the canonical text of any filter parses back to the same predicates and arguments, also for columns named AND, IS or NOT |
| `FilterText.AcceptedClauseRenders` | internal/shape/filter.go:230-260 | every accepted clause renders without error, with the same arguments and placeholders 1..n in order |
| `FilterText.ComputeSqlClause` | internal/shape/filter.go:230-260 | the rendered text is the conjuncts whose SQL meaning is compared with Match; empty filters and bad identifiers fail |
| `FilterText.RenderFails` | internal/shape/filter.go:230-239 | an empty filter and a bad identifier are the only failures, each with its own error |
| `FilterText.QuotedReads` | internal/shape/filter.go:262-264 | a quoted identifier stands between double quotes and reads back as the identifier |
| `Wal.ComputeFingerprint` | internal/wal/decode.go:42-55 | the fingerprint joins namespace, name and four parts per column |
| `Wal.FingerprintInjective` | internal/wal/decode.go:42-55 | a relation whose names contain no bar shares its fingerprint with no other such relation and with none that has as many columns |
| `Wal.FingerprintCollides` | internal/wal/decode.go:42-55 | a bar in a namespace can move into the relation name without changing the fingerprint, whatever the columns |
| `Wal.FingerprintExact` | internal/wal/decode.go:42-55 | with bar-free column names the fingerprint identifies a relation among those with as many columns exactly when namespace and name contain no bar |
| `Wal.ComputeDecodeTuple` | internal/wal/decode.go:57-88 | columns are decoded in order into present, null or omitted; surplus columns and unknown kinds fail; no tuple is no image |
| `Wal.DecodeTupleFails` | internal/wal/decode.go:57-88 | decoding fails exactly on more columns than the relation has or on an unknown kind |
| `Wal.DecodeRebuildsRow` | internal/wal/decode.go:57-88 | decoding what the server sends for a row with unchanged columns gives the row without them, and laying it over the previous row gives the row back |
| `ShapeLog.Log.AppendEvent` | internal/shape/log.go:56-71 | a live log grows by one event at the next offset; a halted log refuses and stays as it is |
| `ShapeLog.Log.HaltWith` | internal/shape/log.go:40-46 | the first halt reason is kept |
| `ShapeLog.Log.EventsAfter` | internal/shape/log.go:85-104 | the events past an offset, or no answer for an empty log and for an offset before the first event |
| `ShapeLog.AfterIssuedOffset` | internal/shape/log.go:82-121 | for every issued offset the answer is exactly the rest of the log |
| `ShapeLog.AfterExact` | internal/shape/log.go:85-104 | the answer for every offset: what follows an issued one, everything for one that is not positive, nothing for one never issued, and none from an empty log except for 0 |
| `ShapeLog.FirstHaltWins` | internal/shape/log.go:40-46 | a second halt changes nothing, and a halt leaves events and offsets alone |
| `Shapes.ComputePatchRow` | internal/shape/apply.go:312-326 | new values win over cached ones and cached values over old ones |
| `Shapes.Instance.ApplyChange` | internal/shape/apply.go:72-102 | halted, other-table, covered, drifted and applied changes, with the new cache, log and fingerprint |
| `Views.OtherTablesIgnored` | internal/shape/apply.go:155-161 | a live shape ignores a change whose schema, public when empty, or table is not its own |
| `Views.OwnTableApplied` | internal/shape/apply.go:72-102 | a live shape carries out every other uncovered change with its fingerprint |
| `Views.DriftHalts` | internal/shape/apply.go:87-90 | a different fingerprint halts the shape, with drift as the reason, and touches nothing else |
| `Views.UnknownOpFails` | internal/shape/apply.go:92-101 | exactly an operation the shape does not know fails as unknown |
| `Views.FailedApplyKeepsRows` | internal/shape/apply.go:72-102 | a failed call changes no row and appends nothing |
| `Views.ImagelessChange` | internal/shape/apply.go:179-260 | inserts and deletes without an image do nothing; an update without images counts as an empty row |
| `Shapes.Instance.ApplyInsert` | internal/shape/apply.go:179-199 | a matching row is cached and an insert appended |
| `Shapes.Instance.ApplyDelete` | internal/shape/apply.go:201-233 | a cached row, or an uncached one whose old image matches, is removed and a delete appended |
| `Shapes.Instance.ApplyUpdate` | internal/shape/apply.go:235-293 | the row enters, stays in, leaves or stays out of the view by the patched row |
| `Shapes.Instance.LookupRow` | internal/shape/apply.go:295-310 | the key of an image and the row cached under it |
| `Shapes.Instance.CheckFingerprint` | internal/shape/apply.go:163-177 | the first fingerprint is remembered and only a different one is refused |
| `Shapes.Instance.Load` | internal/shape/apply.go:106-135 | matching snapshot rows enter the cache and the log in order; the first row without its key stops the load |
| `Views.LoadRowsAccepts` | internal/shape/apply.go:106-135 | loading any rows caches and logs the accepted ones in order, and fails exactly when one of those has no key |
| `Shapes.Instance.Materialized` | internal/shape/apply.go:145-153 | every cached row once |
| `Views.PatchIsTrueRow` | internal/shape/apply.go:235-260 | the patched row is the true new row of the table when the row is cached or the old image carries every omitted column |
| `Views.UpdateExact` | internal/shape/apply.go:235-293 | a possible update, also one that moves its row to another key, leaves the cache equal to the new view exactly when a row that ends up in the view keeps its key, and a row from outside enters fully known or stays out without a false match |
| `Views.KnownIsRecoverable` | internal/shape/apply.go:312-326 | a key-keeping update whose omitted columns are cached or in the old image is such an update |
| `Views.OmittedColumnIsLost` | internal/shape/apply.go:256-289 | a row entering the view with an omitted column and no old image is cached without the column |
| `Views.MovedRowKeepsOldKey` | internal/shape/apply.go:236-289 | a row that changes its key inside the view stays cached under the old key |
| `Views.DecodedUpdateEvolves` | internal/wal/decode.go:57-88 | a decoded update with unchanged columns takes the table to the row the server meant, and can be followed exactly when a row in the view keeps its key and a row from outside brings the unchanged columns in its old image or, staying outside, no false match |
| `Views.ApplyMaintains` | internal/shape/apply.go:72-102 | one possible change that can be followed takes the filtered table to the new filtered table, unless the shape halts |
| `Views.ViewMaintenance` | internal/shape/apply.go:179-326 | over any possible history a shape that stayed live holds the filtered table after every change if and only if every change can be followed |
| `Views.SqlViewExact` | internal/shape/filter.go:138-174 | the query's rows are a part of the view, and all of it exactly when the query agrees with the filter on every accepted row |
| `Views.SnapshotLoads` | internal/shape/apply.go:106-135 | loading the query's rows succeeds and gives them back as the cache, which is the filtered table exactly when the query agrees with the filter on it |
| `Views.HandoffPosition` | internal/shape/apply.go:80-85 | after a snapshot and any prefix of the history the cache is the filtered table at the later of the cut and the prefix; only changes past the cut have to be ones the shape can follow |
| `Views.HandoffExact` | internal/shape/apply.go:80-135 | over any possible history a loaded shape that stayed live holds the filtered table after every prefix past the cut if and only if every change past the cut can be followed |
| `Views.LateRegistrationExact` | engine.go:433-447 | a stream registered past its snapshot's cut is caught up exactly when the view did not change in between; no change of its table in between is enough |
| `Views.LateRegistrationPerKey` | engine.go:433-447 | until a change touches a key again, a late stream is right about it exactly when the view of that key was the same at the snapshot and at the registration |
| `Views.LateRegistrationMissesChange` | engine.go:433-447 | a snapshot taken before an insert and registered after its dispatch is not caught up |
| `Replay.ReplayOverlap` | internal/shape/log.go:85-104 | replaying events a replica already reflects still reaches the full fold |
| `Replay.NewImageKeyPreserves` | internal/shape/apply.go:235-260 | an update whose new image carries the looked-up key keeps it in every state |
| `Replay.LogReplayAndResume` | internal/shape/log.go:56-104 | after any key-preserving run offsets are 1..n, every event names the shape's table, folding the log gives the cache, and so does resuming at any issued offset |
| `Replay.LogReplayExact` | internal/shape/apply.go:179-293 | the log rebuilds the cache, every row under its own key, after every prefix of a run of changes and loads if and only if every update that reaches the shape and leaves its row in the view keeps the key |
| `Replay.DeletesCarryRows` | internal/shape/apply.go:201-293 | in every key-preserving run each delete event of a row the log holds carries that row, whole |
| `Replay.LawfulExact` | internal/shape/apply.go:201-293 | a possible change emits an out-of-place event exactly when its old image satisfies the filter for a row outside the view |
| `Replay.PaddedOldImageBreaksLifeCycle` | internal/shape/apply.go:206-216 | deleting a row outside the view with a null-padded key image emits a delete |
| `Replay.HonestIsInPlace` | internal/shape/apply.go:201-293 | a possible change whose old image is absent or complete is in place |
| `Replay.EventDiscipline` | internal/shape/apply.go:201-293 | from any snapshot over any history the shape can follow, each key's events are insert, update*, delete, repeated, with the key cached exactly in between, if every change past the snapshot is in place; on a shape that stayed live, only if |
| `Drift.HaltsExactlyOnDrift` | internal/shape/apply.go:72-102 | over any run of changes and loads a live shape halts exactly when two fingerprints of its table's changes, not covered when they arrive, differ |
| `Drift.HandoffCutIndependence` | internal/shape/apply.go:80-135 | over any possible history a snapshot at any cut followed by the whole history stays live wherever replaying the history on an empty shape does; it holds the filtered table when the changes past the cut can be followed, and the replay's cache when all can; the replay halts on drift anywhere, the handed shape on drift past the cut only |
| `Drift.DriftBeforeCutHaltsReplay` | internal/shape/apply.go:80-90 | with drift before the cut the replay halts and the handed shape does not |
| `Drift.HaltIsFinal` | internal/shape/apply.go:72-75 | after a halt nothing changes and every later call fails |
| `Drift.OneFingerprint` | internal/shape/apply.go:163-177 | over every run all events from fingerprinted changes come from one fingerprint |
| `ConcurrentRead.SnapshotReadConverges` | engine.go:410-417 | in every interleaving the rows read are never older than the offset read before them, and the events after that offset lead to the cache |
| `ConcurrentRead.SerialApply` | internal/shape/apply.go:179-293 | the two halves of a change, run alone, are the change |
| `ConcurrentRead.SerialRead` | engine.go:410-417 | the two reads, run alone, give the offset of the last event and the rows |
| `SubscribeRace.SubscriberRightExactly` | engine.go:380-465 | in every interleaving of subscribing and dispatching a subscriber is right about a key exactly when the events looked at between the reading of the stream and the marking of the session left the key as it was, or a later event touched it; with none in between it is right about everything |
| `SubscribeRace.EventIsLost` | engine.go:900-912 | an event appended and looked at in between never reaches the subscriber |
| `Ingest.PersistExtends` | internal/wal/consumer.go:299-349 | persisting the next transaction appends exactly its rows and persisting an old one none; either way each row draws an id |
| `Ingest.AcknowledgedIsDurable` | internal/wal/consumer.go:278-297 | in every run, with crashes and redelivery, every change of every transaction up to any acknowledged position and up to the checkpoint is in `change_log`, with its position, transaction id, number and content |
| `Ingest.PersistBeforeAck` | internal/wal/consumer.go:278-297 | with a server that streams only past the requested position, every acknowledged position is 0 or at most the checkpoint |
| `Ingest.RedeliveryMovesCheckpointBack` | internal/wal/consumer.go:334-340 | with redelivery a run exists that leaves the checkpoint below an acknowledged position |
| `Ingest.CheckpointBehindExactly` | internal/wal/consumer.go:334-340 | in every run the checkpoint is below an acknowledged position exactly when the transaction persisted last is older than the newest acknowledged one |
| `Ingest.RedeliveryExactly` | internal/wal/consumer.go:334-340 | in every run only a persist changes that, and it leaves the checkpoint behind exactly when the stream position is before the newest acknowledged transaction |
| `Ingest.ExactlyOnceLog` | internal/wal/consumer.go:142-174 | in every run `change_log` holds the changes of a prefix of the commit history and nothing else: change i of a transaction once, in order, with the transaction's end position, its id, the number i and the change itself, under increasing ids |
| `Ingest.PositionsAreEnds` | internal/wal/consumer.go:163-173 | every position sent or stored is 0 or the end of a committed transaction, the commit record only when that end is 0 |
| `ReplicationConsumer.WalConsumer.Run` | internal/wal/consumer.go:51-178 | the receive loop handles inputs in order until the first error, and while it runs the position to acknowledge is the stored checkpoint |
| `ReplicationConsumer.WalConsumer.constructor` | internal/wal/consumer.go:180-195 | a consumer starts at the checkpoint, or at 0 without one |
| `ReplicationConsumer.WalConsumer.HandleInput` | internal/wal/consumer.go:77-177 | status updates, keepalives, relations, begin, row and commit messages |
| `ReplicationConsumer.WalConsumer.PersistChanges` | internal/wal/consumer.go:299-349 | rows are inserted unless present, and rows and checkpoint change together or, when a statement fails, not at all; drawn ids are lost |
| `ReplicationConsumer.WalConsumer.PersistThenAck` | internal/wal/consumer.go:278-297 | the batch is persisted, then its position becomes the one acknowledged; a failed persist, hook or status ends the loop with nothing acknowledged |
| `ReplicationConsumer.WalConsumer.SendStandbyStatus` | internal/wal/consumer.go:358-370 | a status carries the durable position and requires it to be the checkpoint |
| `ReplicationConsumer.WalConsumer.HandleRelation` | internal/wal/consumer.go:197-209 | a relation id with a different fingerprint is refused |
| `ReplicationConsumer.WalConsumer.Decode` | internal/wal/consumer.go:219-276 | a row message becomes a change with its relation's names and fingerprint; unknown relations and bad tuples fail |
| `ReplicationConsumer.LoopRefinesProtocol` | internal/wal/consumer.go:137-175 | each loop iteration is a run of protocol steps, and a failing one is a run that ends in a crash |
| `ReplicationConsumer.ConsumerLifeIsRun` | internal/wal/consumer.go:51-178 | from any reachable state a whole life of the consumer, with source commits in between and any failure, is a protocol run, so everything at or before an acknowledged position is in its change_log |
| `ReplicationConsumer.RelationsNeverChange` | internal/wal/consumer.go:197-209 | during a consumer's life the relation recorded for an id never changes |
| `Messages.MessageDecodes` | internal/wal/consumer.go:219-276 | the message of an insert, update or delete decodes to a change with its operation, its images without the unchanged columns, and the relation's names and fingerprint |
| `Messages.MessageRefused` | internal/wal/consumer.go:211-276 | a row message fails exactly when its relation is unknown or a tuple its operation uses is bad |
| `Messages.MessageEvolves` | internal/wal/consumer.go:219-276 | that change makes the table do what the message says: the row appears, is replaced or disappears |
| `Messages.TransactionIsLogged` | internal/wal/consumer.go:137-175 | begin, rows and commit append the decoded changes to `change_log` in message order under the end position, which becomes the checkpoint and is acknowledged; leftovers of an unfinished transaction are dropped |
| `Messages.FailedCommit` | internal/wal/consumer.go:278-349 | what a failed transaction, hook or status leaves stored, acknowledged and ready to acknowledge |
| `Messages.RelationIsUsed` | internal/wal/consumer.go:197-217 | an accepted relation is what every later row of its id is decoded with |
| `Messages.RelationRefusedExactly` | internal/wal/consumer.go:197-209 | a relation is refused exactly when its id is known with another fingerprint |
| `Messages.StatusSentExactly` | internal/wal/consumer.go:77-132 | a status is owed exactly after the deadline or a keepalive that asks for it, goes out next with the position durable then, and besides it only a commit sends anything |
| `Engine.NotifyFolds` | engine.go:895-912 | a dispatch changes the replica of a subscribed open session by exactly the events appended to its stream |
| `Delivery.DispatchTells` | engine.go:855-913 | for every session of a dispatch the messages queued are, as far as there is room, one error for each subscribed stream whose apply failed with drift or on a halted log, in visiting order, then one change for each event of the others; the client is disconnected exactly when an event does not fit |
| `Delivery.FailureReported` | engine.go:880-893 | a subscribed stream is reported once if its apply fails that way and not at all otherwise |
| `Engine.SubscribeJoins` | engine.go:388-465 | each way of joining leaves an open session with exactly the rows of the stream |
| `Engine.SubscribeElsewhere` | engine.go:388-465 | a subscription, right or wrong, leaves the stream and the replica of every other shape alone |
| `Delivery.SubscriptionQueues` | engine.go:388-484 | the messages of each way of joining: events after the offset, rows with the last offset, or snapshot; an error naming the shape before it for an offset the log cannot serve, a nameless one after a failure, disconnection when it does not fit |
| `Engine.ClientConvergence` | engine.go:388-502 | in every run that respects a shape, everything queued to an open session, folded onto the replica it connected with, is the stream's rows, whatever happens to other shapes |
| `Delivery.RunKeepsBuffers` | transport/conn.go:54-89 | in every run no session holds more unwritten messages than its capacity, nothing is written that was not queued, and every log counts 1..n |
| `Delivery.PumpsWriteAll` | transport/conn.go:72-89 | in every run pumping writes the queued messages one by one until none is left, and touches nothing else |
| `Delivery.ClosedForever` | transport/conn.go:54-69 | in every run nothing is queued for a session after it was closed |
| `Engine.StreamReplacedExactly` | engine.go:396-450 | a subscription replaces a stream that is being served exactly when its resume offset is negative, or positive while the log is empty |
| `Engine.StaleOffsetStrandsClient` | engine.go:396-450 | such a subscription leaves every client of the empty stream connected, subscribed and wrong about the new stream |
| `Reconnect.EnqueueChangesPoints` | engine.go:396-406 | while a stream is replayed from an offset its client converges from, every message leaves the client at a resume point, also when it is cut off half way |
| `Reconnect.NotifyPoints` | engine.go:895-912 | a dispatch leaves every session, open or cut off, at resume points of the grown stream |
| `Reconnect.SubscribedShapePoints` | engine.go:388-465 | each way of joining stamps its messages with offsets that are resume points for the rows sent |
| `Reconnect.ReconnectAnywhere` | engine.go:388-465 | in every run, a client that stopped reading anywhere and connects again with the offsets and replicas it held there respects every shape the run respected, whatever was appended since |
| `Reconnect.ReconnectedReplica` | engine.go:388-465 | the same in the whole pipeline, and from then on the replica of a live stream the client is subscribed to is the filtered source table |
| `EngineLoops.QueueEvents` | engine.go:486-502 | events are queued in order until one does not fit, which disconnects the client |
| `EngineLoops.LiveEngine.ApplyToStreams` | engine.go:867-898 | every stream sees the change once, in some order; failed shapes are reported to their subscribers |
| `EngineLoops.LiveEngine.DispatchChange` | engine.go:855-913 | the loops over streams and sessions compute the dispatch the run theorems use |
| `EngineLoops.LiveEngine.FanOutNewChanges` | engine.go:810-853 | the rows past the cursor are dispatched in order and the cursor follows; a row that cannot be read stops the poll before it, a row whose position does not parse stops it after passing the row over |
| `EngineLoops.NextPollResumes` | engine.go:810-853 | the next poll starts with the row that could not be read, or after the row whose position did not parse, and the rows before it were dispatched; after a complete poll it finds nothing |
| `EngineLoops.PollIsRun` | engine.go:810-853 | from any reachable state between polls, a poll without unparsable positions is a run of pipeline actions with the same streams, sessions and cursor |
| `EngineLoops.LiveEngine.SubscribeSession` | engine.go:305-465 | resume, materialized snapshot or fresh stream, with the slow-client exit and the error message after a failed subscription |
| `Pipeline.FanOutCursor` | engine.go:810-853 | in every run, with no hypothesis, the dispatched changes are a gap-free, duplicate-free prefix of the log and of the committed changes, and a finished poll stands on a transaction boundary |
| `Pipeline.StreamIsFilteredTable` | engine.go:855-913 | in every run that respects a shape, whatever happens to other shapes, the cache of its live stream is the filtered source table at the later of its snapshot cut and the dispatched position, if the changes in between can be followed |
| `Pipeline.ReplicaIsFilteredTable` | engine.go:388-465 | in every such run the replica of an open subscribed session is that filtered table |
| `Pipeline.QuiescentReplica` | engine.go:810-853 | when in such a run everything committed has been dispatched the replica is the filtered current table |
| `Pipeline.SubscriberHoldsView` | engine.go:429-464 | a first subscription is such a run and holds the filtered initial table |
| `Mutations.AtMostOnce` | internal/mutate/apply.go:72-113 | in every interleaving a key is recorded exactly when one effect for it committed, rejected and failed calls leave none, and duplicates are reported only after the commit |
| `Mutations.QueueReplay` | engine.go:321-368 | a client that replays its queue over overlapping connections commits a prefix of the queue, in order, each once |
| `Mutations.MutationStore.Apply` | internal/mutate/apply.go:51-105 | key and effect become visible together or not at all |
| `Mutations.SerialCall` | internal/mutate/apply.go:72-104 | the interleaved steps, run alone, are that call |
| `Mutations.AloneExactly` | internal/mutate/apply.go:51-105 | exactly when a call is applied, a duplicate or rejected |
| `Mutations.EmptyKeyNeverRuns` | internal/mutate/apply.go:51-71 | in every interleaving a call with an empty key fails and runs nothing |
| `Outbound.BufferProtocol` | transport/conn.go:54-130 | in every interleaving nothing is sent on the closed channel, it is closed at most once, the buffer stays within capacity, and what the pump took is a prefix of what was accepted |
| `Outbound.ClosedAcceptsNothing` | transport/conn.go:54-69 | after the close no thread on its way gets a message in |
| `Outbound.PumpDrains` | transport/conn.go:72-89 | the pump takes what is buffered in order until nothing is left |
| `Outbound.Conn.constructor` | transport/conn.go:34-44 | a non-positive size gives a buffer of 64 |
| `Outbound.Conn.EnqueueMessage` | transport/conn.go:54-69 | a message is accepted exactly when the connection is open and has room |
| `Outbound.Conn.ShutDown` | transport/conn.go:110-130 | flag and channel end up closed |
| `Outbound.Conn.WritePump` | transport/conn.go:72-89 | messages leave in order until the buffer is empty or writing stops |
| `Outbound.SerialEnqueue` | transport/conn.go:54-69 | the interleaved enqueue, run alone, accepts exactly when the connection is open and has room |
| `Outbound.SerialShutdown` | transport/conn.go:110-130 | the interleaved shutdown, run alone, closes once |

## Left out

- Postgres, the replication wire format, JSON and WebSocket I/O: only atomic commit, unique-key blocking, streaming from a position and lossless storage are modelled.
- Go's dynamic value comparison for floats, byte slices and times, and how JSON changes integers: values are null, integers and text.
- How a snapshot obtains its position: that rows and position name the same cut is a hypothesis.
- Several claims keys under one shape name: sessions are matched by shape name, so delivery is stated with one stream per name.
- Subscribing and dispatching as interleaved steps in `Engine.Step` and `Pipeline.Step`: there they are atomic actions; `SubscribeRace` interleaves them for one stream and one session with room.
- Streams inside the engine are instance values, not shared objects: aliasing between the engine and an instance is not captured.
- Calling the engine's run loop twice in one process, which starts a new cursor over streams that still exist.
- What a client that resumes with an offset from an earlier stream or process holds itself: offsets carry no epoch, and only the effect on the stream and on the other clients is stated.
- The slot lag guard, idle sweep, metrics, logging, options, connection strings, the hub and the registry.
- TRUNCATE, which the consumer ignores, and deletes without a key image: they are not possible changes here.
- Non-ASCII filter text.
- A hello message after the first one: resume offsets are fixed when a client connects.
- The loop over several shape names in one subscribe message, and the error for an unknown name: each known name is its own action.
- Rows of `change_log` whose position does not parse: the store only holds positions it was given, so the pipeline has none.
- 64-bit overflow of offsets, ids and log positions.
