# TinyJoin, modelled and proved

TinyJoin is a relational engine in Rust, compiled to WebAssembly, that a page reaches through a Worker. Where several tabs
open one database, their Workers elect an owner, which serves the others. This project models the parts in which an error
would be quiet and expensive, and proves what each is for.

| area | files | main results |
|---|---|---|
| Checksum of stored pages | `Crc32.dfy`, `Crc32Tables.dfy` | sixteen bytes a step and 256 zero bytes a step, by tables that loops build, give the bit-by-bit CRC-32 of section 8 of RFC 1952, from any state |
| Copy-on-write page cache | `PageCacheState.dfy`, `PageCache.dfy` | every operation keeps two plain maps from page to bytes, whatever is evicted or fails; what reaches the device is sealed exactly where it was written to be; no write touches a committed page; an install happens wholly or not at all |
| Foreign keys | `ForeignKey.dfy`, `ForeignKeySchema.dfy`, `ForeignKeyForks.dfy`, `ForeignKeyGrove.dfy`, `ForeignKeyWitness.dfy`, `ForeignKeyMoves.dfy`, `ForeignKeyExact.dfy`, `ForeignKeyActions.dfy`, `ForeignKeyLimits.dfy` | the worklist ends on every schema; integrity, and exactly which statements, and which schemas, lose it; a DELETE removes the least closed set; what each action leaves of every row, and when a statement is refused; three inputs on which integrity is lost |
| Owners across tabs | `Coordinator.dfy`, `CoordinatorWorker.dfy`, `CoordinatorAnswers.dfy` | over every run with lost and delayed messages, a request reaches one engine once at most, is answered once at most and by what its owner said, fails only where it was given up, is never dropped, and no earlier owner comes back |
| The owner's queue | `DatabaseBroker.dfy` | transactions exclude each other, and end at the host as they do here; each request asks the host exactly what it should; the queue's bytes are counted exactly; service at once is the call that the queue would make, and overtakes nothing at the broker or at the host |
| A page's transactions | `ClientTransactions.dfy` | a commit is posted only when all has settled and nothing failed late, and a transaction in which nothing fails is not rolled back; BEGIN waits for every close; each caller is told once |
| JSON from messages | `JsonValidation.dfy` | the memo and the ancestor set never change the verdict of plain recursion |
| Expressions | `Expression.dfy`, `ExpressionLaws.dfy` | printing and parsing are inverse; an accepted expression never meets a value of a wrong type; what values operators give, by what undoes them |
| Page files | `PageDevice.dfy` | short and failing transfers refine a sequence of pages, and nothing fails unless the file does |
| Grouping | `GroupKey.dfy`, `Aggregate.dfy` | any hash gives the groups of a plain search; keys are equal exactly when values are; bytes are counted exactly |
| Changed keys | `ChangedKeys.dfy` | merges of merges report exactly the keys changed, or nothing |
| Request bytes | `RequestEncoder.dfy`, `RequestWriter.dfy`, `RequestSize.dfy` | the growing buffer holds what the format says, which decodes to the input; three estimators give one charge |

What the source updates in place is a class here, and each of its methods is proved against a function or a value; what it
computes is a function. The environment is nondeterministic: a device may fail or move any part of what it is asked, messages
may be lost, delayed and reordered, other requests may arrive whenever a handler waits, and a stand-in for a Worker may
answer before its `postMessage` returns or throws. Two things are assumed of a browser's locks: a lock has one holder, and a
client's lock queries are answered in order, from a state of the locks that is never older than the one before.

## Where the code falls short of its promise

* `foreign_key.rs` line 315 may rewrite an entry whose turn has passed, and the rows that refer to it are not looked at
  again. So an accepted DELETE can give a row other values and then delete it too late: `Dangling.AcceptedAndBroken`. An
  accepted UPDATE can change a row by one key and then, by a key that comes by a longer way, change in it what other rows
  reference: `LateValue.AcceptedAndBroken`. And an action that changes a row's primary key is planned as an upsert under
  the new key, which leaves the old row: `MovedKey.AcceptedAndBroken`. What is lost, and when:
  * of one accepted statement, `ForeignKeys.IntegrityExactly`: references stay whole if and only if all that its changes took
    away is covered, whatever its actions did to primary keys;
  * of a schema, told before any statement, `ForkedSchemas.ForklessIntegrity`: whatever its keys reference and whichever
    columns they share, a DELETE and an UPDATE or INSERT leave references whole where no key that gives rows other values has
    columns in its own table's primary key and the schema has no fork. A fork is a way by which one statement changes a row,
    and a longer way by which it then deletes that row or alters in it what a key references; a chain of keys alters it only
    where each has columns among those that the next one references. Where no key has columns among those that any key
    references, no UPDATE has one;
  * and this is exact, `ExactSchemas.BrokenExactly`: on schemas with room for rows, join tables, tenants' columns and
    references to unique indexes among them, some accepted statement on some intact database breaks a reference if and only
    if there is a fork or a key that gives rows other values in their own primary key;
  * `StraightSchemas.StraightIntegrity` is a simpler condition, for statements of any kind: however many keys a table has
    that only refuse, and whatever they reference.
* The comment above `mergeChangedKeys` (`src/common.ts` lines 127-135) says that a table is dropped when coalescing exceeds
  the bound. The code tests the bound before it knows whether a key is a repeat, so a repeat can drop a table whose set is
  within the bound. `KeyReports.RepeatRefused` is that case, and `KeyReports.RoomExactly` says exactly when there is room.

## Model

| member | source | states |
|---|---|---|
| CrcReference.CrcConcat | crates/tinyjoin-core/src/checksum.rs:68-71 | a message may be supplied in parts: the checksum of a concatenation continues over its parts in turn |
| CrcReference.PolynomialIs | crates/tinyjoin-core/src/checksum.rs:26-32 | the polynomial is that of section 8 of RFC 1952, by its exponents |
| CrcReference.CheckValue | crates/tinyjoin-core/src/checksum.rs:282-286 | the reference's checksum of the nine digits is the check value |
| CrcLinear.ZerosLinear | crates/tinyjoin-core/src/checksum.rs:17-20 | over zero bits, each bit of the state moves the result independently of the others |
| CrcLinear.ByteSplit | crates/tinyjoin-core/src/checksum.rs:33-38 | over a zero byte, the state is its upper bytes moved down, with what its lowest byte becomes by itself |
| CrcLinear.FeedByteFold | crates/tinyjoin-core/src/checksum.rs:121-123 | feeding a message byte bit by bit is folding it into the state and then feeding eight zero bits |
| CrcLinear.FeedWord | crates/tinyjoin-core/src/checksum.rs:93-101 | four message bytes are one little-endian word folded into the state before 32 zero bits |
| CrcTables.LookupsZeros | crates/tinyjoin-core/src/checksum.rs:11-14 | four lookups, one a byte, in consecutive slices are the state over that many zero bytes |
| CrcTables.LeapZeros | crates/tinyjoin-core/src/checksum.rs:17-20 | four lookups in the last tables are the state after 256 zero bytes |
| CrcTables.FillFirst | crates/tinyjoin-core/src/checksum.rs:26-32 | table 0, filled by eight shifts an entry, holds the checksum of each byte value |
| CrcTables.FillSlice | crates/tinyjoin-core/src/checksum.rs:33-38 | table k, filled from table k - 1, holds each byte value followed by k zero bytes, and no other table changes |
| CrcTables.EnterBit | crates/tinyjoin-core/src/checksum.rs:39-50 | one bit of the state, carried over 256 zero bytes, is entered in its row wherever an entry's value has it |
| CrcTables.Tables | crates/tinyjoin-core/src/checksum.rs:23-53 | all twenty tables hold what they are for once the loops have run |
| CrcTables.DenseCrc | crates/tinyjoin-core/src/checksum.rs:92-119 | sixteen lookups advance the checksum by the reference's sixteen bytes |
| CrcTables.PassZeros | crates/tinyjoin-core/src/checksum.rs:81-89 | a run of zero chunks, by leaps of sixteen chunks and then one at a time, is the reference's over those bytes |
| CrcTables.Crc32Update | crates/tinyjoin-core/src/checksum.rs:70-125 | from every state and over all bytes, the result is the bit-by-bit CRC-32 |
| CacheStates.OwnWritable | crates/tinyjoin-core/src/cache.rs:216-221 | a dirty entry's page is the candidate's: no committed page is there, so writing it touches none |
| CacheStates.WriteKeeps | crates/tinyjoin-core/src/cache.rs:660-675 | a device write where no committed page is keeps both views and every entry's standing, even one that fails part way |
| CacheStates.AddKeeps | crates/tinyjoin-core/src/cache.rs:602-617 | an entry placed after the others, or over a clean one, keeps the index exact and both views whole |
| CacheStates.RemoveRemoves | crates/tinyjoin-core/src/cache.rs:677-690 | after the last entry takes a removed one's place, the index is again exactly the entries, less one |
| CacheStates.DropHolds | crates/tinyjoin-core/src/cache.rs:315-329 | giving a page up keeps all else |
| CacheStates.ReserveKeeps | crates/tinyjoin-core/src/cache.rs:216-221 | a reservation where no committed page is keeps both views |
| CacheStates.MovesHolds | crates/tinyjoin-core/src/cache.rs:473-482 | re-keying a clean candidate page makes it the committed view's, on the device as written, and keeps the index exact |
| CacheStates.Durable | crates/tinyjoin-core/src/cache.rs:430-441 | a flushed candidate without dirty pages has every page it wrote on the device, with nothing the device may yet lose |
| PageCaches.PageCache.constructor | crates/tinyjoin-core/src/cache.rs:93-111 | an empty cache's committed view is the device's active pages |
| PageCaches.PageCache.ReadPage | crates/tinyjoin-core/src/cache.rs:138-150 | a committed read gives the page as it was published, sealed if it was written to be; it fails only where reserved, or where the device failed or has no such page, or one that does not pass; neither view changes |
| PageCaches.PageCache.CachedIndex | crates/tinyjoin-core/src/cache.rs:152-169 | an index is the committed page's entry, and is given unless some page is reserved or the page is not cached |
| PageCaches.PageCache.CachedPage | crates/tinyjoin-core/src/cache.rs:171-182 | with an index of `CachedIndex`, the page and the state that a committed read would leave |
| PageCaches.PageCache.ReadCandidatePage | crates/tinyjoin-core/src/cache.rs:193-214 | a candidate reads what it last wrote at a page it reserved, and is told which of the two is missing otherwise |
| PageCaches.PageCache.Reserve | crates/tinyjoin-core/src/cache.rs:216-273 | succeeds exactly for a free data page, not cached as committed, when no other candidate is active; a repeat changes nothing, and a bitmap that leaves out a committed page is taken as it is |
| PageCaches.PageCache.WriteCandidate | crates/tinyjoin-core/src/cache.rs:285-310 | the candidate's view becomes the old one with the page, to be sealed or not; it fails only if the device did, and then changes neither view |
| PageCaches.PageCache.Release | crates/tinyjoin-core/src/cache.rs:312-329 | exactly the released page leaves the candidate's view and reservations |
| PageCaches.PageCache.WriteCandidatePages | crates/tinyjoin-core/src/cache.rs:346-382 | on success none of the pages named is dirty; neither view changes, whatever was written |
| PageCaches.PageCache.CandidatePageChecksum | crates/tinyjoin-core/src/cache.rs:397-419 | the checksum of the page as the device holds it: of a page written unsealed its seal, of any other its own; it is refused exactly while the page is dirty |
| PageCaches.PageCache.FlushDevice | crates/tinyjoin-core/src/cache.rs:421-426 | on success nothing sent is pending and no owner is unflushed; no page changes |
| PageCaches.PageCache.Check | crates/tinyjoin-core/src/cache.rs:436-468 | accepts exactly the candidates whose pages are all written, durable and in the next bitmap; the overlap error cannot arise |
| PageCaches.PageCache.Install | crates/tinyjoin-core/src/cache.rs:428-487 | makes the committed view the surviving pages with the candidate's over them, each as the device has it, no freed page cached, or changes nothing |
| PageCaches.PageCache.Invalidate | crates/tinyjoin-core/src/cache.rs:489-506 | a candidate is gone: its pages are nobody's, and the committed view and device are as they were |
| PageCaches.PageCache.ReadOwned | crates/tinyjoin-core/src/cache.rs:546-568 | a read of either view is from the cache, or verified and then cached, and is that view's page |
| PageCaches.PageCache.WriteOwned | crates/tinyjoin-core/src/cache.rs:570-600 | over the cached copy or in a new entry, the candidate's view gains exactly this page with its mark, or on failure nothing |
| PageCaches.PageCache.Insert | crates/tinyjoin-core/src/cache.rs:602-617 | the entry is cached and whatever it displaced is still readable, or the device failed and nothing changed |
| PageCaches.PageCache.FindVictim | crates/tinyjoin-core/src/cache.rs:619-637 | within twice the entries a victim is found that was not used since the last pass, unless all were, and is clean; the source's last error cannot arise |
| PageCaches.PageCache.WriteRun | crates/tinyjoin-core/src/cache.rs:639-658 | a run of consecutive dirty entries is clean after success and as it was after failure; neither view changes |
| PageCaches.PageCache.WriteEntry | crates/tinyjoin-core/src/cache.rs:660-675 | the entry is sealed and clean on success; every other entry, and both views, are as they were |
| PageCaches.PageCache.RemoveEntry | crates/tinyjoin-core/src/cache.rs:677-690 | one key is gone, the last entry has its place, and the hand stays within the entries |
| ForeignKeys.ListedBound | crates/tinyjoin-core/src/foreign_key.rs:226-231 | each stored row is listed once at most, so the worklist is bounded by the statement's own changes and the stored rows |
| ForeignKeys.WalkSteps | crates/tinyjoin-core/src/foreign_key.rs:226-325 | the walk, whose termination its declaration proves for cyclic schemas too, only grows the list, leaves the statement's own changes alone, and when steady leaves every turn settled |
| ForeignKeys.Enforce | crates/tinyjoin-core/src/foreign_key.rs:226-353 | the loops accept exactly what the specification accepts, and list exactly its changes |
| ForeignKeys.FollowReferences | crates/tinyjoin-core/src/foreign_key.rs:232-323 | one change's turn over every key that references its table |
| ForeignKeys.RevisitRow | crates/tinyjoin-core/src/foreign_key.rs:265-322 | what an action makes of one referencing row: left, refused, deleted, or rewritten where it is or is not already listed |
| ForeignKeys.SurvivesKept | crates/tinyjoin-core/src/foreign_key.rs:401-432 | values that survive although the row that held them is changed are in a row the statement leaves |
| ForeignKeys.Integrity | crates/tinyjoin-core/src/foreign_key.rs:169-353 | a steady accepted statement on an intact database leaves it intact: every reference of every row names a row |
| ForeignKeys.IntegrityKept | crates/tinyjoin-core/src/foreign_key.rs:265-325 | where actions kept every primary key, an accepted statement leaves the database intact if and only if each replaced row's referenced values are still in a changed row or every row that referred to them is listed |
| ForeignKeys.IntegrityExactly | crates/tinyjoin-core/src/foreign_key.rs:169-371 | whatever its actions did to primary keys, an accepted statement leaves the database intact if and only if, of each stored row its changes take away, what a key references there is in a changed row or nothing is left that refers to it |
| StraightSchemas.StraightIntegrity | crates/tinyjoin-core/src/foreign_key.rs:169-353 | on a schema in which, of each referenced table, one key acts at most or those that act reference tables no key acts on, and no key that rewrites has columns in its own table's primary key, every accepted statement leaves the database intact |
| StraightSchemas.WalkSteady | crates/tinyjoin-core/src/foreign_key.rs:226-325 | on such a schema every walk is steady: no action meets a row whose turn is over, or removes what a passed turn relied on |
| ForkedSchemas.ForklessIntegrity | crates/tinyjoin-core/src/foreign_key.rs:169-353 | where no key that gives rows other values has columns in its own table's primary key and the schema has no fork, every accepted DELETE and every accepted UPDATE or INSERT leaves the database intact, whatever keys reference, whichever columns they share and however many act |
| ForkedSchemas.WalkForkless | crates/tinyjoin-core/src/foreign_key.rs:226-325 | on such a schema each change is as far from the statement as the keys that led to it and none is listed before a nearer one, so the walk is steady: what it changes again, no change whose turn is over relied on |
| ForkWitness.WalkTree | crates/tinyjoin-core/src/foreign_key.rs:226-325 | on a fork's rows the walk of the DELETE, or of the UPDATE, lists each row once, in order, and deletes or rewrites the one that was changed before, after its turn |
| ForkWitness.TreeBreaks | crates/tinyjoin-core/src/foreign_key.rs:314-316 | the statement on a fork's first rows is accepted on an intact database and leaves a reference that names no row |
| ExactSchemas.ForkBreaks | crates/tinyjoin-core/src/foreign_key.rs:314-316 | every schema with room and a fork, of a DELETE or of an UPDATE, has such a database and statement |
| ExactSchemas.BrokenExactly | crates/tinyjoin-core/src/foreign_key.rs:169-371 | on schemas with room, some accepted statement on some intact database breaks a reference if and only if the schema has a fork or a key that gives rows other values in their own primary key |
| MovedSchemas.MoveBreaks | crates/tinyjoin-core/src/foreign_key.rs:355-371 | for every key that cascades an UPDATE into its own table's primary key, whatever other keys do, there are an intact database and an accepted UPDATE after which the old row stays and its reference names no row |
| ForeignKeys.DeleteRemovesLeast | crates/tinyjoin-core/src/foreign_key.rs:249-325 | an accepted DELETE under cascade, restrict and no-action keys removes exactly the least set that holds its rows and is closed under cascading references |
| KeyActions.ActionsTaken | crates/tinyjoin-core/src/foreign_key.rs:232-323 | of every stored row that refers to what a change gives up, an accepted statement changes or deletes it itself, or no key acted with RESTRICT on it, one that does nothing left the values in a changed row, and one that acts gave it its values |
| KeyActions.RefusesExactly | crates/tinyjoin-core/src/foreign_key.rs:249-352 | where keys only refuse, a statement is accepted if and only if it leaves references that all name rows and no row left alone refers by RESTRICT to values given up |
| KeyActions.RefusedFor | crates/tinyjoin-core/src/foreign_key.rs:232-353 | whatever keys do, a statement is refused only where a row blocks a change, the storage refuses a row, or a changed row's reference names none; and each row it comes to refers by a key that acts to one before it, and is changed in no other column |
| Dangling.AcceptedAndBroken | crates/tinyjoin-core/src/foreign_key.rs:314-316 | a DELETE that is accepted on an intact database and leaves a reference that names no row, since a rewritten entry's turn has passed |
| LateValue.AcceptedAndBroken | crates/tinyjoin-core/src/foreign_key.rs:265-325 | an UPDATE that is accepted on an intact database and leaves a reference that names no row, since the value it named is changed after the turn of its row |
| MovedKey.AcceptedAndBroken | crates/tinyjoin-core/src/foreign_key.rs:355-371 | an UPDATE whose cascade changes a row's primary key is accepted, and the row stays under its old key with a reference that names no row |
| Coordination.TakeKeeps | src/worker/coordinator.ts:192-348 | every step, of any client, owner, channel or lock, keeps the system's invariant and moves no client back to an earlier owner |
| Coordination.EngineOnce | src/worker/coordinator.ts:229-265 | over any run a request reaches an engine once at most, in the one epoch it was dispatched to, and epochs run in order |
| Coordination.AnswerOnce | src/worker/coordinator.ts:131-147 | over any run each request of a page is answered once at most, not while it waits, and by the owner it was sent to |
| Coordination.OwnersInOrder | src/worker/coordinator.ts:309-329 | over any run the owners a client accepts follow the order of their tenures, so no delayed announcement revives one |
| CoordinationAnswers.StepAccounted | src/worker/coordinator.ts:131-147 | of every step, a failure posted to a page is of a request that its coordinator refused or gave up, for one of five reasons, an answer is the one an owner gave, and a request that no longer waits was answered |
| CoordinationAnswers.AnswersTrue | src/worker/coordinator.ts:194-228 | over any run, what a page is told is what the engine that ran its request made of it, or a refusal of an owner, and then no engine ran it |
| CoordinationAnswers.FailedWhy | src/worker/coordinator.ts:131-147 | over any run, each failure a page was told of has a step at which its coordinator gave the request up |
| CoordinationAnswers.NoneDropped | src/worker/coordinator.ts:467-481 | over any run, each request of a page waits or was answered, and not both |
| Coordinators.NothingWaits | src/worker/coordinator.ts:266-276 | with the owner failed for good, or of another release, nothing waits any more |
| Coordinators.AcceptsExactly | src/worker/coordinator.ts:313-328 | an announcement is taken if and only if its check is later than any taken, its owner held the lock and it is of this release |
| CoordinatorWorkers.Coordinator.Fail | src/worker/coordinator.ts:131-140 | the request no longer waits, its bytes are no longer counted, and its failure is posted |
| CoordinatorWorkers.Coordinator.FailPending | src/worker/coordinator.ts:141-147 | each request that waits, or was dispatched, fails once, in order, and the others stay |
| CoordinatorWorkers.Coordinator.Response | src/worker/coordinator.ts:194-228 | an answer of the present owner to a request that waits is posted as it stands, and the request no longer waits; any other adds nothing |
| CoordinatorWorkers.Coordinator.Dispatch | src/worker/coordinator.ts:229-265 | a request is sent once, to a ready owner, unless it names a transaction of another epoch, which fails it |
| CoordinatorWorkers.Coordinator.Announce | src/worker/coordinator.ts:266-292 | a new owner fails what was dispatched to the last and is sent the rest, so that none still waits to be sent; another release fails everything for good |
| CoordinatorWorkers.Coordinator.Checked | src/worker/coordinator.ts:313-328 | an announcement is taken only if its check is later than any taken and its sender held the lock |
| CoordinatorWorkers.Coordinator.Receive | src/worker/coordinator.ts:467-481 | a request waits within bounds that keep room for what ends a transaction, and is dispatched, or fails; the bytes counted are exactly those that wait |
| CoordinatorWorkers.DispatchEachKeeps | src/worker/coordinator.ts:285-286 | dispatching in a loop what waits keeps all that one dispatch keeps: each request sent once and answered once, and owners in order |
| CoordinatorWorkers.DispatchEachSends | src/worker/coordinator.ts:285-286 | once each that waits has had its turn, none is left unsent |
| HostQueues.HostQueue.Schedule | src/worker/host.ts:484-534 | a request is served at once exactly when the engine is open and nothing is ahead of it, and otherwise waits; requests are served and answered in the order they arrive |
| HostQueues.HostQueue.StatementNow | src/worker/host.ts:368-413 | a statement is served at once exactly then too, overtaking nothing, and otherwise nothing is done |
| EngineHosts.Host.Request | src/worker/host.ts:229-350 | a statement runs only under the token of the open transaction, or with none where none is open; what each call leaves of the transaction, of what was committed and of the statements prepared, however the engine fails |
| DatabaseBrokers.Isolation | src/worker/database-broker.ts:312-320 | while a transaction is open every statement the engine runs is of the client that began it; a client's requests keep their order but for a close or an opening |
| DatabaseBrokers.Broker.Receive | src/worker/database-broker.ts:355-440 | admits exactly what there is room for and is this owner's; the bytes counted are exactly the queue's, within the bounds; serves at once exactly where `Immediate` gives a call and the host is open with nothing ahead, and then nothing asked before, of the broker or of the host, is unanswered |
| DatabaseBrokers.Broker.ServedAsQueued | src/worker/database-broker.ts:256-287 | what is served at once is the next request if it were queued, and is forwarded by the same call; nothing is overtaken |
| DatabaseBrokers.Broker.FlatAsRequest | src/worker/database-broker.ts:441-492 | a flat statement is served at once exactly when the request it stands for would be, by the same call |
| DatabaseBrokers.ForwardingMeans | src/worker/database-broker.ts:137-174 | a statement is forwarded with its own text, or the statement its id names, under its client's token; it is lost exactly if it names another transaction |
| DatabaseBrokers.Broker.ServeNow | src/worker/database-broker.ts:289-301 | the engine runs that call, exactly when all that was asked of the host before has been served and answered, or nothing is served |
| DatabaseBrokers.Broker.Turn | src/worker/host.ts:484-534 | a request that waits at the host is served after all that was asked of it before, and is then checked against the open transaction |
| HostQueues.HostQueue.ServeLast | src/worker/host.ts:510-534 | all ahead of the last request is served and answered before it is served |
| DatabaseBrokers.Broker.Next | src/worker/database-broker.ts:312-321 | the first eligible request leaves the queue, and the rest stay in order |
| DatabaseBrokers.Broker.PumpOne | src/worker/database-broker.ts:307-334 | each turn serves the first eligible request, asks the host exactly what it should and answers as the host did; before it, no transaction but a gone client's is discarded |
| DatabaseBrokers.Broker.Handle | src/worker/database-broker.ts:92-196 | each kind of request asks of the host exactly its own calls, and succeeds if and only if they do; it runs at most one statement, its client's |
| DatabaseBrokers.Broker.PrepareFor | src/worker/database-broker.ts:106-111 | the client's id then names the statement the host made of the text, and every other id what it named |
| DatabaseBrokers.Broker.CloseStatementOf | src/worker/database-broker.ts:112-119 | the id names nothing any more, and the host is asked to close what it named |
| DatabaseBrokers.Broker.HandleStatement | src/worker/database-broker.ts:137-179 | a statement runs under its own client's token or without one; one that names another transaction reaches no engine |
| DatabaseBrokers.Broker.HandleBegin | src/worker/database-broker.ts:120-136 | the host is asked to prepare exactly the statements this owner does not know, in order, and then to begin; the transaction is the client's and the host's |
| DatabaseBrokers.Broker.HandleEnd | src/worker/database-broker.ts:175-195 | ends only the transaction its own client names, at the host too: it is asked for that, and where a commit fails, to roll back; success leaves none open there |
| DatabaseBrokers.Broker.HandleClose | src/worker/database-broker.ts:96-105 | a client that leaves has its own transaction rolled back, at the host too, and nobody else's |
| DatabaseBrokers.Broker.Forget | src/worker/database-broker.ts:68-90 | a client that is gone holds no transaction after, here or at the host unless its rollback failed; every statement it knew is closed, and nothing is run for it |
| PageRpcs.PageRpc.Execute | src/client/rpc.ts:380-458 | a statement's caller has one hook, told at once where the connection is gone, and once at most if the post is answered, throws, or both; only a post that threw fails what is still in flight |
| PageRpcs.PageRpc.OnMessage | src/client/rpc.ts:219-325 | an answer settles the request it names and no other; an invalid one gives the connection up |
| PageRpcs.PageRpc.Dispose | src/client/rpc.ts:202-217 | nothing stays in flight |
| PageRpcs.PageRpc.ToldOnce | src/client/rpc.ts:88-93 | each caller is told at most once, exactly when its statement is no longer in flight, so exactly once when the connection ends |
| TransactionSessions.CommitSafe | src/client/client.ts:904-920 | if a commit was posted, all that was sent has settled, nothing in flight when the callback returned failed, and no rollback had happened |
| TransactionSessions.StatementSeenValid | src/client/client.ts:756-787 | a statement that settles keeps this in every phase, by the queue's order: a failure is seen by a waiting settle() or is still kept when one begins |
| TransactionSessions.ScriptSeenValid | src/client/client.ts:741-754 | a script that settles keeps it too: its reaction runs after the transaction has looked at what is pending |
| TransactionSessions.RollbackSeenValid | src/client/client.ts:876-890 | so does the rollback |
| TransactionSessions.ReactedValid | src/client/client.ts:783-786 | a kept failure's turn may pass only before the callback returns or after settle() has seen it |
| TransactionSessions.Session.RunTask | src/client/client.ts:406-430 | the transaction's next step: what it posts, a commit only after waiting for all, a rollback unless there was one; where nothing has failed, it comes to no rollback |
| TransactionSessions.Session.Loop | src/client/client.ts:907-920 | settle() waits for exactly what is in flight, and where nothing is, for the rollback that was asked for |
| TransactionSessions.Session.StatementSettled | src/client/client.ts:764-787 | counts a statement as settled, and hands a failure to whoever will look |
| PreparedCloses.Barrier.ResumeBegin | src/client/client.ts:366-391 | BEGIN is posted only if no close was added since the tail was read; then every close has settled |
| PreparedCloses.Barrier.Close | src/client/client.ts:358-364 | a close lengthens the tail, and is refused while a transaction is active, so none slips in |
| JsonGraphs.PlainPaths | src/protocol.ts:955-994 | plain recursion accepts exactly the values all of whose paths are within depth 64 and end in valid leaves and dense bounded arrays |
| JsonGraphs.PlainParts | src/protocol.ts:955-994 | what is looked at: every value of a record, and every item of an array, none of which may be a hole |
| JsonGraphs.PlainAcyclic | src/protocol.ts:971-973 | what it accepts holds no cycle |
| JsonValidations.JsonValidation.Visit | src/protocol.ts:961-993 | with the memo and the ancestors, accepts only what plain recursion accepts, and exactly that while the budget lasts |
| JsonValidations.JsonValidation.VisitChildren | src/protocol.ts:764-778 | an array is dense and bounded, and every part is accepted a level deeper |
| JsonValidations.IsJsonValues | src/protocol.ts:783-803 | the scalar path and the full check give one verdict; only a container can exhaust the budget |
| JsonValidations.AreJson | src/protocol.ts:764-778 | a list under one budget is accepted only if each item is, and exactly then while the budget lasts |
| ExpressionParsers.RoundTrip | crates/tinyjoin-core/src/expression.rs:180-386 | the print of an expression, its numbers as number tokens with their signs, parses back to it if it is within the bounds on size and depth, and is refused if not |
| ExpressionParsers.ParsePrint | crates/tinyjoin-core/src/expression.rs:232-322 | at each level of binding, parsing a print and what follows, a signed number included, is going on from its expression |
| ExpressionParsers.SignSubtracts | crates/tinyjoin-core/src/expression.rs:241-266 | after any expression, whatever follows and however deep, a number with a sign of its own parses as a minus and the number without it |
| ExpressionLaws.OperatorsMean | crates/tinyjoin-core/src/expression.rs:232-285 | what operator each token is, which of two binds its operands, and that those as tight group from the left |
| ExpressionParser.Parser.ParseConcatenation | crates/tinyjoin-core/src/expression.rs:232-240 | the loop parses what the grammar says, to the same place, with the same count of terms |
| ExpressionParser.Parser.ParseAdditive | crates/tinyjoin-core/src/expression.rs:241-266 | as above, and always moves on |
| ExpressionParser.Parser.ParseMultiplicativeFrom | crates/tinyjoin-core/src/expression.rs:272-285 | as above, from a left operand |
| ExpressionParser.Parser.ParseUnary | crates/tinyjoin-core/src/expression.rs:286-323 | signs, parentheses and atoms, within the depth |
| ExpressionParser.Parser.ParseColumn | crates/tinyjoin-core/src/expression.rs:324-353 | a column by itself, or as `EXCLUDED`'s or the table's |
| ExpressionParser.ParseExpressionAt | crates/tinyjoin-core/src/expression.rs:182-198 | parses the expression at a position and says where it ends, or refuses what the grammar refuses |
| ExpressionValues.TypeSound | crates/tinyjoin-core/src/expression.rs:391-574 | an expression whose types are accepted gives NULL, a value of its type in the safe range, or an overflow, a division by zero or a float's own failure, never a mismatch |
| ExpressionValues.AssignmentSound | crates/tinyjoin-core/src/expression.rs:445-471 | what an accepted assignment gives, its column takes |
| ExpressionValues.ConstantSame | crates/tinyjoin-core/src/expression.rs:473-480 | an expression that reads no row has one value and type for every row |
| ExpressionValues.FoldedSame | crates/tinyjoin-core/src/expression.rs:111-152 | a comparison folded to a column and a constant says of every row what the comparison says |
| ExpressionLaws.FoldsExactly | crates/tinyjoin-core/src/expression.rs:111-152 | a comparison is folded exactly where one side is a column and the other's value is known without a row |
| ExpressionValues.Quotient | crates/tinyjoin-core/src/expression.rs:504-574 | division drops the fraction whatever the signs, with a remainder of the dividend's sign |
| ExpressionLaws.ColumnsAre | crates/tinyjoin-core/src/expression.rs:480-487 | a column is the row's value, and one of EXCLUDED the proposed row's |
| ExpressionLaws.SidesFirst | crates/tinyjoin-core/src/expression.rs:492-501 | the left side's failure comes first, and NULL on either side gives NULL |
| ExpressionLaws.AddSteps | crates/tinyjoin-core/src/expression.rs:530-549 | zero is neutral, and adding or subtracting one steps the value, or overflows at the end of the range |
| ExpressionLaws.AddGroups | crates/tinyjoin-core/src/expression.rs:530-549 | a sum may be grouped and ordered freely where no part of it overflows |
| ExpressionLaws.SubtractUndoes | crates/tinyjoin-core/src/expression.rs:488-549 | subtraction undoes addition and the reverse, and a negation adds to zero |
| ExpressionLaws.MultiplyDistributes | crates/tinyjoin-core/src/expression.rs:530-549 | one is neutral, the order does not matter, and multiplication distributes over addition where nothing overflows |
| ExpressionLaws.DivideUndone | crates/tinyjoin-core/src/expression.rs:526-549 | a quotient times its divisor, and the remainder, are the dividend; both fail exactly where the divisor is zero |
| ExpressionLaws.OverflowsExactly | crates/tinyjoin-core/src/expression.rs:540-549 | sums, differences and products overflow exactly outside the safe range |
| ExpressionLaws.Concatenates | crates/tinyjoin-core/src/expression.rs:508-521 | one text comes after the other, or they are too long together |
| ExpressionLaws.FloatsAsGiven | crates/tinyjoin-core/src/expression.rs:550-572 | with a float, an operator is applied to the two numbers as they stand |
| ExpressionLaws.RefusedExactly | crates/tinyjoin-core/src/expression.rs:412-443 | the types of two values are refused exactly where the operator mismatches the values |
| PageFiles.PutSplices | src/worker/page-device.ts:163-190 | whole pages written at a page's offset splice the sequence of pages |
| PageFiles.DisturbedPages | src/worker/page-device.ts:389-393 | where only some bytes may differ, every page outside them is as it was |
| PageFiles.TailDropped | src/worker/page-device.ts:92-110 | dropping a torn tail drops no page |
| PageDevices.OpfsPageDevice.constructor | src/worker/page-device.ts:58-140 | opening keeps every page and drops less than a page; it fails exactly where the file does or is too large, and keeps the pages then too |
| PageDevices.OpfsPageDevice.ReadPage | src/worker/page-device.ts:147-162 | a page read is that page whole, whatever the handle moves at a time, and fails exactly where the handle does |
| PageDevices.OpfsPageDevice.WritePages | src/worker/page-device.ts:163-191 | success splices exactly the pages given; it fails exactly where the handle does; a known failure leaves the count, the length and every other page; no outcome touches a page outside the range |
| PageDevices.OpfsPageDevice.WriteExisting | src/worker/page-device.ts:389-426 | over pages that are there, only a write that had not begun fails without being unknown |
| PageDevices.OpfsPageDevice.Append | src/worker/page-device.ts:112-126 | pages past the end are all there, or the file is as long as it was, or the outcome is unknown |
| PageDevices.MemoryPageDevice.WritePages | src/worker/page-device.ts:246-266 | the memory device splices the same sequence |
| GroupKeys.KeyOnce | crates/tinyjoin-core/src/aggregate.rs:1219-1283 | two rows' values are the same if and only if their encoded keys are |
| GroupStates.BytesUpdated | crates/tinyjoin-core/src/aggregate.rs:592-629 | the bytes charged before a row is taken, a text's in UTF-8, are those its group has after |
| GroupStates.Settled | crates/tinyjoin-core/src/aggregate.rs:592-603 | without an extremum no row changes a group's bytes |
| Grouping.GroupsExactly | crates/tinyjoin-core/src/aggregate.rs:245-289 | one group for each row's values, keyed by their encoding, with the state of exactly its rows, in their order |
| Grouping.GroupShows | crates/tinyjoin-core/src/aggregate.rs:245-289 | a group shows the value of each column asked for, and each of its aggregates is over exactly its own input in the group's rows |
| Grouping.CountsAndSums | crates/tinyjoin-core/src/aggregate.rs:703-756 | counts are of rows or of values that are there; a sum of integers is of those values, and a sum of floats, or an average's, is of them as floats, in the order of the rows |
| Grouping.ExtremumBest | crates/tinyjoin-core/src/aggregate.rs:855-888 | a minimum or maximum is one of the values, and none is less, or greater |
| HashGrouping.HashGroups.Find | crates/tinyjoin-core/src/aggregate.rs:1093-1111 | the group with the values is found, whichever others share their hash |
| HashGrouping.HashGroups.Insert | crates/tinyjoin-core/src/aggregate.rs:1112-1134 | a new group is indexed under its hash beside those that share it |
| HashGrouping.Take | crates/tinyjoin-core/src/aggregate.rs:245-289 | one row leaves the groups a plain search would, and the running total is the exact sum of the groups' charges, keys and texts in UTF-8 bytes |
| HashGrouping.Collect | crates/tinyjoin-core/src/aggregate.rs:245-289 | for any hash function, the groups of a plain search, or its refusal, and the exact total within the budget |
| HashGrouping.OrderedOnce | crates/tinyjoin-core/src/aggregate.rs:1135-1160 | the order by key is the only one, so it is a sorted map's |
| HashGrouping.Execute | crates/tinyjoin-core/src/aggregate.rs:187-289 | a grouped query's groups in order of their keys, whatever the hash |
| KeyReports.RepeatRefused | src/common.ts:157-163 | a repeated key that comes at the bound drops the table, though its set is within it |
| KeyReports.RoomExactly | src/common.ts:157-163 | keys have room if and only if they are fewer than the bound without repeats, or as many and the last came for the first time |
| ChangedKeys.PendingChangedKeys.Merge | src/common.ts:143-168 | after any outcomes, each table touched holds exactly what its history leaves of it |
| ChangedKeys.PendingChangedKeys.Finish | src/common.ts:170-177 | reports exactly the tables whose history can be reported, with their keys |
| ChangedKeys.LeftExactly | src/common.ts:136-142 | a table listed with keys lists each key changed once, and no more than 1,000 |
| ChangedKeys.StaysAbsent | src/common.ts:136-142 | a table that could not be reported is never reported again |
| ChangedKeys.LayersExactly | src/client/client.ts:447-471 | a merge of merges, as a script's, a worker event's and a client's are, lists exactly the keys changed in all of them, or nothing |
| ChangedKeys.TreeExactly | src/client/client.ts:447-471 | however deep the merges, a table listed with keys lists each key any outcome reported, once and within the bound, and it is listed unless an outcome left some out or there are as many keys as the bound |
| Utf8Text.Utf8RoundTrip | src/worker/wasm-preflight.ts:148-186 | text decodes to itself, with each lone surrogate replaced |
| Utf8Text.ExamplesMatch | src/worker/wasm-preflight.ts:148-186 | the encoding gives the examples of section 7 of RFC 3629 |
| Utf8Text.Utf8Bound | src/worker/wasm-preflight.ts:152-158 | three bytes a unit are room enough for any text |
| BridgeFormat.ValueRead | src/worker/wasm-preflight.ts:56-68 | what a value adds to a request reads back as the value, whatever follows |
| BridgeFormat.StatementRead | src/worker/wasm-preflight.ts:240-300 | a statement's request reads back as its row mode, its text or number, and its parameters |
| RequestWriters.Writer.Grow | src/worker/wasm-preflight.ts:115-130 | growth keeps every byte written, and refuses exactly what passes the bound |
| RequestWriters.Writer.Utf8Length | src/worker/wasm-preflight.ts:407-433 | the length measured is that of the encoding, or is past the bound |
| RequestWriters.Writer.WriteText | src/worker/wasm-preflight.ts:148-186 | copied unit by unit or encoded whole, a text is its length and its UTF-8 |
| RequestWriters.Writer.WriteValue | src/worker/wasm-preflight.ts:342-390 | any value within the budgets is written as the format has it, and no other |
| RequestWriters.ScalarCounted | src/worker/wasm-preflight.ts:283-317 | a scalar written without counting is what the counted writer writes, and too few fit to pass the uncounted limits |
| RequestWriters.SlicedRest | src/worker/wasm-preflight.ts:240-300 | the parameters written are exactly those after the slots before them |
| RequestWriters.Writer.EncodeStatement | src/worker/wasm-preflight.ts:240-321 | accepts exactly the parameters, and writes exactly the bytes, that the general writer would for the sliced parameters |
| RequestCharges.ReachLeast | src/worker/request-size.ts:49-78 | what is charged is the least set that holds the root and follows every property |
| RequestCharges.DenseKeys | src/worker/request-size.ts:175-181 | an array's key at its last slot's place is that slot's exactly when every slot is filled |
| RequestEstimators.Estimator.Run | src/worker/request-size.ts:48-79 | the stack's walk gives the smaller of the total, each container once, and the limit plus one |
| RequestEstimators.RequestBytes | src/worker/request-size.ts:8-80 | for every graph, shared or cyclic, that charge, or a refusal of an unsafe limit |
| CheckedEstimators.Checked.Visit | src/worker/request-size.ts:154-195 | the recursive walk, unless it stops, has met a value and all below it and charged each container newly seen |
| CheckedEstimators.CheckedRequestBytes | src/worker/request-size.ts:125-199 | gives the same charge, whether it ends itself or leaves the walk to the stack |
| StatementCharges.RequestTotal | src/worker/request-size.ts:82-94 | all but the parameters of the request object that a statement stands for has a fixed charge |
| StatementCharges.StatementBytes | src/worker/request-size.ts:95-123 | the charge of that request object, computed from the array |

## Left out

- XXH64 (the second half of `checksum.rs`): its stripes and tail have no simpler form in the repository to be proved against.
- The tables' memoisation on first use: `Tables` builds them anew.
- PageCaches.PageCache.Invalidate: clears the owner's unflushed mark last, not first; the states before and after are the same.
- The seal of a page is a checksum of its body by an unknown function; pages of a wrong length are not represented.
- Metadata pages, which the pager writes to the device itself, and the pager, B-trees and storage formats under and over the cache.
- ForeignKeys.Enforce: starts from the list of changed rows; reading it from a planned statement, moved rows included (`foreign_key.rs` lines 189-224), is not modelled, and row normalisation is a parameter that may fail.
- ForeignKeys.IntegrityExactly: its condition is on the list of changes, which a caller has only after the walk; those that a caller can check before, of a schema, are exact in `BrokenExactly`, and sufficient in `ForklessIntegrity` and `StraightIntegrity`.
- ForkedSchemas.ForklessIntegrity: is of statements that delete all of their rows or write all of them.
- KeyActions.RefusesExactly: is of statements for which no key acts; where one does, what is refused depends on the order of the walk, and `RefusedFor` says for what.
- ExactSchemas.BrokenExactly: is of the same statements, and of schemas with room: keys of one table share only columns that are fixed, as a tenant's is, and have one that is not; a key that gives rows other values has none that is fixed, and one that follows UPDATEs has all or nothing of the rest of what another key references there; a key with columns in its primary key or in what keys reference leads to a lower table and sets neither NULL nor a default; one that follows an UPDATE by defaults has a NULL among them. Outside these a fork may have no rows to show it.
- PageCaches.PageCache.Reserve: where the bitmap leaves out a committed page, which its caller's never does, only the outcome and the reservations are stated.
- Coordination.TakeKeeps: prepared-statement registries and events are not part of the state, a transaction is known by its epoch, and a request that its own tab's owner serves inside the handler is a step of its own.
- CoordinatorWorkers.Coordinator.Response: the registry of prepared statements, what an opening leaves behind, and the answer to a close.
- CoordinatorWorkers.Coordinator.Announce: the resynchronisation that follows a handover.
- CoordinatorWorkers.Coordinator.Receive: begins after the checks of a message's shape, storage name and prepared registry, and before local service at once; shutdown is a step of the system and not a method.
- Revisions, resynchronisation after a handover, and the retries of opening a file whose lock a dead tab still holds.
- DatabaseBrokers.Broker.PumpOne: is one turn of the loop; the loop ends when the turn finds nothing. Clients that leave while others are being forgotten are forgotten in the next turn, where the source's loop over a live set also meets them in this one.
- DatabaseBrokers.Broker.Receive: client locks and reply channels are not represented, and closing the broker is not modelled.
- EngineHosts.Host.Request: the change events a statement emits; a schema's request takes its turn in `HostQueue` and does nothing else.
- TransactionSessions.Session.RunTask: results and revisions are not represented, and statements' own parameters, which a caller's code may compute, do not call back into the session.
- PreparedCloses.Barrier.Close: a close waits for its own statement's executions, which is not modelled; a close may settle at any time.
- PageRpcs.PageRpc.OnMessage: which shape of result fits which method is one bit of the message.
- JsonValidations.JsonValidation.Visit: validates one value; results, schemas and row sets, which share its budget, are not modelled.
- ExpressionValues.TypeSound: floats are opaque, and may fail for a cause of their own.
- ExpressionParser.ParseExpressionAt: the lexer, parameters' binding and renaming of columns; a number's text stands for what a function says.
- Grouping.ExtremumBest: a float is its value, so its two zeros are one, and an integer is one that a float holds exactly, as those of a column are.
- Grouping.CountsAndSums: what adding floats one after another comes to, each sum rounded, is not computed; the terms and their order are.
- PageDevices.OpfsPageDevice.WritePages: page numbers are numbers, not pairs of words, and flush and close say nothing of what is durable.
- Aggregates without groups, projection, ORDER BY and LIMIT, result budgets and SQL keywords in `aggregate.rs`.
- HashGrouping.Execute: orders groups as they come from `Collect`; the source sorts them in place.
- ChangedKeys.PendingChangedKeys.Merge: a key's identity is the key itself, not its JSON text.
- RequestWriters.Writer.EncodeStatement: the buffer's release after a large request, and numbers' own bytes, which are a parameter of the value.
- RequestEstimators.RequestBytes: a getter is a foreign value, inherited properties are absent, and property names are their lengths.
- CheckedEstimators.CheckedRequestBytes: properties are plain data, as its callers have checked.
- StatementCharges.StatementBytes: the limit is a safe size, as its callers' constant is.
- Error texts, diagnostics and field metadata; browser and Node calls behind locks, channels, files and Workers; adapters, benchmarks and the documentation site.
