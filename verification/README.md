# GlassFlow data plane: model and proofs

This project models the data plane of the GlassFlow ClickHouse ETL, an at-least-once pipeline
from Kafka through NATS to ClickHouse, and proves what each stage keeps whatever the services
around it answer.

| file | models |
|---|---|
| `Stream.dfy`, `Batches.dfy`, `Ingestor.dfy` | the ingestor's batch engine: cursor, in-place carry slice, fates of the indices, cleanup, and the blocking mode as its reference |
| `Kafka.dfy` | poll, process, commit over any number of process lifetimes |
| `Texts.dfy`, `JoinModel.dfy`, `Join.dfy`, `JoinedMessage.dfy` | the temporal join on two expiring buckets, its table-driven meaning, and the joined payload |
| `SinkModel.dfy`, `Settlement.dfy`, `SinkServices.dfy`, `WorkerPool.dfy`, `Sink.dfy` | the sink: dispatch to workers as a transition system, batch assembly with replay, settlement, and any number of flushes |
| `MessageBuffer.dfy` | the buffer between a serial handler and a ticker |
| `StreamingModel.dfy`, `Streaming.dfy` | filter, deduplication, transformation, write under backpressure, commit, acknowledge |
| `Json.dfy`, `Validator.dfy`, `Mapper.dfy`, `Wire.dfy` | fast forms against simple ones: validation, mapping, wire format |
| `Orchestrator.dfy` | the ordered drain when a pipeline is stopped |

The services are adversaries. In the ingestor they answer from an arbitrary answer sheet, so
that two runs can be compared; elsewhere every call chooses its outcome. What was acknowledged,
stored, dead-lettered or committed is recorded in ghost ledgers that only those services write,
and the guarantees are statements about the ledgers. Worker threads, tickers and other flushes
are interleavings chosen step by step. `Batches.Lists` is the shared bookkeeping of work lists:
every index has one fate and each list holds exactly the indices of its fate.

Where the comments of the source and its code differ the model follows the code. Things
found on the way: a duplicate within one sink batch is acknowledged before the row of its twin
is sent, and if that send is refused the message can be lost (`SinkModel.EarlyAcksAreSafeIff`,
`Settlement.NothingIsLostIff`); a flush after one whose dispatch timed out can take the old
verdicts for its own (`WorkerPool.VerdictsFitIff`, `WorkerPool.StaleVerdictIsTaken`); a repeated
member of a JSON message can hide a missing field (`Validator.AcceptanceIsSoundIff`) and fills a
column with its last value where the lookup takes the first (`Mapper.PassIsLookupIff`); of two
columns of one field only the last is filled (`Mapper.RowIsLookupIff`); and a clean write after
backpressure leaves the recorded episode open
(`Streaming.StreamingComponent.WriteWithBackpressure`).

## Model

| member | source | states |
|---|---|---|
| `Ingestor.KafkaMsgProcessor.ProcessBatchAsync` | glassflow-api/internal/ingestor/processor.go:382-442 | The returned record ends the longest prefix of settled records; within it every record was acknowledged or dead-lettered exactly once, the next one not at all, and none outside was touched; nil means the whole batch; after a fatal error that is not a cancellation, with dead-letter pushes working, nothing after the prefix was published or dead-lettered. It ends without an error exactly when, of the answers of the call, no publish answer is an error other than back-pressure, no dead-letter push failed, every record fits its schema and no look found the context done; an error is one of these reasons; only records that no message can be made of or that were answered fatally are dead-lettered, and after a cancellation no others; throttling that stops while the context has two looks left per call never ends it. Each record is prepared at most once, and every publish carries the message its record calls for; subjects are used evenly up to one; the backpressure episode is closed |
| `Ingestor.KafkaMsgProcessor.ProcessBatchSync` | glassflow-api/internal/ingestor/processor.go:306-348 | The blocking mode settles the same way: exactly the prefix up to the returned record, nothing after it; it ends without an error exactly when no dead-letter push failed and every record fits its schema, and dead-letters only records that no message can be made of or whose publish was not acknowledged |
| `Ingestor.KafkaMsgProcessor.ProcessBatch` | glassflow-api/internal/ingestor/processor.go:283-304 | Either mode leaves the books as the commit needs them and ends for the reasons stated for it; an empty batch changes nothing |
| `Ingestor.ModesAgree` | glassflow-api/internal/ingestor/processor.go:306-442 | When every publish is acknowledged at once, the asynchronous mode makes the same publishes and dead-letter pushes in the same order as the blocking one and returns the same record and error |
| `Ingestor.KafkaMsgProcessor.Pass` | glassflow-api/internal/ingestor/processor.go:400-414 | One pass keeps the index invariant (every index below the cursor is completed, carried or doomed, none at or above it is), leaves the settled prefix maximal, and, if every publish of the pass was acknowledged, carries nothing and has reached the end of the batch or an error |
| `Ingestor.KafkaMsgProcessor.Turn` | glassflow-api/internal/ingestor/processor.go:399-441 | A turn either ends with the batch settled as above or goes on with the invariant and a later look at the context |
| `Ingestor.KafkaMsgProcessor.PublishBackpressureSlice` | glassflow-api/internal/ingestor/processor.go:448-477 | Retrying the carried records, filtered in place, keeps every index in exactly one list and never adds to the carry; if every retry is acknowledged nothing stays carried |
| `Ingestor.KafkaMsgProcessor.RetryCarried` | glassflow-api/internal/ingestor/processor.go:453-474 | One carried record is kept, which opens the episode, launched with its cached message, or doomed by a fatal answer of this call |
| `Ingestor.KafkaMsgProcessor.Republish` | glassflow-api/internal/ingestor/processor.go:458-458 | A retry sends the message cached for the record, so it keeps its subject |
| `Ingestor.KafkaMsgProcessor.PublishFromCursor` | glassflow-api/internal/ingestor/processor.go:483-524 | Preparing and publishing from the cursor keeps the index invariant and the ledger; on a smooth run it reaches the end or the first fatal error |
| `Ingestor.KafkaMsgProcessor.PublishAtCursor` | glassflow-api/internal/ingestor/processor.go:508-521 | The record at the cursor is launched exactly when the publish was not refused; a throttled one stays at the cursor and opens the episode, a fatally refused one is doomed |
| `Ingestor.KafkaMsgProcessor.ClassifyFutures` | glassflow-api/internal/ingestor/processor.go:528-552 | Every in-flight publish is settled, carried or doomed, doomed only by a fatal answer; afterwards nothing is in flight |
| `Ingestor.KafkaMsgProcessor.CleanupAndReturn` | glassflow-api/internal/ingestor/processor.go:583-613 | After a fatal error with working dead-letter pushes the returned record is the one before the cursor and nothing from the cursor on was touched; on cancellation or a failed push it ends the maximal settled prefix |
| `Ingestor.KafkaMsgProcessor.DrainToDlq` | glassflow-api/internal/ingestor/processor.go:618-630 | Dead-letters the listed records that are not completed, no other, up to the first refusal, each once |
| `Ingestor.KafkaMsgProcessor.PrepareMessage` | glassflow-api/internal/ingestor/processor.go:178-239 | A message is ready, its record dead-lettered, or an error returned; only the diverted record reaches the dead-letter stream |
| `Ingestor.KafkaMsgProcessor.BpStart` | glassflow-api/internal/ingestor/processor.go:246-267 | Opens an episode if none is open; episodes started and stopped stay balanced |
| `Ingestor.KafkaMsgProcessor.BpStop` | glassflow-api/internal/ingestor/processor.go:271-281 | Closes the open episode if there is one |
| `Ingestor.AsyncBatchState.AdvanceLastAckedIdx` | glassflow-api/internal/ingestor/processor.go:554-561 | The walk leaves the maximal prefix of completed records |
| `Ingestor.AsyncBatchState.Leftovers` | glassflow-api/internal/ingestor/processor.go:583-613 | The fatal and carried indices are exactly what is unsettled below the cursor |
| `Ingestor.LedgerGivesOutcome` | glassflow-api/internal/ingestor/processor.go:360-381 | The running books and the completion flags determine what was settled up to the returned record |
| `Ingestor.TraceableGivesOneMessage` | glassflow-api/internal/ingestor/processor.go:483-524 | In one call each record is prepared at most once, as it calls for, and every publish of it carries that message |
| `Ingestor.RunStopsAtTheFirstFailure` | glassflow-api/internal/ingestor/processor.go:306-348 | The reference run stops at the first failing record |
| `Ingestor.OnTrackEnds` | glassflow-api/internal/ingestor/processor.go:382-524 | A call that stayed on the reference run ends with its log, its count and its error |
| `Ingestor.GroundsPublish` | glassflow-api/internal/ingestor/processor.go:448-524 | One publish call keeps what the state owes to the answers: launched, left alone when throttled, doomed when refused fatally |
| `Ingestor.GroundsAwait` | glassflow-api/internal/ingestor/processor.go:528-552 | So does the answer to a publish in flight |
| `Ingestor.GroundsPrepare` | glassflow-api/internal/ingestor/processor.go:483-506 | So does preparing the record at the cursor |
| `Ingestor.EndsBadly` | glassflow-api/internal/ingestor/processor.go:583-613 | After the cleanup of a failed or cancelled call the error has a reason, and on cancellation only doomed records were dead-lettered |
| `Ingestor.PatientTurn` | glassflow-api/internal/ingestor/processor.go:399-441 | A turn that does not end the call had a publish that was not acknowledged, so the looks at the context are bounded by the calls before throttling stops |
| `Stream.LooksThrough` | glassflow-api/internal/stream/errors.go:27-40 | An error counts as back-pressure, or as a cancellation, exactly when one of the errors it is joined from is |
| `Ingestor.PrepareMeans` | glassflow-api/internal/ingestor/processor.go:178-239 | Which records get a message, with which version, payload, key and subject, which are dead-lettered and which are errors |
| `Ingestor.EqualKeysShareASubject` | glassflow-api/internal/ingestor/processor.go:151-176 | Messages with equal deduplication keys share a subject, one of those configured; external payloads lose exactly five bytes |
| `Ingestor.RoundRobinIsFair` | glassflow-api/internal/ingestor/processor.go:143-149 | From any point of the life of a processor on, over one call or any sequence of calls, the messages prepared are spread over the subjects evenly up to one |
| `Ingestor.SubjectsAreFair` | glassflow-api/internal/ingestor/processor.go:143-149 | Over any stretch of the messages that took the subjects in turn, two subjects got equally many up to one |
| `Ingestor.CountsAreUses` | glassflow-api/internal/ingestor/processor.go:143-149 | How many messages of a stretch a subject got is how often the counter values of the stretch select it |
| `Ingestor.PreparedNext` | glassflow-api/internal/ingestor/processor.go:492-506 | Only a record without a cached message is prepared, so no record is prepared twice |
| `KafkaConsumer.Lifetimes` | glassflow-api/internal/kafka/consumer.go:216-362 | Over any number of process lifetimes, errors and crashes, with batches mixing partitions, every record below a committed offset had been acknowledged or dead-lettered when the commit was made; each lifetime returns the error of the step that stopped it |
| `KafkaConsumer.Consumer.ConsumeLoop` | glassflow-api/internal/kafka/consumer.go:227-251 | Every commit is safe, polls happen only with nothing in flight and none after an error; an error is returned exactly when a step stopped the run, is that of the step, and comes from a failed batch or a refused commit; nil means the context was found done; the subjects were used evenly over the run |
| `KafkaConsumer.Consumer.HandleBatchMessages` | glassflow-api/internal/kafka/consumer.go:253-292 | Polls only with no batch in flight and no error before, keeps every commit safe, and reports exactly the error of a failed batch or refused commit |
| `KafkaConsumer.Consumer.ProcessBatch` | glassflow-api/internal/kafka/consumer.go:294-350 | After success everything polled is asked to be committed, and the error says whether that was refused; after an error the last settled record is asked to be committed, and is when accepted, and the error of the processor is returned |
| `KafkaConsumer.Consumer.CommitBatch` | glassflow-api/internal/kafka/consumer.go:356-362 | Committing the polled cursor after a fully settled batch is safe, moves the offsets to the poll position and empties the batch |
| `KafkaConsumer.Consumer.CommitPrefix` | glassflow-api/internal/kafka/consumer.go:304-327 | Asks for the successor of the last settled record; committed exactly when accepted, and safe |
| `KafkaConsumer.Consumer.CommitSettled` | glassflow-api/internal/kafka/consumer.go:304-327 | After an error the last settled record is asked to be committed, if there is one, and nothing else |
| `KafkaConsumer.WholeBatch` | glassflow-api/internal/kafka/consumer.go:356-362 | A fully settled batch settles everything before the poll position |
| `KafkaConsumer.PartialBatch` | glassflow-api/internal/kafka/consumer.go:304-327 | Below the end of a settled prefix every record of that partition is settled |
| `KafkaConsumer.CursorCommitIsSafeIff` | glassflow-api/internal/kafka/consumer.go:352-362 | Committing the polled cursor is safe exactly when everything polled is settled |
| `Join.JoinComponent.NoLeftEventIsLost` | glassflow-api/internal/component/join.go:79-158 | At any moment of any run an acknowledged left event is published joined, past its TTL, or reachable through the index of its key |
| `Join.JoinComponent.Run` | glassflow-api/internal/component/join.go:79-158 | However arrivals, redeliveries and failures are ordered, every event that arrived is still pending or acknowledged, every acknowledged left event is published joined, past its TTL or reachable, and wherever a live right record and a live buffered left event share a key some right event of that key is still unacknowledged |
| `Join.JoinComponent.OnLeft` | glassflow-api/internal/component/join.go:87-100 | A left event is acknowledged exactly when it was handled and the acknowledgement worked, and else stays pending; it is not handled only if a call failed |
| `Join.JoinComponent.OnRight` | glassflow-api/internal/component/join.go:106-119 | A right event is acknowledged exactly when it was handled and the acknowledgement worked, and else stays pending; it is not handled only if a call failed |
| `Join.JoinComponent.DrainedMayAck` | glassflow-api/internal/join/temporal.go:267-291 | A right event whose key is drained is needed by nobody any more |
| `Join.Replay` | glassflow-api/internal/join/temporal.go:119-291 | Without faults and expiry a trace of events produces exactly the output the trace calls for: the refinement of the buckets to the table-driven join |
| `JoinModel.EachLeftJoinsOnce` | glassflow-api/internal/join/temporal.go:215-291 | Every left event is joined exactly once: with the latest right of its key before it, else the first after it, else not at all |
| `JoinModel.RunIsExpected` | glassflow-api/internal/join/temporal.go:215-291 | The outputs and their order follow from the trace alone; buffered lefts come out in arrival order |
| `JoinModel.TableMeans` | glassflow-api/internal/join/temporal.go:119-213 | The right table holds the last right event of a key, and lefts wait only under keys without one |
| `Join.TemporalJoinExecutor.HandleLeftStreamEvents` | glassflow-api/internal/join/temporal.go:215-265 | On success the event is filed or published joined, whatever failed before; an error means that a call of this handler failed, never that an entry expired; a faultless call makes the step of the table |
| `Join.TemporalJoinExecutor.HandleRightStreamEvents` | glassflow-api/internal/join/temporal.go:267-291 | On success every live buffered left of the key is gone; an error means that a call of this handler failed, never that an entry was gone; a faultless call makes the step of the table |
| `Join.TemporalJoinExecutor.StoreToLeftStreamBuffer` | glassflow-api/internal/join/temporal.go:119-147 | The message is stored before its UUID is indexed, and every message listed before stays listed |
| `Join.TemporalJoinExecutor.GetFromLeftStreamBuffer` | glassflow-api/internal/join/temporal.go:149-213 | Publishes the buffered lefts in order and removes them and then the index |
| `Join.TemporalJoinExecutor.DrainOne` | glassflow-api/internal/join/temporal.go:166-205 | A buffered message is deleted only after it was published joined |
| `Join.TemporalJoinExecutor.PublishJoinedMsg` | glassflow-api/internal/join/temporal.go:78-117 | Retries while the output stream is full: an error means that the publish was refused for another reason or the context is done; the message is published exactly when no error is returned |
| `Join.StoreMessage` | glassflow-api/internal/join/temporal.go:129-134 | A message under a fresh UUID disturbs no index |
| `Join.FileMessage` | glassflow-api/internal/join/temporal.go:119-147 | Rewriting the index keeps every message it listed: an index not found had expired, and its messages before it |
| `Join.ListedAfterFiling` | glassflow-api/internal/join/temporal.go:136-144 | The rewritten index lists the new UUID and exactly what was read before |
| `Join.DropMessage` | glassflow-api/internal/join/temporal.go:194-204 | A published message may be deleted |
| `Join.DropIndex` | glassflow-api/internal/join/temporal.go:207-212 | An index all of whose messages are gone may be deleted |
| `Texts.SplitAppend` | glassflow-api/internal/join/temporal.go:136-159 | Splitting at the separator undoes the append |
| `JoinedMessage.PrepareData` | glassflow-api/internal/join/utils.go:16-40 | A projection succeeds exactly when every ruled field is present, and has exactly the ruled outputs |
| `JoinedMessage.OrderIrrelevantIff` | glassflow-api/internal/join/utils.go:31-37 | The iteration order over the rules is irrelevant exactly when no two rules bring different values to one output |
| `JoinedMessage.JoinData` | glassflow-api/internal/join/utils.go:44-60 | Fields of both sides; the right side wins |
| `JoinedMessage.BuildJoinedMessage` | glassflow-api/internal/join/utils.go:64-92 | The joined payload has the outputs of both rule sets, right over left, and nothing else |
| `Sink.ClickHouseSink.FlushEvents` | glassflow-api/internal/sink/clickhouse.go:359-383 | A message is acknowledged ahead of its row or its dead-letter copy only if it repeats an earlier message of the batch, and without silent twins every message acknowledged, whatever fails, has some delivery stored or dead-lettered; only rows of this batch are stored, each the answer of the mapper on its message; without a failed dead-letter push or acknowledgement there is no error and, if the batches were made, the books are exactly those of verdicts, refused appends and answers; if making them failed the whole batch is asked for again exactly on a retryable error and else dead-lettered and acknowledged; from an idle pool making them fails only if the dispatch gave up, a push or acknowledgement failed, a driver batch could not be made or a replayed append was refused; nil from an idle pool means every message was acknowledged or refused, and the pool is idle again unless the dispatch gave up; and when no call fails exactly the rows of the accepted messages are stored, only unmapped messages are dead-lettered and all are acknowledged |
| `Sink.ClickHouseSink.SendBatch` | glassflow-api/internal/sink/clickhouse.go:414-509 | The same for making and sending the schema batches, before the fallback to the dead-letter stream |
| `Sink.ClickHouseSink.SendAll` | glassflow-api/internal/sink/clickhouse.go:440-501 | Every schema batch is sent once, in any order; without an error to report every version was refused, or acknowledged after being stored or dead-lettered, and the books changed by exactly that |
| `Sink.ClickHouseSink.SendSchema` | glassflow-api/internal/sink/clickhouse.go:444-498 | One schema batch: acknowledged when the send returned nil, refused for another try exactly on a retryable error, and on any other error dead-lettered and then acknowledged |
| `Sink.ClickHouseSink.Settle` | glassflow-api/internal/sink/clickhouse.go:450-498 | What the answer to a send does to the books, and that nothing is acknowledged unless its row is stored or its copy dead-lettered |
| `Sink.ClickHouseSink.FlushFailedBatch` | glassflow-api/internal/sink/clickhouse.go:386-412 | Every acknowledgement follows the dead-letter copy of that message; nil means exactly these messages were dead-lettered and acknowledged |
| `Sink.ClickHouseSink.CreateCHBatches` | glassflow-api/internal/sink/clickhouse.go:536-699 | From an idle pool the batches hold exactly the rows of the accepted messages per schema in order, exactly the failed messages were acknowledged and exactly the unmapped and refused ones dead-lettered; the pool is idle again unless the dispatch gave up |
| `Sink.ClickHouseSink.PlaceAll` | glassflow-api/internal/sink/clickhouse.go:605-680 | Placing all verdicts leaves the batches of the accepted rows; a refused append alone never fails it |
| `Sink.ClickHouseSink.Place` | glassflow-api/internal/sink/clickhouse.go:609-668 | One verdict keeps the replay invariant: dead-lettered, duplicate, refused or appended |
| `Sink.ClickHouseSink.AppendRow` | glassflow-api/internal/sink/clickhouse.go:622-668 | A refused append dead-letters one message and leaves the rows of all others in place; an error means that a push failed, a driver batch could not be made or a replayed append was refused |
| `Sink.ClickHouseSink.Rebuild` | glassflow-api/internal/sink/clickhouse.go:648-660 | After a refused append the batch is made anew and holds what its version had accepted |
| `Sink.ClickHouseSink.AppendTo` | glassflow-api/internal/sink/clickhouse.go:637-667 | The append and what each of its answers leaves in the batches |
| `Sink.ClickHouseSink.AckMessages` | glassflow-api/internal/sink/clickhouse.go:519-534 | nil means exactly these messages were acknowledged |
| `Sink.ClickHouseSink.NakMessages` | glassflow-api/internal/sink/clickhouse.go:511-517 | Asks for redelivery of exactly these messages |
| `Sink.ClickHouseSink.FlushBuffer` | glassflow-api/internal/sink/clickhouse.go:221-239 | Flushes exactly what the buffer held; a flush that found the pool idle and reports no error has every message acknowledged or refused, and leaves the pool idle unless the dispatch gave up |
| `Sink.ClickHouseSink.Serve` | glassflow-api/internal/sink/clickhouse.go:209-239 | Over any number of flushes, one at a time, between any appends and with any failures: every flush up to the first whose dispatch gives up finds the pool idle; a flush that found it idle and reports no error has every message acknowledged or refused, and without failed pushes and acknowledgements none reports an error; acknowledgements come early only for messages repeated within their batch; without silent twins every acknowledged message has a delivery stored or dead-lettered; stored rows are rows of some flush and the answers of the mapper; and without failures the books are those of the flushes one after the other |
| `Sink.OneMoreReport` | glassflow-api/internal/sink/clickhouse.go:359-383 | One more flush keeps all of these over the run so far |
| `Sink.ClickHouseBatch.Append` | glassflow-api/internal/batch/clickhouse/batch.go:60-80 | Refuses an id it holds; a failed append leaves the ids but not necessarily the driver rows |
| `Sink.ClickHouseBatch.Send` | glassflow-api/internal/batch/clickhouse/batch.go:82-95 | nil means the rows are stored; an error may come after they were stored; nothing else is stored |
| `Sink.NothingRepeats` | glassflow-api/internal/sink/clickhouse.go:637-664 | Without two deliveries of one message in a batch nothing repeats and there are no silent twins, so nothing is acknowledged early or lost |
| `SinkModel.EarlyAcksAreSafeIff` | glassflow-api/internal/sink/clickhouse.go:637-680 | What is acknowledged before the send is always dead-lettered exactly when no two mapped messages share a sequence and a schema |
| `SinkModel.OneRefusalDropsOneRow` | glassflow-api/internal/sink/clickhouse.go:637-664 | One more refused append drops that message only and keeps the order of all others |
| `SinkModel.Conserved` | glassflow-api/internal/sink/clickhouse.go:605-669 | Every message is kept exactly once or failed exactly once |
| `SinkModel.KeptIsSound` | glassflow-api/internal/sink/clickhouse.go:605-669 | What is kept comes from the batch and has no duplicates |
| `SinkModel.FailedIsAccounted` | glassflow-api/internal/sink/clickhouse.go:605-669 | A failed message was dead-lettered or repeats one before it |
| `SinkModel.PreparedMeans` | glassflow-api/internal/sink/clickhouse.go:280-343 | A message has a row exactly when its sequence and version are known, the version is configured and the mapper has an answer, and the row is that answer on its data, version and configuration |
| `Settlement.NothingIsLostIff` | glassflow-api/internal/sink/clickhouse.go:637-680 | Some refusals and answers let a flush acknowledge a message of which no delivery is stored or dead-lettered exactly when the message was mapped twice in the batch and no delivery of it failed to map |
| `Settlement.DeliveredTwiceMayBeLost` | glassflow-api/internal/sink/clickhouse.go:637-680 | With two deliveries of one message that maps, some flush acknowledges it and nobody has it |
| `Settlement.EverythingIsAnswered` | glassflow-api/internal/sink/clickhouse.go:414-509 | After a flush without an error every message is acknowledged or refused |
| `WorkerPool.Pool.Dispatch` | glassflow-api/internal/sink/clickhouse.go:552-609 | From an idle pool the verdicts come back complete and in message order for every interleaving of the workers and the pool is idle again, or the wait was given up; the exchange never blocks for good; if nothing failed the verdicts are exact |
| `WorkerPool.Pool.Exchange` | glassflow-api/internal/sink/clickhouse.go:558-599 | Every interleaving of dispatcher and workers is a path of the transition system, which ends finished, given up or stuck |
| `WorkerPool.VerdictsFitIff` | glassflow-api/internal/sink/clickhouse.go:552-609 | Over all messages and all schedules a dispatch never blocks for good and returns the verdicts on its own messages exactly when it finds nothing left in the pool |
| `WorkerPool.IdleIsGood` | glassflow-api/internal/sink/clickhouse.go:552-609 | Every schedule from an idle pool ends, if it ends, with the verdicts on the messages in order and nothing left behind, and is never stuck |
| `WorkerPool.StaleVerdictIsTaken` | glassflow-api/internal/sink/clickhouse.go:584-599 | One worker: a flush gives up while its only job is mapped, and the next one collects that verdict as its own, returns it, and leaves its own message neither failed nor kept, so neither acknowledged nor refused |
| `WorkerPool.Pool.Work` | glassflow-api/internal/sink/clickhouse.go:280-357 | One verdict per message in order; it is what the configuration and the mapping say, except where the configuration of the message's own version could not be read |
| `WorkerPool.JobBound` | glassflow-api/internal/sink/clickhouse.go:552-578 | At most 2w - 1 jobs for w workers |
| `WorkerPool.JobBoundIsTight` | glassflow-api/internal/sink/clickhouse.go:552-578 | 2w - 1 messages make 2w - 1 jobs |
| `WorkerPool.StuckIff` | glassflow-api/internal/sink/clickhouse.go:156-157 | Sending everything first can block exactly with more than 3w jobs |
| `WorkerPool.TrackComplete` | glassflow-api/internal/sink/clickhouse.go:588-599 | When nothing is on the way every job was collected with its verdicts |
| `MessageBuffer.Buffer.Run` | glassflow-api/internal/processor/streaming_component.go:101-160 | For any interleaving of appends, handler flushes, ticker flushes and the shutdown, the extracted batches followed by what is left are the arrivals, in order; what is left came in after the shutdown flush; and neither buffer nor batch exceeds the maximum |
| `MessageBuffer.Buffer.Extract` | glassflow-api/internal/sink/clickhouse.go:221-231 | Takes everything, once, and loses no order |
| `MessageBuffer.Buffer.Append` | glassflow-api/internal/sink/clickhouse.go:167-186 | Appends at the end and asks for a flush exactly at the maximum |
| `Streaming.StreamingComponent.ProcessBatch` | glassflow-api/internal/processor/streaming_component.go:289-338 | An acknowledgement is requested only when the batch is conserved: filtered out, dead-lettered by a stage, duplicate, or written or dead-lettered once; what is written or rejected is, message by message, the answer of the transformation on a surviving message under its header; any error refuses the whole batch, and it comes from a dead-letter write, an acknowledgement, the key store, the context or the transformation asking to stop, never from back-pressure or a rejected message; the write dead-letters only what the writer refused for good; saved keys always belong to messages that reached the output or the dead-letter stream |
| `Streaming.StreamingComponent.WriteWithBackpressure` | glassflow-api/internal/processor/streaming_component.go:183-263 | nil means every message was accepted or dead-lettered exactly once over all retries; an error means that a dead-letter write failed or the context ended, so back-pressure alone is always retried; a backpressure episode is left open exactly when the last write was clean and one was open |
| `Streaming.StreamingComponent.WriteOnce` | glassflow-api/internal/processor/streaming_component.go:186-261 | Only what failed under backpressure is left for the next write |
| `Streaming.StreamingComponent.Split` | glassflow-api/internal/processor/streaming_component.go:191-199 | The failures are split by their error and none is lost |
| `Streaming.StreamingComponent.WriteFailed` | glassflow-api/internal/processor/streaming_component.go:265-287 | nil means all were accepted by the dead-letter writer |
| `Streaming.StreamingComponent.RunProcessors` | glassflow-api/internal/processor/streaming_component.go:340-360 | What is left after the stages, what was dropped and what was dead-lettered, with an early stop when nothing is left |
| `Streaming.StreamingComponent.RunCommits` | glassflow-api/internal/processor/streaming_component.go:316-323 | Saving the keys twice is harmless, and afterwards they are saved |
| `Streaming.StreamingComponent.Process` | glassflow-api/internal/processor/dlq_processor.go:35-69 | Each stage, alone or under the dead-letter middleware, splits its input as its verdicts say |
| `Streaming.StreamingComponent.FilterBatch` | glassflow-api/internal/processor/filter_processor.go:30-90 | Matching messages in order, failures in order, the rest dropped |
| `Streaming.StreamingComponent.TransformBatch` | glassflow-api/internal/processor/stateless_transformer_processor.go:27-86 | Message i is the answer of the transformation on the i-th passing input under its header, failures are in order; the signal error is fatal |
| `Streaming.World.FilterDuplicates` | glassflow-api/internal/deduplication/badger/deduplication.go:30-72 | Only messages whose key is saved are dropped |
| `Streaming.World.SaveKeys` | glassflow-api/internal/deduplication/badger/deduplication.go:75-103 | On success exactly the keys of the messages are added to what others and expiry left; an error adds none of them; soundness is kept when the messages reached a stream |
| `Streaming.Ledger.Ack` | glassflow-api/internal/batch/nats/nats_batch_reader.go:55-75 | Acknowledges in order up to the first failure |
| `Streaming.UniqueReached` | glassflow-api/internal/processor/dedup_processor.go:32-82 | Every message that passed deduplication reached a stream under its key before its key is saved |
| `Streaming.AllAccounted` | glassflow-api/internal/processor/streaming_component.go:289-338 | After the write the batch is conserved |
| `StreamingModel.ChainProcessors` | glassflow-api/internal/processor/component.go:31-42 | The first middleware wraps outermost; a Noop is not wrapped |
| `StreamingModel.SelectPartitions` | glassflow-api/internal/processor/filter_processor.go:30-90 | The three verdicts of a stage split its input |
| `Validator.JsonValidator.Validate` | glassflow-api/internal/schema_v2/validate.go:166-230 | One pass with early stop and reused buffer accepts what the simple per-field check accepts, whatever was validated before; and unless the member names harm a field only conforming messages are accepted |
| `Validator.JsonValidator.ForEach` | glassflow-api/internal/schema_v2/validate.go:178-196 | The iteration computes the scan and ignores what the buffer held |
| `Validator.JsonValidator.constructor` | glassflow-api/internal/schema_v2/validate.go:125-163 | One check per field and an index from names to checks |
| `Validator.OnePassConforms` | glassflow-api/internal/schema_v2/validate.go:166-230 | For distinct fields, none repeated in the message, the pass agrees with the per-field check |
| `Validator.KindAccepts` | glassflow-api/internal/schema_v2/validate.go:92-154 | A field of a known kind takes exactly the JSON values of the type of its kind, a field of an unknown kind any |
| `Validator.ScanFindsAll` | glassflow-api/internal/schema_v2/validate.go:178-196 | The scan stops early only when every field was found |
| `Validator.AcceptanceIsSoundIff` | glassflow-api/internal/schema_v2/validate.go:166-230 | Accepted messages with given top-level names conform, whatever their values, exactly when no field is left out before as many field-named members as there are fields, except fields of unknown type that occur later |
| `Validator.ConformingIsAcceptedIff` | glassflow-api/internal/schema_v2/validate.go:166-230 | A conforming message is accepted exactly when no member with fewer field-named members before it than there are fields has another type than the field of its name |
| `Validator.AcceptedConforms` | glassflow-api/internal/schema_v2/validate.go:166-230 | Unless the member names harm a field an accepted message conforms, repeated members or not |
| `Validator.RepeatedMemberIsCountedTwice` | glassflow-api/internal/schema_v2/validate.go:190-194 | A repeated member lets a message with a missing field pass |
| `Validator.AcceptedFieldsAreFound` | glassflow-api/internal/schema_v2/validate.go:76-87 | Every field of an accepted message can be looked up |
| `Validator.SchemaGet` | glassflow-api/internal/schema_v2/schema.go:148-174 | Looks a field up as the validator does; for an accepted message it succeeds exactly for the fields of the schema |
| `Validator.ValidateSchemaToSchema` | glassflow-api/internal/schema_v2/validate.go:35-62 | No errors exactly when every previous field is still there with the same basic type |
| `Validator.EvolutionKeepsMessages` | glassflow-api/internal/schema_v2/validate.go:35-62 | What conforms to an accepted new schema conforms to the previous one |
| `Validator.EvolutionsCompose` | glassflow-api/internal/schema_v2/validate.go:35-62 | A chain of accepted evolutions is an accepted evolution |
| `Json.PlainField` | glassflow-api/internal/schema_v2/validate.go:76-87 | For a name without dots the path lookup is the literal lookup |
| `Mapper.KafkaToClickHouseMapper.Map` | glassflow-api/internal/mapper/mapper.go:37-121 | For every configuration and message the row is, for the last column of each source, the last member of the source or else its lookup, converted, and empty for the other columns; so for distinct sources and no repeated member it is the column-by-column lookup over the first configuration of the schema version in sorted key order |
| `Mapper.KafkaToClickHouseMapper.Metadata` | glassflow-api/internal/mapper/mapper.go:38-73 | The metadata of a version is made once, from sorted keys, and never changes |
| `Mapper.KafkaToClickHouseMapper.FillFromMembers` | glassflow-api/internal/mapper/mapper.go:79-98 | The pass leaves in the last column of each source what the last member of that source converts to, nothing elsewhere, and fails exactly when some member does not convert |
| `Mapper.KafkaToClickHouseMapper.FillRest` | glassflow-api/internal/mapper/mapper.go:102-118 | The fallback completes the row in any order of the columns |
| `Mapper.KafkaToClickHouseMapper.GetColumnNames` | glassflow-api/internal/mapper/mapper.go:123-131 | The column names in the order of the cells |
| `Mapper.PassIsLookupIff` | glassflow-api/internal/mapper/mapper.go:75-118 | Whatever values and conversion are, the fast row is the row of the lookup only if the member names repeat no source field, and then whenever the columns have distinct sources |
| `Mapper.RowIsLookupIff` | glassflow-api/internal/mapper/mapper.go:48-58 | Over all values without repeated sources and all conversions, the row is the row of the lookup exactly when no two columns share a source |
| `Mapper.TwoColumnsOfOneField` | glassflow-api/internal/mapper/mapper.go:48-58 | Two columns of one field: only the second is filled where the lookup fills both |
| `Mapper.PassFillsMissing` | glassflow-api/internal/mapper/mapper.go:102-118 | A column whose field is nowhere in the message is an empty map if it is a map and else NULL |
| `Mapper.PassIsLookup` | glassflow-api/internal/mapper/mapper.go:75-118 | Without repeated sources, in columns or message, pass and fallback give the row of the lookup |
| `Mapper.SortedUnique` | glassflow-api/internal/mapper/mapper.go:43-47 | There is one way to sort the keys, so map order does not show |
| `Mapper.SortKeys` | glassflow-api/internal/mapper/mapper.go:43-47 | The keys in increasing order, each once |
| `Mapper.FieldIsLiteral` | glassflow-api/internal/mapper/mapper.go:137-146 | A literal member is what the lookup finds |
| `Wire.RoundTripIff` | glassflow-api/internal/kv/kv.go:63-115 | A message comes back as it was put exactly when its version is canonical decimal text below 2^32; the payload always does |
| `Wire.EveryVersionRoundTrips` | glassflow-api/internal/kv/kv.go:63-115 | Every 32-bit version and every payload round-trips |
| `Wire.ExtractInvertsEncode` | glassflow-api/internal/schema_v2/schema.go:180-190 | Extraction and dropping five bytes invert the framing |
| `Wire.EncodeInvertsExtract` | glassflow-api/internal/schema_v2/schema.go:180-190 | Every accepted byte string is the framing of what is extracted from it |
| `Wire.NATSKeyValueStore.PutMessage` | glassflow-api/internal/kv/kv.go:63-75 | Stores the framed message, or changes nothing because the version is no number or the store failed |
| `Wire.NATSKeyValueStore.GetMessage` | glassflow-api/internal/kv/kv.go:96-115 | Unless the store failed, what the stored bytes decode to |
| `Wire.ItoaIsCanonical` | glassflow-api/internal/kv/kv.go:111-111 | Printing a number gives canonical text of that value |
| `Wire.CanonicalIsItoa` | glassflow-api/internal/kv/kv.go:64-67 | Canonical text is the printing of its value |
| `Wire.SplitJoin` | glassflow-api/internal/kv/kv.go:71-71 | Joining the big-endian bytes of a number gives it back |
| `Wire.JoinSplit` | glassflow-api/internal/kv/kv.go:110-110 | Splitting the number joined from four bytes gives them back |
| `Orchestrator.LocalOrchestrator.StopPipeline` | glassflow-api/internal/orchestrator/docker.go:369-409 | Streams of a completely set-up pipeline are deleted only with every component stopped and every input acknowledged; a failed stop deletes and forgets nothing, and with the right id it fails only if a check did |
| `Orchestrator.LocalOrchestrator.PausePipelineComponents` | glassflow-api/internal/orchestrator/docker.go:412-520 | nil means no join or sink input is pending or unacknowledged and everything has stopped |
| `Orchestrator.LocalOrchestrator.WaitForPendingMessagesToClear` | glassflow-api/internal/orchestrator/docker.go:523-551 | Clear on success; gives up after thirty checks, not before, and only if a check failed |
| `Orchestrator.LocalOrchestrator.CheckJoin` | glassflow-api/internal/orchestrator/docker.go:436-467 | With the ingestors stopped, left clear and then right clear means both are |
| `Orchestrator.LocalOrchestrator.CheckConsumerPendingMessages` | glassflow-api/internal/orchestrator/docker.go:564-584 | No error means nothing was pending or unacknowledged at that moment |
| `Orchestrator.LocalOrchestrator.TerminatePipelineComponents` | glassflow-api/internal/orchestrator/docker.go:587-614 | Forgets the pipeline and deletes its streams |
| `Orchestrator.ClearIsStable` | glassflow-api/internal/orchestrator/docker.go:412-520 | What was clear stays clear once everything upstream has stopped |
| `Orchestrator.StopWithRetries` | glassflow-api/internal/orchestrator/docker.go:369-409 | However often stopping is tried, streams are never deleted over unprocessed input |

## Left out

- Ingestor.KafkaMsgProcessor.ProcessBatchAsync: the retry loop ends because the context is cancelled after some finite but arbitrary number of looks; a run that retries for ever is not modelled. Backoff durations, the signal cooldown, metrics and logging are left out.
- KafkaConsumer.Lifetimes: one member of the consumer group, so no rebalances; a partition without a committed offset is read from its start; a poll reports cancellation only when the context of the run is done. A crash is a lifetime in which every later call is refused.
- Streaming.World.Interfere: other flushes are represented by what each of their steps keeps (saved keys belong to messages that reached a stream), not by running them; the unlocked flag of the backpressure episode is followed for one flush at a time.
- WorkerPool.Pool.Dispatch: order and completeness are stated for a pool that is idle at the start, because from any other they fail on some schedule (VerdictsFitIff, StaleVerdictIsTaken).
- Sink.ClickHouseSink.Serve: flushes run one at a time. In the source the ticker and the handler may flush at once over one pool; the second dispatch then starts from a pool that is not idle.
- Sink.ClickHouseSink.FlushEvents: the schema batches are a map of values that hold the driver batch by reference, where the source keeps pointers to pairs; nothing else refers to those pairs.
- Validator.JsonValidator.Validate: agreement with the per-field check is stated for distinct field names. Where a field is repeated among the top-level members (section 4 of RFC 8259 asks for unique names) AcceptanceIsSoundIff and ConformingIsAcceptedIff say when it still holds.
- Json.PlainField: field names contain no path metacharacters other than the dot, and array elements are not addressed by number; malformed text is not modelled, a message is a JSON value.
- Wire.NATSKeyValueStore.GetMessage: decimal text is parsed as on a 64-bit machine.
- Orchestrator.LocalOrchestrator.StopPipeline: the runner watcher, the mutex, environment variables and the single deletions with their ignored errors are left out.
- Join.Replay: UUIDs come from an arbitrary supply of pairwise distinct, non-empty texts without spaces; join keys are any texts, UUIDs among them, that this supply does not issue. The buckets expire entries by age only.
- Outcomes of NATS, Kafka, ClickHouse and Badger calls are nondeterministic; a call that was stored but reported as failed counts as failed, except for ClickHouse sends and acknowledgements, where both readings are covered.
- The cap on redeliveries, wall-clock time other than the logical clock of the buckets, and shutdown timeouts are not modelled.
- The expression engine, the schema registry and the numeric conversion tables are arbitrary functions.
- The cache of the schema store, the API handlers, model conversion, the status matrix, resource defaults and the user interface are left out: mostly field copying and finite case checks.
- The non-streaming Component has the same stages without the backpressure loop and would add no further property.
