# Verified model of the document pipeline

This project models the crash-tolerant document pipeline in Dafny and proves what it promises. A document is
submitted, a worker extracts entities from its text, and a second pool of workers classifies each entity. PostgreSQL
holds the truth in three tables (`documents`, `tokens`, `outbox`). A relay moves outbox rows to two Redis streams,
which deliver every message at least once.

Four views of the system are connected by proofs.

* **The code as it is written.** `Tables.dfy` holds the tables in a class, with a method for each transaction
  primitive and for `claim`, `persist`, `apply` and `Submit`. `Workers.dfy` has the two handlers and the consumer
  loop, `Relay.dfy` has `drainBatch` and `drainAll`, and `Query.dfy` has the token query builder. `Sentences.dfy`,
  `Spans.dfy` and `Extraction.dfy` have the rule-based extractor, over the strings of `Text.dfy`, whose byte offsets
  `Utf8.dfy` ties to the encoding. `Work.dfy` says on the rows what handling a message may do and must achieve.
* **Transactions as functions.** `Store.dfy` gives the effect of each transaction on the committed tables;
  `TableInvariant.dfy` has the invariant that every transaction keeps and the relation between successive committed
  states. The methods are proved against these functions.
* **The protocol.** `Protocol.dfy` is one state machine over tables, streams, pending lists, handlers in flight with
  their snapshots, and open relay transactions. Any message may be handed out again at any time, even while a handler
  still works on it; handlers and relays may die at any point; acks may be lost. `Safety.dfy` proves the inductive
  invariant. `Runs.dfy`, `Determinism.dfy`, `Completion.dfy`, `Stamps.dfy` and `Convergence.dfy` draw whole-run
  conclusions from it. `Effects.dfy` says column by column and row by row what each event writes.
* **Statements and locks.** `Statements.dfy` splits the same transactions into single SQL statements under row locks.
  `Serializable.dfy` and `Interleavings.dfy` prove that every interleaving of statements amounts to its commits, each
  an atomic transaction of `Store.dfy`, in commit order. `Deadlock.dfy` finds the one way in which transactions can
  block each other. `Simulation.dfy` puts handlers, streams and relays around the statement-level transactions and
  proves that every schedule of that whole system is a run of the protocol.

Every lemma carries `{:induction false}`: an induction is only ever the recursive call written in the body.

## Where the code falls short of its description

`persist` checks the run version but not the status (internal/pipeline/extractor.go:133-138). Two handlers of the same
run can both get past `claim`, and the later `persist` then moves a COMPLETED document back to CLASSIFYING with
nothing pending and nothing enqueued. The comment at internal/pipeline/extractor.go:66-68 calls a redelivered job for
an extracted document a no-op, docs/data-model.md:14 gives the statuses as a forward chain, and
docs/duration-tracking.md:36-37 says that timestamps line up with state changes; for such a repeated persist none of
the three holds. The model follows the code:

* `RepeatedPersist.CompletedIsNotFinal` is a complete run that ends in this state, with a negative duration.
* `LateApply.ApplyStampsBackwards` is a second one: a repeated persist moves the start of classification past the
  start of the apply that then completes the document.
* `Completion.StuckExactlyWhen`, `Completion.CompletedLostExactlyWhen` and `Stamps.OrderLostExactlyWhen` give the
  exact conditions, over all events, in terms of the state before the event. `Stamps.StampsInEveryRun` says what
  holds of the stamps all the same.
* `Completion.CompletesIfPersistedOnce`, `Completion.CompletedIsFinalIfPersistedOnce` and
  `Stamps.StampsInOrderIfPersistedOnce` prove the promised behaviour when no run is persisted twice.
  `Completion.OnceIffExtracting` shows that this is the same as every committed persist finding its document
  EXTRACTING, which is what a status guard would enforce.
* `Completion.StuckUntilFullRerun` shows that with a deterministic extractor only a full rerun repairs the document.

## Model

| member | source | states |
|---|---|---|
| `Safety.AlwaysInv` | internal/pipeline/extractor.go:44-169 | the inductive invariant linking tables, messages, handler snapshots and relay transactions holds in every reachable state |
| `Runs.NoLostClassification` | internal/pipeline/classifier.go:43-57 | every pending token, in every reachable state, belongs to its document's current run and has an un-acked classify job with its id and version in outbox or stream |
| `Runs.NoLostExtraction` | internal/pipeline/extractor.go:44-117 | every PENDING or EXTRACTING document has an un-acked extract job stamped with its current version |
| `Runs.AckedStaysObsolete` | internal/queue/redis.go:152-169 | an acked job is never needed again, however long after the handler's decision the ack comes |
| `Runs.CountersAgree` | internal/store/documents.go:69-105 | in every committed state the total and the classified count equal the numbers of rows they count, and all rows of a document are of its current run |
| `Runs.CompletionTestFiresAtEquality` | internal/pipeline/classifier.go:109-120 | the `>=` test can only succeed at equality, and succeeds exactly when no token is left pending |
| `Runs.StaleHandlersChangeNothing` | internal/pipeline/extractor.go:133-138 | a persist or an apply of a superseded run changes no table |
| `Runs.CommittingPersistHoldsCurrentText` | internal/pipeline/extractor.go:126-138 | a snapshot whose version is current holds the current text, and its document is not PENDING |
| `Runs.ExactlyOnceEffect` | internal/pipeline/classifier.go:64-123 | over any run a token is classified at most once and its recorded row never changes afterwards |
| `Runs.CounterStep` | internal/store/documents.go:97-105 | the counter moves by the number of tokens classified in the same step, at most one, and only by an apply on a CLASSIFYING document |
| `Runs.CounterIsTally` | internal/pipeline/classifier.go:105-123 | the counter is the number of classifications since the last full resubmit |
| `Runs.VersionCountsResubmits` | internal/service/document.go:54-81 | the version is one plus the committed full resubmits, and the text is that of the last of them |
| `Runs.SubmitKeepsOrDiscardsWork` | internal/service/document.go:51-99 | a partial submit keeps all rows and at most turns FAILED to PENDING, a full one discards this document's tokens only, and exactly the accepted ones enqueue one job with the resulting version |
| `Runs.StatusMoves` | internal/pipeline/extractor.go:100-149 | within a version the only status moves are the listed ones and those caused by a repeated persist |
| `Effects.RenewColumns` | internal/store/store.go:124-151 | a new or fully resubmitted document has exactly the given text, PENDING, the next version, zero counters and no stamp |
| `Effects.ClaimColumns` | internal/store/documents.go:56-64 | a claim of a PENDING document sets EXTRACTING and the start stamp to its transaction's time, and no other column |
| `Effects.PersistColumns` | internal/store/documents.go:69-93 | a committing persist sets the total, both boundary stamps to its transaction's time, and COMPLETED with its stamp exactly when the document has no token |
| `Effects.ClassifyColumns` | internal/store/documents.go:97-116 | classifying a token adds one to the counter, and completes the document with its transaction's time exactly when no token is left pending |
| `Effects.OtherColumns` | internal/store/documents.go:56-116 | no other event changes a document row |
| `Effects.CompletionStamp` | internal/store/documents.go:108-116 | the completion stamp changes only through a completing apply or an empty persist, to the time of that transaction, or a full resubmit, to none |
| `Effects.ClassifiesExactly` | internal/pipeline/classifier.go:88-108 | a token is classified exactly when an apply finds it pending and of its job's run |
| `Effects.TokenRows` | internal/store/tokens.go:57-116 | a token row is deleted exactly by a full resubmit of its document, changed only by recording its handler's result, and inserted only by a persist, pending, with an entity of its handler |
| `Effects.PersistInserts` | internal/store/tokens.go:57-70 | an entity gets its own row exactly when no row of the run and no earlier entity has its sentence, offset and text; afterwards every entity's key is there |
| `Effects.PersistEnqueues` | internal/pipeline/extractor.go:150-165 | a persist adds one job for each token left pending, in id order, and no other row |
| `Effects.ClaimDecides` | internal/pipeline/extractor.go:69-84 | a handler goes on to extract exactly when the document is not past extraction, with the text and version it locked |
| `Effects.CheckDecides` | internal/pipeline/classifier.go:64-73 | a handler goes on to classify exactly when the token is there and pending |
| `Effects.ApplyAnswers` | internal/pipeline/classifier.go:88-107 | which tokens an apply reports missing, which stale, and that any other answer changes nothing |
| `Effects.ExtractionAnswers` | internal/pipeline/extractor.go:100-149 | which documents a claim and a persist report missing or stale, and what they return otherwise |
| `Runs.RelayAtLeastOnce` | internal/outbox/relay.go:76-98 | a committed outbox row is at all later times in the outbox or published, with its job unchanged |
| `Runs.NoRowClaimedTwice` | internal/store/outbox.go:34-48 | no row is held by two open relay transactions |
| `Determinism.QuiescentIsFinished` | internal/queue/redis.go:80-169 | once all is published and acked, every document is extracted, every token classified, and the counters are equal |
| `Determinism.ScheduleIndependence` | internal/service/document.go:51-99 | with a deterministic extractor and classifier every quiescent state, however reached, holds for each document exactly the rows of the one-line specification for its last text |
| `Determinism.PersistWritesSpec` | internal/store/tokens.go:57-70 | right after any persist the run's rows are the specification's, and a repeated one changes no row |
| `Determinism.ReExtractionConverges` | internal/pipeline/extractor.go:126-169 | a repeated persist changes no token row and no counter and enqueues jobs for exactly the pending tokens, in id order |
| `Determinism.AlwaysProv` | internal/pipeline/extractor.go:69-95 | every row of every document stems from its current text, and every classification from its entity |
| `Determinism.HasKeyIsKeyIn` | internal/store/migrations/0001_init.sql:56-57 | the natural-key conflict test agrees with the listing of the run |
| `Completion.CompletedMeansAllClassified` | internal/pipeline/classifier.go:109-120 | COMPLETED implies that no token is pending and the counters are equal |
| `Completion.StuckExactlyWhen` | internal/pipeline/extractor.go:133-165 | a document becomes CLASSIFYING with nothing pending exactly through a persist on a completed non-empty run that already has every extracted key |
| `Completion.CompletedLostExactlyWhen` | internal/pipeline/extractor.go:133-149 | COMPLETED is left within a run exactly through a persist that leaves the run non-empty |
| `Completion.CompletesIfPersistedOnce` | internal/pipeline/extractor.go:126-169 | if each run is persisted at most once, extracted and fully classified implies COMPLETED |
| `Completion.OnceIffExtracting` | internal/pipeline/extractor.go:74-84 | each run is persisted at most once if and only if every committed persist finds its document EXTRACTING |
| `Completion.CompletedIsFinalIfPersistedOnce` | internal/pipeline/extractor.go:133-149 | if each run is persisted at most once, COMPLETED lasts until the next full resubmit, over any continuation |
| `Completion.StuckUntilFullRerun` | internal/service/document.go:65-81 | with a deterministic extractor no redelivery or partial resubmit completes a stuck document |
| `RepeatedPersist.CompletedIsNotFinal` | internal/pipeline/extractor.go:133-149 | a full run from the empty system in which a second persist undoes COMPLETED for good and makes a duration negative |
| `LateApply.ApplyStampsBackwards` | internal/pipeline/classifier.go:88-120 | a full run in which the completing apply, begun before a repeated persist, stamps an end before the start |
| `Stamps.OrderLostExactlyWhen` | internal/store/documents.go:69-116 | over all events, stamps in order stay so except exactly through a persist of a non-empty run that began after the stamped completion, or a completing apply that began before the stamped start of classification |
| `Stamps.StampsInEveryRun` | internal/store/documents.go:56-116 | in every run COMPLETED has all four stamps, classification starts when extraction completes, and extraction takes no negative time |
| `Stamps.DurationsAreStageTimes` | internal/domain/domain.go:162-170 | in every run each duration is zero until its stage is over and then its whole time, and those of a COMPLETED document add up to the time from claim to completion |
| `Stamps.AlwaysStarted` | internal/store/documents.go:56-64 | every document past PENDING has a start stamp, and no handler holding a current snapshot took it before that stamp |
| `Stamps.StampsInOrderIfPersistedOnce` | internal/domain/domain.go:162-170 | if each run is persisted at most once the four stamps are in order and no duration is negative |
| `Convergence.ProgressDrops` | internal/pipeline/extractor.go:69-169 | every step other than submits, faults, duplicates of live work and idle steps lowers a lexicographic measure of outstanding work |
| `Convergence.IdleAddsNothing` | internal/outbox/relay.go:39-51 | ticks and polls that find no row never add work |
| `Convergence.EveryScheduleIsFinite` | internal/queue/redis.go:80-169 | an endless schedule without submits, faults or duplicates of live work makes finitely many progress steps, however it ticks and polls in between |
| `Convergence.FairSchedulesFinish` | internal/queue/redis.go:80-169 | if it also takes its chances to make progress again and again, all work ends, in the tables of the specification |
| `Convergence.StopsOnlyWhenFinished` | internal/pipeline/classifier.go:64-123 | where no such step is possible, everything is extracted, classified and counted |
| `Convergence.CanAlwaysFinish` | internal/outbox/relay.go:54-98 | every reachable state can be driven by such steps to the specification |
| `TableInvariant.ClaimKeepsTables` | internal/pipeline/extractor.go:100-117 | a claim keeps the table invariant and only lets rows evolve |
| `TableInvariant.PersistKeepsTables` | internal/pipeline/extractor.go:126-169 | a persist keeps the table invariant, and every token left pending gets a row in the outbox |
| `TableInvariant.ApplyKeepsTables` | internal/pipeline/classifier.go:87-123 | an apply keeps the table invariant and needs no new job |
| `TableInvariant.SubmitKeepsTables` | internal/service/document.go:51-99 | a submit keeps the table invariant, and a document to be extracted gets a row in the outbox |
| `Tables.Database.constructor` | internal/store/migrations/0001_init.sql:6-58 | the tables start empty |
| `Tables.Database.InsertDocument` | internal/store/store.go:124-131 | inserts a PENDING document of version 1, or fails on an existing id |
| `Tables.Database.ResetDocument` | internal/store/store.go:135-151 | deletes all tokens of the document, of every run, and starts the next version clean |
| `Tables.Database.UpsertTokens` | internal/store/tokens.go:57-70 | the insert loop adds exactly the rows whose natural key was not there, first come first kept, and burns one id per entity |
| `Tables.Database.CountTokens` | internal/store/tokens.go:73-81 | the scan counts each row of the run once and no other |
| `Tables.Database.ListTokensForRun` | internal/store/tokens.go:84-93 | all ids of the run in ascending order |
| `Tables.Database.ClaimOutboxBatch` | internal/store/outbox.go:34-48 | the first rows in id order that no other relay has locked, up to the limit |
| `Tables.Database.EnqueuePending` | internal/pipeline/extractor.go:154-165 | one classify job per listed token not yet classified, in order |
| `Tables.Database.Claim` | internal/pipeline/extractor.go:100-117 | the tables and the answer are those of the atomic claim |
| `Tables.Database.Persist` | internal/pipeline/extractor.go:126-169 | fencing, upsert, recount, stage advance and fan-out together are the atomic persist |
| `Tables.Database.Apply` | internal/pipeline/classifier.go:87-123 | re-check, fence, classification, counter and completion together are the atomic apply |
| `Tables.Database.Submit` | internal/service/document.go:51-99 | the decision matrix with its enqueue is the atomic submit |
| `Work.ApplyWorks` | internal/pipeline/classifier.go:74-123 | recording a result touches that token and its document only, and records what the classifier returned for the row |
| `Work.PersistWorks` | internal/pipeline/extractor.go:84-169 | persisting leaves old rows alone, adds only rows of the extracted entities, has a row for every entity's key and a job for every row |
| `Work.WorkedTransitive` | internal/pipeline/classifier.go:64-123 | the law on what any amount of work may change composes |
| `Workers.Worker.ExtractClaimed` | internal/pipeline/extractor.go:84-93 | what is persisted is what the extractor returned |
| `Workers.Worker.HandleExtract` | internal/pipeline/extractor.go:44-95 | nothing is written for a document gone or past extraction; otherwise success means that all the extractor found for its text is there, enqueued and stamped; without trouble it fails exactly where the extractor fails |
| `Workers.Worker.HandleClassify` | internal/pipeline/classifier.go:43-81 | nothing is written for a token gone or classified; otherwise success means that the classifier's own result for this row is recorded, and no other token changes; without trouble it fails exactly where the classifier fails |
| `Workers.Worker.Handle` | internal/pipeline/extractor.go:44-62 | undecodable messages are dropped without effect, the others have the effect of their worker |
| `Workers.Broker.Publish` | internal/queue/redis.go:58-67 | appends one undelivered message unless it fails without effect, and reports every failure |
| `Workers.Broker.HandleOne` | internal/queue/redis.go:152-169 | the tables change as handling this message demands; it is acked on success only, and then unless the ack itself fails, and an acked message has achieved what it asks for |
| `Workers.Broker.HandleAll` | internal/queue/redis.go:119-123 | a batch touches its own messages only, and all of them are acked when nothing fails |
| `Workers.Broker.Claimable` | internal/queue/redis.go:129-143 | the oldest idle pending messages, up to the count |
| `Workers.Broker.Reclaim` | internal/queue/redis.go:129-148 | hands out idle pending messages only, and some whenever there are any; acks all of them when nothing fails |
| `Workers.Broker.Take` | internal/queue/redis.go:101-107 | exactly the first unread messages, up to the count, become pending |
| `Workers.Broker.ReadNew` | internal/queue/redis.go:101-123 | exactly the first unread messages are read; a lost reply leaves them pending, and all are acked when nothing fails |
| `Workers.Broker.ConsumeOnce` | internal/queue/redis.go:84-124 | new messages are read exactly when nothing abandoned is taken over; when nothing fails a turn acks something or nothing is left |
| `Workers.Broker.Consume` | internal/queue/redis.go:80-125 | for any number of turns and broker errors nothing is lost and only the work asked for is done; when nothing fails and the turns suffice, every message ends acked |
| `Workers.ConservedStable` | internal/queue/redis.go:150-169 | what has been acked stays obsolete as the tables evolve |
| `Relay.Relay.PublishRows` | internal/outbox/relay.go:83-90 | what is published is a prefix of the outbox in id order, and only that is deleted |
| `Relay.Relay.DrainBatch` | internal/outbox/relay.go:76-98 | a batch fails only through one of its own calls, and then deletes nothing; a good one publishes and deletes the same prefix, a full batch or all there is |
| `Relay.Relay.DrainAll` | internal/outbox/relay.go:54-71 | published and deleted rows are prefixes in id order whatever fails; unless one of its own calls fails or the context is cancelled, each row is published once, the outbox ends empty, and the last batch is the first that is not full |
| `Relay.BatchCountIsQuotient` | internal/outbox/relay.go:54-71 | that makes length divided by batch size, plus one, batches |
| `Relay.InOrderIsOrdered` | internal/store/outbox.go:34-40 | the listing of the outbox is ORDER BY id |
| `Query.BuildConditions` | internal/store/tokens.go:119-139 | the clauses, each bound to its own argument, select exactly the rows that the filter wants |
| `Query.BuildQuery` | internal/store/tokens.go:119-153 | on every store the statement yields the filtered rows of the current run in id order, cut by offset and limit |
| `Query.RowsListed` | internal/store/tokens.go:119-141 | the rows listed are exactly those of the document's current run with the classification, status and page asked for, by ascending id |
| `Query.PageListed` | internal/store/tokens.go:141-149 | a page holds as many of them as the limit allows from the offset on |
| `Query.PagesConcatenate` | internal/store/tokens.go:141-149 | consecutive pages of any positive size concatenate to the unpaged result |
| `Serializable.LockedStaysOk` | internal/store/documents.go:24-35 | a transaction part way through its body is undisturbed by any change outside the rows it has locked |
| `Serializable.WritesAreGuarded` | internal/pipeline/classifier.go:87-123 | every write to a document or its tokens happens under that document's lock, and every row rewritten or deleted is locked |
| `Serializable.CommitSparesOthers` | internal/store/store.go:111-121 | a commit changes nothing that another transaction has locked |
| `Serializable.StatementKeepsOk` | internal/pipeline/extractor.go:126-169 | each single statement of each body keeps the relation between its overlay and the locked rows |
| `Serializable.CommitIsAtomic` | internal/store/store.go:107-115 | at its commit every body has the effect and the answer of the atomic transaction run at that moment |
| `Serializable.RefusalIsAtomic` | internal/pipeline/classifier.go:88-107 | each refusal is what the atomic transaction would answer at that moment |
| `Interleavings.MoveRefines` | internal/store/store.go:107-115 | commits are atomic transactions; no other statement, abort or refusal touches the tables |
| `Interleavings.AlwaysMachineInv` | internal/store/store.go:117-151 | locks are exclusive, drawn ids are unshared, and the table invariant holds in every reachable machine |
| `Interleavings.Serial` | internal/pipeline/classifier.go:83-123 | every interleaving reaches the tables of its commits replayed one at a time in commit order |
| `Simulation.ActMatches` | internal/store/store.go:107-115 | each statement, commit, abort or other act of the whole system is one event of the protocol, or none |
| `Simulation.AlwaysSystemInv` | internal/store/store.go:107-151 | every open transaction does what its handler or client asked for, and began after that handler's last action |
| `Simulation.EveryScheduleIsARun` | internal/pipeline/extractor.go:44-169 | every statement-level schedule with handlers, streams, relays and crashes is a run of the protocol that ends in the same tables, streams, handlers and relays |
| `Simulation.InvariantBetweenStatements` | internal/pipeline/classifier.go:43-123 | the protocol invariant holds between any two statements |
| `Deadlock.OnlyApplyAgainstReset` | internal/store/tokens.go:97-104 | every wait cycle is one apply and one full rerun of the same document |
| `Deadlock.NothingElseBlocks` | internal/pipeline/classifier.go:88-101 | if no open transaction can go on, such a pair is among them |
| `Deadlock.AbortResolves` | internal/store/store.go:107-115 | aborting either one changes no table and frees the other |
| `Deadlock.DeadlockArises` | internal/store/store.go:135-138 | the pair does block whenever the rerun locks the document between the apply's two locks |
| `Sentences.SplitSentences` | internal/nlp/mock.go:131-156 | the loop yields the non-blank segments between terminators, numbered and located |
| `Sentences.SegmentsPartition` | internal/nlp/mock.go:132-143 | the segments, blank ones included, concatenate to the text |
| `Sentences.SentencesCoverText` | internal/nlp/mock.go:128-156 | sentences are consecutive pieces in order with consecutive indices, each with its offset and prefix; only white space is dropped |
| `Sentences.OneSentencePerRune` | internal/nlp/mock.go:128-156 | every non-space rune is in exactly one sentence |
| `Sentences.SentenceEdges` | internal/nlp/mock.go:131-143 | a sentence reaches from just after one terminator, or the start, to the end of the next, or of the text |
| `Spans.Occupied` | internal/nlp/mock.go:69-76 | true exactly when some accepted span overlaps |
| `Spans.TryMatch` | internal/nlp/mock.go:79-93 | a match adds its cleaned span exactly when it is free and passes the filters |
| `Spans.AcceptMatches` | internal/nlp/mock.go:78-94 | one rule's turn adds its granted matches in order |
| `Spans.AcceptedIsLayer` | internal/nlp/mock.go:77-95 | testing against everything accepted is the same as testing against earlier rules only |
| `Spans.SelectedDisjoint` | internal/nlp/mock.go:63-95 | accepted spans are pairwise disjoint for any rules |
| `Spans.GreedyByPriority` | internal/nlp/mock.go:63-95 | a match is accepted at its rule if and only if it passes the filters and overlaps nothing of a strictly earlier rule |
| `Spans.SelectedAreMatches` | internal/nlp/mock.go:77-95 | every accepted span is a match that passed and was free at its turn |
| `Extraction.ChosenInOrder` | internal/nlp/mock.go:96 | spans come strictly ordered by start, and every sorting algorithm gives this same order |
| `Extraction.ExtractSentence` | internal/nlp/mock.go:63-113 | the entities of a sentence are those of its sorted spans |
| `Extraction.EntityIsPlaced` | internal/nlp/mock.go:98-111 | an entity's text stands at its offset, within its sentence and its context, and its page counts the form feeds before the sentence |
| `Extraction.OffsetsRoundTrip` | internal/nlp/mock.go:52-113 | over the whole document every entity is so placed, and offsets increase strictly |
| `Extraction.EverySpanEmitted` | internal/nlp/mock.go:98-112 | every span chosen in a sentence is emitted, with its text, context, page, sentence and offset |
| `Extraction.EveryEntityIsASpan` | internal/nlp/mock.go:80-112 | nothing else is emitted, and an entity's text is its match without trailing white space and then trailing dots, no less and no more |
| `Extraction.TextIsUnique` | internal/nlp/mock.go:82 | that determines the text |
| `Extraction.FormFeedsCount` | internal/nlp/mock.go:158-161 | pages count the places where a form feed stands |
| `Extraction.NoEntityDeduplicated` | internal/store/migrations/0001_init.sql:56-57 | no two entities of a document share a natural key, so the upsert keeps them all |
| `Extraction.EveryEntityIsClassified` | internal/nlp/mock.go:50-61 | with this extractor the specification of a finished run is every entity, classified, in reading order |
| `Extraction.Extract` | internal/nlp/mock.go:52-61 | the sentences' entities in order; the final sort changes nothing |
| `Text.RuneCountOfPrefix` | internal/nlp/mock.go:101 | counting the runes before a rune boundary gives the position of that boundary |
| `Text.TrimSpaceBounds` | internal/nlp/mock.go:98 | trimming keeps the stretch from the first to the last non-space |
| `Text.CleanedMatch` | internal/nlp/mock.go:82 | a match that starts on a non-space is cleaned from the right only and stays within the trimmed sentence |
| `Text.CleanKeeps` | internal/nlp/mock.go:82 | cleaning takes off exactly the outer white space and then the trailing dots |
| `Text.SpacesListed` | internal/nlp/mock.go:82 | the white space that is trimmed, code point by code point |
| `Utf8.RuneRoundTrip` | internal/nlp/mock.go:101 | the bytes counted for a rune are those of its encoding, which decodes to it |
| `Utf8.BoundaryIffLead` | internal/nlp/mock.go:101 | an offset falls between runes exactly when it is the end or a byte there begins a rune |
| `Utf8.CutIsByteSlice` | internal/nlp/mock.go:82 | slicing the text at such offsets is slicing its bytes |
| `Utf8.RuneCountIsLeads` | internal/nlp/mock.go:101 | counting runes up to such an offset is counting the bytes that begin one |

## Left out

- HTTP handlers, DTOs, access logging and percentages (internal/api): presentation.
- `cmd`, `internal/app`, `internal/config`, migrations and their advisory lock: bootstrap.
- The Ollama client and the mock classifier's rules: the classifier is an arbitrary function, or a failure.
- The regular expressions and the two word lists of the extractor: the patterns are arbitrary functions that return non-empty matches between runes, left to right, without overlap; for the offset results each match starts on a non-space, as all six patterns do. The title filter is an arbitrary predicate.
- Regular-expression, JSON and SHA-256 libraries; the content hash column; `created_at`, `updated_at` and `classified_at`.
- Texts that are not valid UTF-8: documents arrive as JSON and are stored in a UTF-8 database, so a string is a sequence of runes with the byte widths of section 3 of RFC 3629.
- `MarkFailed` (internal/store/documents.go:120-124) has no caller, so no event of the protocol sets FAILED; `Submit` still handles it.
- `GetDocument` outside a transaction (internal/store/documents.go:19-22): no claim on its error for a missing row.
- Timeouts, poll intervals and idle thresholds: replaced by arbitrary redelivery, abort and crash events. Loss of Redis data and stream trimming are not modelled.
- Consumer names and goroutine groups: the protocol allows any number of concurrent handlers and relays.
- Workers.Broker.Consume: one consumer; concurrent consumers are the subject of the protocol.
- Tables.Database.Submit: one client at a time, like every method of the class; interleaving is the subject of the statement-level machine. The unlocked token read before classification is a single event of the protocol.
- Relay.Relay.DrainAll: no other relay at work, so no row is locked; several relays are the subject of the protocol.
- The one-statement setters of the store (internal/store/documents.go:56-116, internal/store/tokens.go:108-116, internal/store/outbox.go:22-29 and 51-56) are methods of `Tables.Database` without rows of their own: each contract is its UPDATE, INSERT or DELETE.
- Interleavings.Serial: an insert that loses the race for a new document id reports an error and changes nothing; it has no atomic counterpart, because the atomic submit would have found the row.
