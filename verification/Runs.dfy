/** What holds over whole runs, under any interleaving, duplication, crash or redelivery. */
module Runs {
  import opened Domain
  import opened Collections
  import opened Store
  import opened TableInvariant
  import opened Protocol
  import opened Safety

  /******* No lost work *******/

  lemma {:induction false} NoLostClassification(run: Run, id: TokenId)
    requires Valid(run)
    requires id in Last(run).db.tokens && Last(run).db.tokens[id].status == TokenPending
    ensures var t := Last(run).db.tokens[id];
            && Current(Last(run).db, t.docId, t.runVersion)
            && Outstanding(Last(run), ClassifyJob(id, t.docId, t.runVersion))
  {
    AlwaysInv(run);
    var s := Last(run);
    assert TokenOk(s.db, s.db.tokens[id]);
    assert Needed(s.db, ClassifyJob(id, s.db.tokens[id].docId, s.db.tokens[id].runVersion));
  }

  lemma {:induction false} NoLostExtraction(run: Run, d: DocId)
    requires Valid(run) && d in Last(run).db.docs
    requires Last(run).db.docs[d].status == Pending || Last(run).db.docs[d].status == Extracting
    ensures Outstanding(Last(run), ExtractJob(d, Last(run).db.docs[d].runVersion))
  {
    AlwaysInv(run);
    assert Needed(Last(run).db, ExtractJob(d, Last(run).db.docs[d].runVersion));
  }

  /** An acked job never becomes needed again, however late the ack comes after the handler decided. */
  lemma {:induction false} AckedStaysObsolete(run: Run, later: Run, m: MsgId)
    requires Valid(run) && Valid(later) && Continues(run, later)
    requires m in Last(run).stream && Last(run).stream[m].acked
    ensures !Needed(Last(later).db, Last(run).stream[m].job)
  {
    AlwaysInv(run);
    RunEvolves(run, later);
    var e := Last(run).stream[m];
    assert EntryOk(Last(run).db, e);
    ObsoleteStable(Last(run).db, Last(later).db, e.job);
    ObsoleteExcludesNeeded(Last(later).db, e.job);
  }

  /******* Counters and provenance of rows *******/

  lemma {:induction false} CountersAgree(run: Run, d: DocId)
    requires Valid(run) && d in Last(run).db.docs
    ensures var db := Last(run).db;
            var v := db.docs[d].runVersion;
            && db.docs[d].totalTokens == |RunTokens(db.tokens, d, v)|
            && db.docs[d].classifiedCount == |ClassifiedTokens(db.tokens, d, v)|
            && db.docs[d].classifiedCount <= db.docs[d].totalTokens
            && forall i :: i in db.tokens && db.tokens[i].docId == d ==> db.tokens[i].runVersion == v
  {
    AlwaysInv(run);
    var db := Last(run).db;
    var v := db.docs[d].runVersion;
    assert DocRowOk(db, d);
    SubsetSize(ClassifiedTokens(db.tokens, d, v), RunTokens(db.tokens, d, v));
    forall i | i in db.tokens && db.tokens[i].docId == d ensures db.tokens[i].runVersion == v {
      assert TokenOk(db, db.tokens[i]);
    }
  }

  /** The completion test `newCount >= total` never overshoots: it fires exactly at equality. */
  lemma {:induction false} CompletionTestFiresAtEquality(run: Run, id: TokenId, result: Classification, now: Time)
    requires Valid(run) && id in Last(run).db.tokens && Last(run).db.tokens[id].status == TokenPending
    ensures var db := Last(run).db;
            var d, v := db.tokens[id].docId, db.tokens[id].runVersion;
            var db' := Apply(db, id, v, result, now).0;
            && d in db.docs && d in db'.docs
            && (db.docs[d].classifiedCount + 1 >= db.docs[d].totalTokens
                <==> db.docs[d].classifiedCount + 1 == db.docs[d].totalTokens)
            && (db'.docs[d].status == Completed <==> PendingTokens(db'.tokens, d, v) == {})
  {
    AlwaysInv(run);
    var db := Last(run).db;
    var d, v := db.tokens[id].docId, db.tokens[id].runVersion;
    var db' := Apply(db, id, v, result, now).0;
    ApplyCounts(db, id, v, result, now);
    assert DocRowOk(db, d);
    var all, done, left := RunTokens(db'.tokens, d, v), ClassifiedTokens(db'.tokens, d, v),
        PendingTokens(db'.tokens, d, v);
    SubsetSize(done, all);
    RunSplits(db'.tokens, d, v);
  }

  /******* Fencing *******/

  /** A handler of a superseded run, or one whose token is gone or done, changes no table. */
  lemma {:induction false} StaleHandlersChangeNothing(run: Run, e: Event)
    requires Valid(run) && Enabled(Last(run), e)
    ensures var s := Last(run);
            && (e.PersistDoc? && !Current(s.db, s.handlers[e.h].job.docId, s.handlers[e.h].phase.snap.runVersion) ==>
                  Next(s, e).db == s.db)
            && (e.ApplyToken? && !Current(s.db, s.handlers[e.h].job.docId, s.handlers[e.h].job.runVersion) ==>
                  s.handlers[e.h].job.tokenId !in s.db.tokens && Next(s, e).db == s.db)
  {
    AlwaysInv(run);
    var s := Last(run);
    if e.PersistDoc? || e.ApplyToken? {
      assert HandlerOk(s, s.handlers[e.h]);
      assert EntryOk(s.db, s.stream[s.handlers[e.h].msg]);
      if e.ApplyToken? && s.handlers[e.h].job.tokenId in s.db.tokens {
        assert TokenOk(s.db, s.db.tokens[s.handlers[e.h].job.tokenId]);
      }
    }
  }

  /** A persist that commits holds the current text, and never finds the document PENDING. */
  lemma {:induction false} CommittingPersistHoldsCurrentText(run: Run, h: HandlerId)
    requires Valid(run) && h in Last(run).handlers && Last(run).handlers[h].phase.Extracted?
    ensures var s := Last(run);
            var d, snap := s.handlers[h].job.docId, s.handlers[h].phase.snap;
            Current(s.db, d, snap.runVersion) ==> snap.text == s.db.docs[d].text && s.db.docs[d].status != Pending
  {
    AlwaysInv(run);
    assert HandlerOk(Last(run), Last(run).handlers[h]);
  }

  /******* How tables evolve along a run *******/

  lemma {:induction false} StepIsGood(s: State, e: Event)
    requires Inv(s) && Enabled(s, e) && !e.RelayCommit?
    ensures GoodTransition(s.db, Next(s, e).db)
  {
    match e
    case SubmitDoc(d, text, mode, row) => SubmitKeepsTables(s.db, d, text, mode, row);
    case ClaimDoc(h, now) => ClaimKeepsTables(s.db, s.handlers[h].job.docId, now);
    case PersistDoc(h, ids, rows, now) =>
      var p := s.handlers[h].phase;
      PersistKeepsTables(s.db, s.handlers[h].job.docId, p.snap.runVersion, p.entities, ids, rows, now);
    case ApplyToken(h, now) =>
      ApplyKeepsTables(s.db, s.handlers[h].job.tokenId, s.handlers[h].job.runVersion, s.handlers[h].phase.result, now);
    case _ => NoChangeIsGood(s.db);
  }

  lemma {:induction false} StepEvolves(s: State, e: Event)
    requires Inv(s) && Enabled(s, e)
    ensures Evolves(s.db, Next(s, e).db)
  {
    if e.RelayCommit? {
      EvolvesReflexive(s.db);
    } else {
      StepIsGood(s, e);
    }
  }

  lemma {:induction false} RunEvolves(run: Run, later: Run)
    requires Valid(run) && Valid(later) && Continues(run, later)
    ensures Evolves(Last(run).db, Last(later).db)
    decreases later
  {
    if run == later {
      AlwaysInv(run);
      EvolvesReflexive(Last(run).db);
    } else {
      AlwaysInv(later.before);
      RunEvolves(run, later.before);
      StepEvolves(Last(later.before), later.event);
      EvolvesTransitive(Last(run).db, Last(later.before).db, Last(later).db);
    }
  }

  /******* Exactly-once effect *******/

  ghost predicate Flips(a: Db, b: Db, id: TokenId) {
    id in a.tokens && id in b.tokens && a.tokens[id].status == TokenPending && b.tokens[id].status == TokenClassified
  }

  /** How often token `id` went from PENDING to CLASSIFIED along a run. */
  ghost function FlipCount(run: Run, id: TokenId): nat
    requires Valid(run)
  {
    if run.Empty? then 0 else
      FlipCount(run.before, id) + if Flips(Last(run.before).db, Last(run).db, id) then 1 else 0
  }

  lemma {:induction false} FlippedStaysSettled(run: Run, id: TokenId)
    requires Valid(run)
    ensures FlipCount(run, id) <= 1
    ensures FlipCount(run, id) == 1 ==>
              id in Last(run).db.usedTokens
              && (id in Last(run).db.tokens ==> Last(run).db.tokens[id].status == TokenClassified)
  {
    if run.Then? {
      FlippedStaysSettled(run.before, id);
      AlwaysInv(run.before);
      AlwaysInv(run);
      StepEvolves(Last(run.before), run.event);
      assert TokensEvolve(Last(run.before).db, Last(run).db);
    }
  }

  /** However often its job is published, delivered or processed, a token is classified at most once,
      and what is recorded then stays until the row is deleted by a full rerun. */
  lemma {:induction false} ExactlyOnceEffect(run: Run, later: Run, id: TokenId)
    requires Valid(run) && Valid(later) && Continues(run, later)
    ensures FlipCount(later, id) <= 1
    ensures id in Last(run).db.tokens && id in Last(later).db.tokens
            && Last(run).db.tokens[id].status == TokenClassified ==>
              Last(later).db.tokens[id] == Last(run).db.tokens[id]
  {
    FlippedStaysSettled(later, id);
    RunEvolves(run, later);
    AlwaysInv(run);
  }

  ghost function Flipped(a: Db, b: Db, d: DocId): set<TokenId> {
    set i | i in a.tokens && a.tokens[i].docId == d && Flips(a, b, i)
  }

  /** An event that starts a new run of `d`. */
  ghost predicate ResetsDoc(s: State, e: Event, d: DocId) {
    e.SubmitDoc? && e.d == d && Resets(s.db, d, e.mode)
  }

  lemma {:induction false} ApplyFlipsOne(db: Db, id: TokenId, v: int, result: Classification, now: Time, d: DocId)
    requires DbInv(db) && d in db.docs
    ensures var db' := Apply(db, id, v, result, now).0;
            && d in db'.docs
            && db'.docs[d].classifiedCount == db.docs[d].classifiedCount + |Flipped(db, db', d)|
            && |Flipped(db, db', d)| <= 1
  {
    var db' := Apply(db, id, v, result, now).0;
    if Classifiable(db, id, v) && db.tokens[id].docId == d {
      ApplyCounts(db, id, v, result, now);
      assert Flipped(db, db', d) == {id};
    } else {
      assert Flipped(db, db', d) == {};
    }
  }

  lemma {:induction false} PersistFlipsNone(db: Db, x: DocId, v: int, es: seq<Entity>, ids: seq<TokenId>,
                                            rows: seq<RowId>, now: Time, d: DocId)
    requires DbInv(db) && d in db.docs && |ids| == |es| && Fresh(ids, db.usedTokens)
    requires |rows| == |PersistJobs(db, x, v, es, ids)|
    ensures var db' := Persist(db, x, v, es, ids, rows, now).0;
            d in db'.docs && db'.docs[d].classifiedCount == db.docs[d].classifiedCount && Flipped(db, db', d) == {}
  {
    var db' := Persist(db, x, v, es, ids, rows, now).0;
    UpsertKeepsOthers(db, x, v, es, ids);
    assert forall i :: i in db.tokens ==> i in db'.tokens && db'.tokens[i] == db.tokens[i];
  }

  /** The counter moves exactly when a token is classified, by the number of tokens classified: at most one. */
  lemma {:induction false} CounterStep(s: State, e: Event, d: DocId)
    requires Inv(s) && Enabled(s, e) && d in s.db.docs && !ResetsDoc(s, e, d)
    ensures d in Next(s, e).db.docs
    ensures |Flipped(s.db, Next(s, e).db, d)| <= 1
    ensures Next(s, e).db.docs[d].classifiedCount == s.db.docs[d].classifiedCount + |Flipped(s.db, Next(s, e).db, d)|
    ensures Flipped(s.db, Next(s, e).db, d) != {} ==> e.ApplyToken? && s.db.docs[d].status == Classifying
  {
    var db' := Next(s, e).db;
    if e.ApplyToken? {
      var job := s.handlers[e.h].job;
      ApplyFlipsOne(s.db, job.tokenId, job.runVersion, s.handlers[e.h].phase.result, e.now, d);
      FlippedMeansClassifying(s.db, db', d);
    } else if e.PersistDoc? {
      var p := s.handlers[e.h].phase;
      PersistFlipsNone(s.db, s.handlers[e.h].job.docId, p.snap.runVersion, p.entities, e.ids, e.rows, e.now, d);
    } else {
      OtherwiseNothingCounted(s, e, d);
    }
  }

  lemma {:induction false} OtherwiseNothingCounted(s: State, e: Event, d: DocId)
    requires Enabled(s, e) && d in s.db.docs && !ResetsDoc(s, e, d) && !e.ApplyToken? && !e.PersistDoc?
    ensures d in Next(s, e).db.docs && Next(s, e).db.docs[d].classifiedCount == s.db.docs[d].classifiedCount
    ensures Flipped(s.db, Next(s, e).db, d) == {}
  {
    var db' := Next(s, e).db;
    if !Writes(e) { QuietKeepsDb(s, e); }
    assert forall i :: i in db'.tokens ==> i in s.db.tokens && db'.tokens[i] == s.db.tokens[i];
  }

  lemma {:induction false} FlippedMeansClassifying(a: Db, b: Db, d: DocId)
    requires DbInv(a) && d in a.docs
    ensures Flipped(a, b, d) != {} ==> a.docs[d].status == Classifying
  {
    if i :| i in Flipped(a, b, d) {
      assert TokenOk(a, a.tokens[i]) && DocRowOk(a, d);
      assert i in RunTokens(a.tokens, d, a.docs[d].runVersion)
             && i !in ClassifiedTokens(a.tokens, d, a.docs[d].runVersion);
    }
  }

  /** Tokens of `d` classified since its run began. */
  ghost function Tally(run: Run, d: DocId): nat
    requires Valid(run)
  {
    if run.Empty? || d !in Last(run.before).db.docs || ResetsDoc(Last(run.before), run.event, d) then 0
    else Tally(run.before, d) + |Flipped(Last(run.before).db, Last(run).db, d)|
  }

  lemma {:induction false} CounterIsTally(run: Run, d: DocId)
    requires Valid(run) && d in Last(run).db.docs
    ensures Last(run).db.docs[d].classifiedCount == Tally(run, d)
  {
    var s := Last(run.before);
    AlwaysInv(run.before);
    if d in s.db.docs && !ResetsDoc(s, run.event, d) {
      CounterIsTally(run.before, d);
      CounterStep(s, run.event, d);
    } else {
      NewRunIsFresh(s, run.event, d);
    }
  }

  /** A document appears, or starts a new run, only by a submit, and then with fresh counters. */
  lemma {:induction false} NewRunIsFresh(s: State, e: Event, d: DocId)
    requires Enabled(s, e) && d in Next(s, e).db.docs
    requires d !in s.db.docs || ResetsDoc(s, e, d)
    ensures e.SubmitDoc? && e.d == d
    ensures Next(s, e).db.docs[d] == if d in s.db.docs then ResetDoc(s.db.docs[d], e.text) else NewDocument(e.text)
  {
    if !Writes(e) { QuietKeepsDb(s, e); }
  }

  /******* Lifecycle *******/

  /** Committed full resubmits of `d`. */
  ghost function Resubmits(run: Run, d: DocId): nat
    requires Valid(run)
  {
    if run.Empty? then 0 else
      Resubmits(run.before, d) + if ResetsDoc(Last(run.before), run.event, d) then 1 else 0
  }

  /** The text of the insert or of the last committed full submit. */
  ghost function LastText(run: Run, d: DocId): string
    requires Valid(run)
  {
    if run.Empty? then "" else
      var s := Last(run.before);
      if run.event.SubmitDoc? && run.event.d == d && (d !in s.db.docs || run.event.mode == RerunFull)
      then run.event.text
      else LastText(run.before, d)
  }

  lemma {:induction false} VersionAndTextStep(s: State, e: Event, d: DocId)
    requires Enabled(s, e) && d in s.db.docs && !ResetsDoc(s, e, d)
    ensures d in Next(s, e).db.docs
    ensures Next(s, e).db.docs[d].runVersion == s.db.docs[d].runVersion
    ensures Next(s, e).db.docs[d].text == s.db.docs[d].text
  {
    if !Writes(e) {
      QuietKeepsDb(s, e);
    } else if e.ApplyToken? {
      var job := s.handlers[e.h].job;
      ApplyKeepsVersion(s.db, job.tokenId, job.runVersion, s.handlers[e.h].phase.result, e.now, d);
    } else if e.PersistDoc? {
      var p := s.handlers[e.h].phase;
      PersistKeepsVersion(s.db, s.handlers[e.h].job.docId, p.snap.runVersion, p.entities, e.ids, e.rows, e.now, d);
    }
  }

  lemma {:induction false} ApplyKeepsVersion(db: Db, id: TokenId, v: int, result: Classification, now: Time, d: DocId)
    requires d in db.docs
    ensures var db' := Apply(db, id, v, result, now).0;
            d in db'.docs && db'.docs[d].runVersion == db.docs[d].runVersion && db'.docs[d].text == db.docs[d].text
  {
  }

  lemma {:induction false} PersistKeepsVersion(db: Db, x: DocId, v: int, es: seq<Entity>, ids: seq<TokenId>,
                                               rows: seq<RowId>, now: Time, d: DocId)
    requires d in db.docs && |ids| == |es| && |rows| == |PersistJobs(db, x, v, es, ids)|
    ensures var db' := Persist(db, x, v, es, ids, rows, now).0;
            d in db'.docs && db'.docs[d].runVersion == db.docs[d].runVersion && db'.docs[d].text == db.docs[d].text
  {
  }

  lemma {:induction false} AbsentMeansNeverReset(run: Run, d: DocId)
    requires Valid(run) && d !in Last(run).db.docs
    ensures Resubmits(run, d) == 0
  {
    if run.Then? {
      AlwaysInv(run.before);
      StepEvolves(Last(run.before), run.event);
      AbsentMeansNeverReset(run.before, d);
    }
  }

  lemma {:induction false} VersionCountsResubmits(run: Run, d: DocId)
    requires Valid(run) && d in Last(run).db.docs
    ensures Last(run).db.docs[d].runVersion == 1 + Resubmits(run, d)
    ensures Last(run).db.docs[d].text == LastText(run, d)
  {
    var s := Last(run.before);
    AlwaysInv(run.before);
    if d in s.db.docs {
      VersionCountsResubmits(run.before, d);
      if ResetsDoc(s, run.event, d) { NewRunIsFresh(s, run.event, d); }
      else { VersionAndTextStep(s, run.event, d); }
    } else {
      AbsentMeansNeverReset(run.before, d);
      NewRunIsFresh(s, run.event, d);
    }
  }

  /** The status moves one event can cause within a run of the document. */
  predicate Moves(e: Event, a: DocStatus, b: DocStatus) {
    || a == b
    || (e.ClaimDoc? && a == Pending && b == Extracting)
    || (e.PersistDoc? && a == Extracting && (b == Classifying || b == Completed))
    || (e.ApplyToken? && a == Classifying && b == Completed)
    || (e.PersistDoc? && a == Completed && b == Classifying)  // a repeated persist
  }

  lemma {:induction false} StatusMoves(run: Run, e: Event, d: DocId)
    requires Valid(run) && Enabled(Last(run), e) && d in Last(run).db.docs
    requires !ResetsDoc(Last(run), e, d)
    ensures d in Next(Last(run), e).db.docs
    ensures Moves(e, Last(run).db.docs[d].status, Next(Last(run), e).db.docs[d].status)
  {
    AlwaysInv(run);
    var s := Last(run);
    assert DocRowOk(s.db, d);
    if e.PersistDoc? {
      PersistMoves(s, e, d);
    } else if e.ApplyToken? {
      ApplyMoves(s, e, d);
    } else {
      OtherMoves(s, e, d);
    }
  }

  lemma {:induction false} OtherMoves(s: State, e: Event, d: DocId)
    requires Enabled(s, e) && !e.PersistDoc? && !e.ApplyToken? && !ResetsDoc(s, e, d)
    requires d in s.db.docs && s.db.docs[d].status != Failed
    ensures d in Next(s, e).db.docs && Moves(e, s.db.docs[d].status, Next(s, e).db.docs[d].status)
  {
    if !Writes(e) { QuietKeepsDb(s, e); }
  }

  lemma {:induction false} ApplyMoves(s: State, e: Event, d: DocId)
    requires Inv(s) && Enabled(s, e) && e.ApplyToken? && d in s.db.docs
    ensures d in Next(s, e).db.docs && Moves(e, s.db.docs[d].status, Next(s, e).db.docs[d].status)
  {
    var job := s.handlers[e.h].job;
    assert Next(s, e).db == Apply(s.db, job.tokenId, job.runVersion, s.handlers[e.h].phase.result, e.now).0;
    if Classifiable(s.db, job.tokenId, job.runVersion) {
      ApplyCounts(s.db, job.tokenId, job.runVersion, s.handlers[e.h].phase.result, e.now);
    }
  }

  lemma {:induction false} PersistMoves(s: State, e: Event, d: DocId)
    requires Inv(s) && Enabled(s, e) && e.PersistDoc? && d in s.db.docs
    ensures d in Next(s, e).db.docs && Moves(e, s.db.docs[d].status, Next(s, e).db.docs[d].status)
  {
    var p, x := s.handlers[e.h].phase, s.handlers[e.h].job.docId;
    assert HandlerOk(s, s.handlers[e.h]);
    PersistStatus(s.db, x, p.snap.runVersion, p.entities, e.ids, e.rows, e.now, d);
  }

  lemma {:induction false} PersistStatus(db: Db, x: DocId, v: int, es: seq<Entity>, ids: seq<TokenId>,
                                         rows: seq<RowId>, now: Time, d: DocId)
    requires DbInv(db) && d in db.docs && |ids| == |es| && Fresh(ids, db.usedTokens)
    requires |rows| == |PersistJobs(db, x, v, es, ids)|
    ensures var db' := Persist(db, x, v, es, ids, rows, now).0;
            d in db'.docs && if x == d && Current(db, d, v)
                             then && PastExtraction(db'.docs[d])
                                  && (db.docs[d].status == Classifying ==> db'.docs[d].status == Classifying)
                             else db'.docs[d] == db.docs[d]
  {
    if x == d && Current(db, d, v) {
      UpsertKeepsOthers(db, d, v, es, ids);
      assert DocRowOk(db, d);
      SubsetSize(RunTokens(db.tokens, d, v), RunTokens(Upserted(db, d, v, es, ids), d, v));
    }
  }

  /******* The relay publishes at least once *******/

  ghost predicate PublishedAs(s: State, row: RowId, job: Job) {
    exists m :: m in s.stream && s.stream[m].origin == row && s.stream[m].job == job
  }

  ghost predicate Kept(s: State, row: RowId, job: Job) {
    (row in s.db.outbox && s.db.outbox[row] == job) || PublishedAs(s, row, job)
  }

  lemma {:induction false} EntriesStay(s: State, e: Event, m: MsgId)
    requires Enabled(s, e) && m in s.stream
    ensures m in Next(s, e).stream
    ensures Next(s, e).stream[m].origin == s.stream[m].origin && Next(s, e).stream[m].job == s.stream[m].job
  {
  }

  lemma {:induction false} StepKeepsRow(s: State, e: Event, row: RowId, job: Job)
    requires Inv(s) && Enabled(s, e) && Kept(s, row, job)
    ensures Kept(Next(s, e), row, job)
  {
    var s' := Next(s, e);
    if PublishedAs(s, row, job) {
      var m :| m in s.stream && s.stream[m].origin == row && s.stream[m].job == job;
      EntriesStay(s, e, m);
    } else if e.RelayCommit? {
      CommitKeepsRow(s, e.r, row, job);
    } else {
      StepIsGood(s, e);
    }
  }

  lemma {:induction false} CommitKeepsRow(s: State, r: RelayId, row: RowId, job: Job)
    requires Inv(s) && Enabled(s, RelayCommit(r)) && row in s.db.outbox && s.db.outbox[row] == job
    ensures Kept(Next(s, RelayCommit(r)), row, job)
  {
    var tx := s.relays[r];
    assert RelayOk(s, tx);
    if row in tx.rows {
      var k :| 0 <= k < |tx.rows| && tx.rows[k] == row;
      assert Published(s, tx.rows[k]);
      var m :| m in s.stream && s.stream[m].origin == row;
      assert EntryOk(s.db, s.stream[m]);
      assert PublishedAs(Next(s, RelayCommit(r)), row, job);
    }
  }

  /** A committed outbox row is at all later times still in the outbox or already published, job unchanged. */
  lemma {:induction false} RelayAtLeastOnce(run: Run, later: Run, row: RowId)
    requires Valid(run) && Valid(later) && Continues(run, later) && row in Last(run).db.outbox
    ensures Kept(Last(later), row, Last(run).db.outbox[row])
    decreases later
  {
    if run != later {
      RelayAtLeastOnce(run, later.before, row);
      AlwaysInv(later.before);
      StepKeepsRow(Last(later.before), later.event, row, Last(run).db.outbox[row]);
    }
  }

  lemma {:induction false} NoRowClaimedTwice(run: Run, q: RelayId, r: RelayId, row: RowId)
    requires Valid(run) && q in Last(run).relays && r in Last(run).relays
    requires row in Last(run).relays[q].rows && row in Last(run).relays[r].rows
    ensures q == r && row in Last(run).db.outbox
  {
    AlwaysInv(run);
    assert RelayOk(Last(run), Last(run).relays[q]);
  }

  /******* What a submit does to the work already done *******/

  /** A partial submit keeps every row and only resumes; a full one discards the document's tokens and nothing else;
      exactly the accepted ones enqueue, one job stamped with the version that the document then has. */
  lemma {:induction false} SubmitKeepsOrDiscardsWork(db: Db, d: DocId, text: string, mode: RerunMode, row: RowId)
    ensures var (db', r) := Submit(db, d, text, mode, row);
            && d in db'.docs && r.document == db'.docs[d]
            && (forall x :: x in db.docs && x != d ==> x in db'.docs && db'.docs[x] == db.docs[x])
            && (forall i :: i in db.tokens && db.tokens[i].docId != d ==> i in db'.tokens)
            && (forall i :: i in db'.tokens ==> i in db.tokens && db'.tokens[i] == db.tokens[i])
            && (Resets(db, d, mode) ==> db'.docs[d].runVersion == db.docs[d].runVersion + 1
                                        && forall i :: i in db'.tokens ==> db'.tokens[i].docId != d)
            && (d in db.docs && mode == RerunPartial ==>
                  && db'.tokens == db.tokens
                  && db'.docs[d] == if db.docs[d].status == Failed then db.docs[d].(status := Pending) else db.docs[d])
            && (r.accepted <==> !(d in db.docs && mode == RerunPartial && db.docs[d].status == Completed))
            && (r.fullRerun <==> Resets(db, d, mode))
            && db'.outbox == if r.accepted then db.outbox[row := ExtractJob(d, db'.docs[d].runVersion)] else db.outbox
  {
    var db' := Submit(db, d, text, mode, row).0;
    if Resets(db, d, mode) {
      assert db'.tokens == WithoutDoc(db.tokens, d);
    }
  }
}
