/** The stage stamps: what holds of them in every run, which events put them out of order, and that no event does
    when each run is persisted at most once. */
module Stamps {
  import opened Domain
  import opened Collections
  import opened Store
  import opened TableInvariant
  import opened Protocol
  import opened Safety
  import opened Runs
  import opened Completion

  predicate NotAfter(a: Option<Time>, b: Option<Time>) {
    a.Some? && b.Some? ==> a.value <= b.value
  }

  /** extraction_started <= extraction_completed = classification_started <= classification_completed, whenever set. */
  predicate InOrder(doc: Document) {
    && NotAfter(doc.extractionStarted, doc.extractionCompleted)
    && doc.extractionCompleted == doc.classificationStarted
    && NotAfter(doc.classificationStarted, doc.classificationCompleted)
  }

  predicate AllSet(doc: Document) {
    && doc.extractionStarted.Some? && doc.extractionCompleted.Some?
    && doc.classificationStarted.Some? && doc.classificationCompleted.Some?
  }

  /******* The start stamp, in every run *******/

  predicate StartOk(doc: Document, clock: Time) {
    && (doc.status == Pending ==> doc.extractionStarted == None)
    && (doc.status != Pending ==> doc.extractionStarted.Some? && doc.extractionStarted.value <= clock)
  }

  /** A handler that holds a current snapshot took it after the stamped start. */
  ghost predicate HolderOk(db: Db, h: Handler) {
    (h.phase.Claimed? || h.phase.Extracted?) && Current(db, h.job.docId, h.phase.snap.runVersion) ==>
      db.docs[h.job.docId].extractionStarted.Some? && db.docs[h.job.docId].extractionStarted.value <= h.since
  }

  ghost predicate StartsOk(s: State) {
    && (forall d :: d in s.db.docs ==> StartOk(s.db.docs[d], s.clock))
    && (forall h :: h in s.handlers ==> HolderOk(s.db, s.handlers[h]))
  }

  /******* What one event writes to a document row *******/

  /** The total that a persist counts. */
  ghost function TotalAfter(db: Db, d: DocId, v: int, es: seq<Entity>, ids: seq<TokenId>): nat
    requires |ids| == |es|
  {
    |RunTokens(Upserted(db, d, v, es, ids), d, v)|
  }

  lemma {:induction false} ClaimWrites(s: State, e: Event, d: DocId)
    requires Enabled(s, e) && e.ClaimDoc? && d in s.db.docs
    ensures var doc, db' := s.db.docs[d], Next(s, e).db;
            d in db'.docs && db'.docs[d] == if s.handlers[e.h].job.docId == d && doc.status == Pending
                                            then doc.(status := Extracting, extractionStarted := Some(e.now)) else doc
  {
  }

  lemma {:induction false} PersistWrites(s: State, e: Event, d: DocId)
    requires Enabled(s, e) && e.PersistDoc? && d in s.db.docs
    ensures var p, db' := s.handlers[e.h].phase, Next(s, e).db;
            d in db'.docs && db'.docs[d] ==
              if Persists(s, e, d)
              then Advanced(s.db.docs[d], TotalAfter(s.db, d, p.snap.runVersion, p.entities, e.ids), e.now)
              else s.db.docs[d]
  {
  }

  lemma {:induction false} ApplyWrites(s: State, e: Event, d: DocId)
    requires Inv(s) && Enabled(s, e) && e.ApplyToken? && d in s.db.docs
    ensures var job, db' := s.handlers[e.h].job, Next(s, e).db;
            d in db'.docs && db'.docs[d] ==
              if Classifiable(s.db, job.tokenId, job.runVersion) && s.db.tokens[job.tokenId].docId == d
              then CountedOne(s.db.docs[d], e.now) else s.db.docs[d]
  {
    var job := s.handlers[e.h].job;
    assert Next(s, e).db == Apply(s.db, job.tokenId, job.runVersion, s.handlers[e.h].phase.result, e.now).0;
    assert job.tokenId in s.db.tokens ==> TokenOk(s.db, s.db.tokens[job.tokenId]);
  }

  lemma {:induction false} OthersWriteNothing(s: State, e: Event, d: DocId)
    requires Enabled(s, e) && !e.ClaimDoc? && !e.PersistDoc? && !e.ApplyToken? && !ResetsDoc(s, e, d)
    requires d in s.db.docs && s.db.docs[d].status != Failed
    ensures d in Next(s, e).db.docs && Next(s, e).db.docs[d] == s.db.docs[d]
  {
    if !Writes(e) { QuietKeepsDb(s, e); }
  }

  lemma {:induction false} DocStartStep(s: State, e: Event, d: DocId)
    requires Inv(s) && StartsOk(s) && Enabled(s, e) && d in Next(s, e).db.docs
    ensures StartOk(Next(s, e).db.docs[d], Next(s, e).clock)
    ensures d in s.db.docs && s.db.docs[d].status != Pending && !ResetsDoc(s, e, d) ==>
              Next(s, e).db.docs[d].extractionStarted == s.db.docs[d].extractionStarted
  {
    if d !in s.db.docs || ResetsDoc(s, e, d) {
      NewRunIsFresh(s, e, d);
    } else {
      assert StartOk(s.db.docs[d], s.clock) && DocRowOk(s.db, d);
      if e.ClaimDoc? {
        ClaimWrites(s, e, d);
      } else if e.PersistDoc? {
        PersistWrites(s, e, d);
        if Persists(s, e, d) { PersistEffect(s, e, d); }
      } else if e.ApplyToken? {
        ApplyWrites(s, e, d);
        ApplyMoves(s, e, d);
      } else {
        OthersWriteNothing(s, e, d);
      }
    }
  }

  lemma {:induction false} HolderStep(s: State, e: Event, h: HandlerId)
    requires Inv(s) && StartsOk(s) && Enabled(s, e) && h in Next(s, e).handlers
    ensures HolderOk(Next(s, e).db, Next(s, e).handlers[h])
  {
    var s' := Next(s, e);
    var x := s'.handlers[h];
    if (x.phase.Claimed? || x.phase.Extracted?) && Current(s'.db, x.job.docId, x.phase.snap.runVersion) {
      StepKeepsInv(s, e);
      assert HandlerOk(s', x);
      HolderWasThere(s, e, h);
      DocStartStep(s, e, x.job.docId);
      if e.ClaimDoc? && e.h == h {
        assert StartOk(s'.db.docs[x.job.docId], s'.clock);
      } else {
        assert HolderOk(s.db, s.handlers[h]) && HandlerOk(s, s.handlers[h]);
        HeldRunNotReset(s, e, x.job.docId, x.phase.snap.runVersion);
      }
    }
  }

  /** A handler that holds a snapshot after an event held it before, or has just claimed. */
  lemma {:induction false} HolderWasThere(s: State, e: Event, h: HandlerId)
    requires Enabled(s, e) && h in Next(s, e).handlers
    requires Next(s, e).handlers[h].phase.Claimed? || Next(s, e).handlers[h].phase.Extracted?
    ensures h in s.handlers && Next(s, e).handlers[h].job == s.handlers[h].job
    ensures s.handlers[h].since <= Next(s, e).handlers[h].since || Next(s, e).handlers[h].since == s.clock
    ensures (e.ClaimDoc? && e.h == h && Next(s, e).handlers[h].since == s.clock && Next(s, e).clock == s.clock) ||
            ((s.handlers[h].phase.Claimed? || s.handlers[h].phase.Extracted?)
             && Next(s, e).handlers[h].phase.snap == s.handlers[h].phase.snap)
  {
  }

  lemma {:induction false} HeldRunNotReset(s: State, e: Event, d: DocId, v: int)
    requires Inv(s) && Enabled(s, e) && d in s.db.docs && v <= s.db.docs[d].runVersion && Current(Next(s, e).db, d, v)
    ensures !ResetsDoc(s, e, d) && Current(s.db, d, v)
  {
    if ResetsDoc(s, e, d) { NewRunIsFresh(s, e, d); } else { VersionAndTextStep(s, e, d); }
  }

  lemma {:induction false} AlwaysStarted(run: Run)
    requires Valid(run)
    ensures StartsOk(Last(run))
  {
    if run.Then? {
      AlwaysStarted(run.before);
      AlwaysInv(run.before);
      var s, e := Last(run.before), run.event;
      var s' := Next(s, e);
      forall d | d in s'.db.docs ensures StartOk(s'.db.docs[d], s'.clock) { DocStartStep(s, e, d); }
      forall h | h in s'.handlers ensures HolderOk(s'.db, s'.handlers[h]) { HolderStep(s, e, h); }
    }
  }

  /******* Marks that hold in every run *******/

  /** The boundary between the stages is stamped once extraction is over, and never before its start. */
  predicate Marked(doc: Document) {
    && doc.extractionCompleted == doc.classificationStarted
    && (doc.extractionCompleted.Some? <==> PastExtraction(doc))
    && NotAfter(doc.extractionStarted, doc.extractionCompleted)
    && (doc.status == Completed ==> doc.classificationCompleted.Some?)
  }

  lemma {:induction false} PersistStartsLate(s: State, e: Event, d: DocId)
    requires Inv(s) && StartsOk(s) && Enabled(s, e) && Persists(s, e, d)
    ensures NotAfter(s.db.docs[d].extractionStarted, Some(e.now))
  {
    assert HandlerOk(s, s.handlers[e.h]) && HolderOk(s.db, s.handlers[e.h]);
  }

  lemma {:induction false} PersistMarks(s: State, e: Event, d: DocId)
    requires Inv(s) && StartsOk(s) && Enabled(s, e) && e.PersistDoc? && d in s.db.docs && Marked(s.db.docs[d])
    ensures d in Next(s, e).db.docs && Marked(Next(s, e).db.docs[d])
  {
    PersistWrites(s, e, d);
    if Persists(s, e, d) { PersistStartsLate(s, e, d); }
  }

  lemma {:induction false} ApplyMarks(s: State, e: Event, d: DocId)
    requires Inv(s) && Enabled(s, e) && e.ApplyToken? && d in s.db.docs && Marked(s.db.docs[d])
    ensures d in Next(s, e).db.docs && Marked(Next(s, e).db.docs[d])
  {
    var job := s.handlers[e.h].job;
    ApplyWrites(s, e, d);
    if Classifiable(s.db, job.tokenId, job.runVersion) && s.db.tokens[job.tokenId].docId == d {
      TokenMeansPastExtraction(s.db, job.tokenId);
    }
  }

  lemma {:induction false} MarkStep(s: State, e: Event, d: DocId)
    requires Inv(s) && StartsOk(s) && Enabled(s, e) && d in Next(s, e).db.docs
    requires d in s.db.docs ==> Marked(s.db.docs[d])
    ensures Marked(Next(s, e).db.docs[d])
  {
    if d !in s.db.docs || ResetsDoc(s, e, d) {
      NewRunIsFresh(s, e, d);
    } else if e.ClaimDoc? {
      ClaimWrites(s, e, d);
    } else if e.PersistDoc? {
      PersistMarks(s, e, d);
    } else if e.ApplyToken? {
      ApplyMarks(s, e, d);
    } else {
      assert DocRowOk(s.db, d);
      OthersWriteNothing(s, e, d);
    }
  }

  lemma {:induction false} AlwaysMarked(run: Run, d: DocId)
    requires Valid(run) && d in Last(run).db.docs
    ensures Marked(Last(run).db.docs[d])
  {
    if run.Then? {
      if d in Last(run.before).db.docs { AlwaysMarked(run.before, d); }
      AlwaysInv(run.before);
      AlwaysStarted(run.before);
      MarkStep(Last(run.before), run.event, d);
    }
  }

  /** In every run, however often it is persisted: a COMPLETED document has all four stamps, classification starts
      when extraction completes, and extraction never takes a negative time. */
  lemma {:induction false} StampsInEveryRun(run: Run, d: DocId)
    requires Valid(run) && d in Last(run).db.docs
    ensures Last(run).db.docs[d].status == Completed ==> AllSet(Last(run).db.docs[d])
    ensures Last(run).db.docs[d].extractionCompleted == Last(run).db.docs[d].classificationStarted
    ensures NotAfter(Last(run).db.docs[d].extractionStarted, Last(run).db.docs[d].extractionCompleted)
    ensures Durations(Last(run).db.docs[d]).0 >= 0
  {
    AlwaysMarked(run, d);
    AlwaysStarted(run);
    assert StartOk(Last(run).db.docs[d], Last(run).clock);
  }

  /** What the two durations mean in every run: nothing before their stage is over, then the whole time of the stage;
      a COMPLETED document's add up to the time from its claim to its completion. */
  lemma {:induction false} DurationsAreStageTimes(run: Run, d: DocId)
    requires Valid(run) && d in Last(run).db.docs
    ensures var doc := Last(run).db.docs[d];
            && doc.extractionStarted.Some? == (doc.status != Pending)
            && (!PastExtraction(doc) ==> Durations(doc) == (0, 0))
            && (PastExtraction(doc) ==>
                  doc.extractionCompleted == Some(doc.extractionStarted.value + Durations(doc).0))
            && (PastExtraction(doc) && doc.classificationCompleted == None ==> Durations(doc).1 == 0)
            && (doc.status == Completed ==>
                  doc.classificationCompleted ==
                    Some(doc.extractionStarted.value + Durations(doc).0 + Durations(doc).1))
  {
    AlwaysMarked(run, d);
    AlwaysStarted(run);
    AlwaysInv(run);
    assert StartOk(Last(run).db.docs[d], Last(run).clock) && DocRowOk(Last(run).db, d);
  }

  /******* Which events put the stamps out of order *******/

  /** An apply that classifies the last pending token of `d`. */
  ghost predicate Completes(s: State, e: Event, d: DocId)
    requires Enabled(s, e)
  {
    && e.ApplyToken? && Classifiable(s.db, s.handlers[e.h].job.tokenId, s.handlers[e.h].job.runVersion)
    && s.db.tokens[s.handlers[e.h].job.tokenId].docId == d
    && d in s.db.docs && s.db.docs[d].classifiedCount + 1 == s.db.docs[d].totalTokens
  }

  /** A persist of a non-empty run in a transaction that began after the stamped completion, or a completing apply
      in a transaction that began before the stamped start of classification. */
  ghost predicate StampsBackwards(s: State, e: Event, d: DocId)
    requires Enabled(s, e) && d in s.db.docs
  {
    || (&& Persists(s, e, d)
        && (s.db.docs[d].totalTokens > 0 || s.handlers[e.h].phase.entities != [])
        && !NotAfter(Some(e.now), s.db.docs[d].classificationCompleted))
    || (Completes(s, e, d) && !NotAfter(s.db.docs[d].classificationStarted, Some(e.now)))
  }

  lemma {:induction false} AdvancedInOrder(doc: Document, total: int, now: Time)
    requires InOrder(doc) && NotAfter(doc.extractionStarted, Some(now))
    ensures InOrder(Advanced(doc, total, now)) <==> total == 0 || NotAfter(Some(now), doc.classificationCompleted)
  {
  }

  lemma {:induction false} PersistedEmpty(s: State, e: Event, d: DocId)
    requires Inv(s) && Enabled(s, e) && Persists(s, e, d)
    ensures var p := s.handlers[e.h].phase;
            TotalAfter(s.db, d, p.snap.runVersion, p.entities, e.ids) == 0 <==>
              s.db.docs[d].totalTokens == 0 && p.entities == []
    ensures s.db.docs[d].totalTokens >= 0
  {
    var p := s.handlers[e.h].phase;
    assert DocRowOk(s.db, d);
    UpsertedIsEmpty(s.db, d, p.snap.runVersion, p.entities, e.ids);
  }

  lemma {:induction false} PersistOrder(s: State, e: Event, d: DocId)
    requires Inv(s) && StartsOk(s) && Enabled(s, e) && e.PersistDoc? && d in s.db.docs && InOrder(s.db.docs[d])
    ensures d in Next(s, e).db.docs
    ensures InOrder(Next(s, e).db.docs[d]) <==> !StampsBackwards(s, e, d)
  {
    PersistWrites(s, e, d);
    if Persists(s, e, d) {
      PersistStartsLate(s, e, d);
      PersistedEmpty(s, e, d);
      var p := s.handlers[e.h].phase;
      AdvancedInOrder(s.db.docs[d], TotalAfter(s.db, d, p.snap.runVersion, p.entities, e.ids), e.now);
    }
  }

  lemma {:induction false} ApplyOrder(s: State, e: Event, d: DocId)
    requires Inv(s) && Enabled(s, e) && e.ApplyToken? && d in s.db.docs && InOrder(s.db.docs[d])
    ensures d in Next(s, e).db.docs
    ensures InOrder(Next(s, e).db.docs[d]) <==> !StampsBackwards(s, e, d)
  {
    var job := s.handlers[e.h].job;
    ApplyWrites(s, e, d);
    if Classifiable(s.db, job.tokenId, job.runVersion) && s.db.tokens[job.tokenId].docId == d {
      CountBelowTotal(s.db, job.tokenId);
    }
  }

  lemma {:induction false} CountBelowTotal(db: Db, id: TokenId)
    requires DbInv(db) && id in db.tokens && db.tokens[id].status == TokenPending
    ensures var d := db.tokens[id].docId; d in db.docs && db.docs[d].classifiedCount < db.docs[d].totalTokens
  {
    var d := db.tokens[id].docId;
    assert TokenOk(db, db.tokens[id]) && DocRowOk(db, d);
    var v := db.docs[d].runVersion;
    assert id in RunTokens(db.tokens, d, v) && id !in ClassifiedTokens(db.tokens, d, v);
    SubsetSize(ClassifiedTokens(db.tokens, d, v), RunTokens(db.tokens, d, v));
  }

  lemma {:induction false} OtherOrder(s: State, e: Event, d: DocId)
    requires Enabled(s, e) && !e.PersistDoc? && !e.ApplyToken? && d in s.db.docs && s.db.docs[d].status != Failed
    requires InOrder(s.db.docs[d]) && Marked(s.db.docs[d])
    ensures d in Next(s, e).db.docs && InOrder(Next(s, e).db.docs[d])
  {
    if ResetsDoc(s, e, d) {
      assert d in Next(s, e).db.docs;
      NewRunIsFresh(s, e, d);
    } else if e.ClaimDoc? {
      ClaimWrites(s, e, d);
    } else {
      OthersWriteNothing(s, e, d);
    }
  }

  lemma {:induction false} OrderStep(s: State, e: Event, d: DocId)
    requires Inv(s) && StartsOk(s) && Enabled(s, e) && d in s.db.docs && InOrder(s.db.docs[d]) && Marked(s.db.docs[d])
    ensures d in Next(s, e).db.docs
    ensures InOrder(Next(s, e).db.docs[d]) <==> !StampsBackwards(s, e, d)
  {
    if e.PersistDoc? {
      PersistOrder(s, e, d);
    } else if e.ApplyToken? {
      ApplyOrder(s, e, d);
    } else {
      assert DocRowOk(s.db, d);
      OtherOrder(s, e, d);
    }
  }

  /** Exactly which events put the stamps of a document out of order, over all events in all reachable states. */
  lemma {:induction false} OrderLostExactlyWhen(run: Run, e: Event, d: DocId)
    requires Valid(run) && Enabled(Last(run), e) && d in Last(run).db.docs && InOrder(Last(run).db.docs[d])
    ensures d in Next(Last(run), e).db.docs
    ensures InOrder(Next(Last(run), e).db.docs[d]) <==> !StampsBackwards(Last(run), e, d)
  {
    AlwaysInv(run);
    AlwaysStarted(run);
    AlwaysMarked(run, d);
    OrderStep(Last(run), e, d);
  }

  /******* All four stamps, when no run is persisted twice *******/

  predicate StampsOk(doc: Document, clock: Time) {
    && InOrder(doc)
    && (doc.extractionCompleted.Some? <==> PastExtraction(doc))
    && (doc.classificationCompleted.Some? <==> doc.status == Completed)
    && (doc.extractionCompleted.Some? ==> doc.extractionCompleted.value <= clock)
  }

  /** A handler that has seen its token saw it after the classification stage began. */
  ghost predicate SeerOk(db: Db, h: Handler) {
    && (h.phase.Checked? || h.phase.Scored?) && h.job.ClassifyJob? && h.job.tokenId in db.tokens
    && db.tokens[h.job.tokenId].docId in db.docs ==>
      NotAfter(db.docs[db.tokens[h.job.tokenId].docId].classificationStarted, Some(h.since))
  }

  ghost predicate StampInv(s: State) {
    && (forall d :: d in s.db.docs ==> StampsOk(s.db.docs[d], s.clock))
    && (forall h :: h in s.handlers ==> SeerOk(s.db, s.handlers[h]))
  }

  /** No event persists a document that is past extraction. */
  ghost predicate NoRepeat(s: State, e: Event)
    requires Enabled(s, e)
  {
    forall d :: Persists(s, e, d) ==> s.db.docs[d].status == Extracting
  }

  lemma {:induction false} PersistStamps(s: State, e: Event, d: DocId)
    requires Inv(s) && StartsOk(s) && StampInv(s) && Enabled(s, e) && Persists(s, e, d)
             && s.db.docs[d].status == Extracting
    ensures d in Next(s, e).db.docs && StampsOk(Next(s, e).db.docs[d], s.clock)
  {
    assert HandlerOk(s, s.handlers[e.h]) && HolderOk(s.db, s.handlers[e.h]);
    assert StampsOk(s.db.docs[d], s.clock) && StartOk(s.db.docs[d], s.clock);
    PersistWrites(s, e, d);
  }

  lemma {:induction false} ApplyStamps(s: State, e: Event, d: DocId)
    requires Inv(s) && StampInv(s) && Enabled(s, e) && e.ApplyToken? && d in s.db.docs
    ensures d in Next(s, e).db.docs && StampsOk(Next(s, e).db.docs[d], s.clock)
  {
    var job := s.handlers[e.h].job;
    ApplyWrites(s, e, d);
    assert StampsOk(s.db.docs[d], s.clock);
    if Classifiable(s.db, job.tokenId, job.runVersion) && s.db.tokens[job.tokenId].docId == d {
      assert SeerOk(s.db, s.handlers[e.h]);
      ApplyCounts(s.db, job.tokenId, job.runVersion, s.handlers[e.h].phase.result, e.now);
    }
  }

  lemma {:induction false} DocStampStep(s: State, e: Event, d: DocId)
    requires Inv(s) && StartsOk(s) && StampInv(s) && Enabled(s, e) && NoRepeat(s, e) && d in Next(s, e).db.docs
    ensures StampsOk(Next(s, e).db.docs[d], Next(s, e).clock)
  {
    if d !in s.db.docs || ResetsDoc(s, e, d) {
      NewRunIsFresh(s, e, d);
    } else {
      assert StampsOk(s.db.docs[d], s.clock) && StartOk(s.db.docs[d], s.clock) && DocRowOk(s.db, d);
      if e.ClaimDoc? {
        ClaimWrites(s, e, d);
      } else if e.PersistDoc? {
        if Persists(s, e, d) { PersistStamps(s, e, d); } else { PersistWrites(s, e, d); }
      } else if e.ApplyToken? {
        ApplyStamps(s, e, d);
      } else {
        OthersWriteNothing(s, e, d);
      }
    }
  }

  /** A token already known to a handler keeps its document's classification start. */
  lemma {:induction false} ClassificationStartKept(s: State, e: Event, i: TokenId)
    requires Inv(s) && Enabled(s, e) && NoRepeat(s, e) && i in s.db.usedTokens && i in Next(s, e).db.tokens
    ensures i in s.db.tokens && Next(s, e).db.tokens[i].docId == s.db.tokens[i].docId
    ensures var d := s.db.tokens[i].docId;
            d in s.db.docs && d in Next(s, e).db.docs &&
            Next(s, e).db.docs[d].classificationStarted == s.db.docs[d].classificationStarted
  {
    StepEvolves(s, e);
    StepKeepsInv(s, e);
    assert TokensEvolve(s.db, Next(s, e).db);
    assert i in s.db.tokens && TokenEvolves(s.db.tokens[i], Next(s, e).db.tokens[i]);
    assert TokenOk(s.db, s.db.tokens[i]) && TokenOk(Next(s, e).db, Next(s, e).db.tokens[i]);
    var d := s.db.tokens[i].docId;
    HeldRunNotReset(s, e, d, s.db.tokens[i].runVersion);
    TokenMeansPastExtraction(s.db, i);
    StartOfClassificationStep(s, e, d);
  }

  lemma {:induction false} TokenMeansPastExtraction(db: Db, i: TokenId)
    requires DbInv(db) && i in db.tokens
    ensures db.tokens[i].docId in db.docs && PastExtraction(db.docs[db.tokens[i].docId])
  {
    var d := db.tokens[i].docId;
    assert TokenOk(db, db.tokens[i]) && DocRowOk(db, d);
    assert i in RunTokens(db.tokens, d, db.docs[d].runVersion);
  }

  lemma {:induction false} StartOfClassificationStep(s: State, e: Event, d: DocId)
    requires Inv(s) && Enabled(s, e) && NoRepeat(s, e) && d in s.db.docs && PastExtraction(s.db.docs[d])
             && !ResetsDoc(s, e, d)
    ensures d in Next(s, e).db.docs && Next(s, e).db.docs[d].classificationStarted == s.db.docs[d].classificationStarted
  {
    assert DocRowOk(s.db, d);
    if e.ClaimDoc? {
      ClaimWrites(s, e, d);
    } else if e.PersistDoc? {
      PersistWrites(s, e, d);
    } else if e.ApplyToken? {
      ApplyWrites(s, e, d);
    } else {
      OthersWriteNothing(s, e, d);
    }
  }

  lemma {:induction false} SeerStep(s: State, e: Event, h: HandlerId)
    requires Inv(s) && StampInv(s) && Enabled(s, e) && NoRepeat(s, e) && h in Next(s, e).handlers
    ensures SeerOk(Next(s, e).db, Next(s, e).handlers[h])
  {
    var s' := Next(s, e);
    var x := s'.handlers[h];
    if (x.phase.Checked? || x.phase.Scored?) && x.job.ClassifyJob? && x.job.tokenId in s'.db.tokens {
      SeerWasThere(s, e, h);
      assert HandlerOk(s, s.handlers[h]) && EntryOk(s.db, s.stream[s.handlers[h].msg]);
      ClassificationStartKept(s, e, x.job.tokenId);
      assert StampsOk(s.db.docs[s.db.tokens[x.job.tokenId].docId], s.clock);
      assert SeerOk(s.db, s.handlers[h]);
    }
  }

  lemma {:induction false} SeerWasThere(s: State, e: Event, h: HandlerId)
    requires Enabled(s, e) && h in Next(s, e).handlers
    requires Next(s, e).handlers[h].phase.Checked? || Next(s, e).handlers[h].phase.Scored?
    ensures h in s.handlers && Next(s, e).handlers[h].job == s.handlers[h].job
    ensures Next(s, e).handlers[h].since == s.clock ||
            ((s.handlers[h].phase.Checked? || s.handlers[h].phase.Scored?)
             && Next(s, e).handlers[h].since == s.handlers[h].since)
  {
  }

  lemma {:induction false} AlwaysStamped(run: Run)
    requires Valid(run) && PersistsOnlyExtracting(run)
    ensures StampInv(Last(run))
  {
    if run.Then? {
      AlwaysStamped(run.before);
      AlwaysStarted(run.before);
      AlwaysInv(run.before);
      var s, e := Last(run.before), run.event;
      var s' := Next(s, e);
      forall d | d in s'.db.docs ensures StampsOk(s'.db.docs[d], s'.clock) { DocStampStep(s, e, d); }
      forall h | h in s'.handlers ensures SeerOk(s'.db, s'.handlers[h]) { SeerStep(s, e, h); }
    }
  }

  /** When no run is persisted twice the order holds throughout, so classification takes no negative time either. */
  lemma {:induction false} StampsInOrderIfPersistedOnce(run: Run, d: DocId)
    requires Valid(run) && PersistedAtMostOnce(run) && d in Last(run).db.docs
    ensures InOrder(Last(run).db.docs[d])
    ensures Durations(Last(run).db.docs[d]).0 >= 0 && Durations(Last(run).db.docs[d]).1 >= 0
  {
    OnceIffExtracting(run);
    AlwaysStamped(run);
    AlwaysStarted(run);
    assert StampsOk(Last(run).db.docs[d], Last(run).clock) && StartOk(Last(run).db.docs[d], Last(run).clock);
  }
}
