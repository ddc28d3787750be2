/** When a document is COMPLETED, and exactly when the pipeline fails to keep it so.
    persist checks the run version but not the status, so two handlers of one run can both persist;
    the later one can move a COMPLETED document back to CLASSIFYING with nothing pending and nothing enqueued. */
module Completion {
  import opened Domain
  import opened Collections
  import opened Store
  import opened TableInvariant
  import opened Protocol
  import opened Safety
  import opened Runs
  import opened Determinism

  lemma {:induction false} CompletedMeansAllClassified(run: Run, d: DocId)
    requires Valid(run) && d in Last(run).db.docs && Last(run).db.docs[d].status == Completed
    ensures var db := Last(run).db;
            && PendingTokens(db.tokens, d, db.docs[d].runVersion) == {}
            && db.docs[d].classifiedCount == db.docs[d].totalTokens
  {
    AlwaysInv(run);
    var db := Last(run).db;
    var v := db.docs[d].runVersion;
    assert DocRowOk(db, d);
    RunSplits(db.tokens, d, v);
  }

  /******* Repeated persists *******/

  /** The event is a persist of document `d` that passes the version fence. */
  ghost predicate Persists(s: State, e: Event, d: DocId)
    requires Enabled(s, e)
  {
    e.PersistDoc? && s.handlers[e.h].job.docId == d && Current(s.db, d, s.handlers[e.h].phase.snap.runVersion)
  }

  ghost function PersistCount(run: Run, d: DocId, v: int): nat
    requires Valid(run)
  {
    if run.Empty? then 0 else
      var s := Last(run.before);
      PersistCount(run.before, d, v) + if Persists(s, run.event, d) && s.db.docs[d].runVersion == v then 1 else 0
  }

  ghost predicate PersistedAtMostOnce(run: Run)
    requires Valid(run)
  {
    forall d, v :: PersistCount(run, d, v) <= 1
  }

  /** Every persist that commits finds its document EXTRACTING. */
  ghost predicate PersistsOnlyExtracting(run: Run)
    requires Valid(run)
  {
    run.Then? ==>
      && PersistsOnlyExtracting(run.before)
      && forall d :: Persists(Last(run.before), run.event, d) ==> Last(run.before).db.docs[d].status == Extracting
  }

  lemma {:induction false} PersistEffect(s: State, e: Event, d: DocId)
    requires Inv(s) && Enabled(s, e) && Persists(s, e, d)
    ensures var v := s.db.docs[d].runVersion;
            var p, db' := s.handlers[e.h].phase, Next(s, e).db;
            && v == p.snap.runVersion && Current(db', d, v) && s.db.docs[d].status != Pending
            && db'.tokens == Upserted(s.db, d, v, p.entities, e.ids)
            && PastExtraction(db'.docs[d])
            && (db'.docs[d].status == Classifying <==> RunTokens(db'.tokens, d, v) != {})
  {
    assert HandlerOk(s, s.handlers[e.h]);
  }

  lemma {:induction false} OnlyPersistExtracts(s: State, e: Event, d: DocId)
    requires Inv(s) && Enabled(s, e) && d in s.db.docs && !ResetsDoc(s, e, d) && !Persists(s, e, d)
    ensures d in Next(s, e).db.docs && (PastExtraction(Next(s, e).db.docs[d]) <==> PastExtraction(s.db.docs[d]))
  {
    assert DocRowOk(s.db, d);
    if e.PersistDoc? {
      PersistMoves(s, e, d);
      var p := s.handlers[e.h].phase;
      PersistStatus(s.db, s.handlers[e.h].job.docId, p.snap.runVersion, p.entities, e.ids, e.rows, e.now, d);
    } else if e.ApplyToken? {
      ApplyMoves(s, e, d);
    } else {
      OtherMoves(s, e, d);
    }
  }

  /** A run of a document has been persisted iff it is over or past extraction. */
  lemma {:induction false} PersistedIsPastExtraction(run: Run, d: DocId, v: int)
    requires Valid(run)
    ensures PersistCount(run, d, v) >= 1 ==>
              d in Last(run).db.docs && v <= Last(run).db.docs[d].runVersion &&
              (v == Last(run).db.docs[d].runVersion ==> PastExtraction(Last(run).db.docs[d]))
    ensures Current(Last(run).db, d, v) && PastExtraction(Last(run).db.docs[d]) ==> PersistCount(run, d, v) >= 1
  {
    if run.Then? {
      var s, e := Last(run.before), run.event;
      AlwaysInv(run.before);
      PersistedIsPastExtraction(run.before, d, v);
      if d !in s.db.docs || ResetsDoc(s, e, d) {
        if d in Next(s, e).db.docs { NewRunIsFresh(s, e, d); }
      } else {
        VersionAndTextStep(s, e, d);
        if Persists(s, e, d) { PersistEffect(s, e, d); } else { OnlyPersistExtracts(s, e, d); }
      }
    }
  }

  lemma {:induction false} SecondPersistIsCounted(run: Run, d: DocId)
    requires Valid(run) && run.Then? && Persists(Last(run.before), run.event, d)
    ensures var v := Last(run.before).db.docs[d].runVersion;
            PersistCount(run, d, v) <= 1 <==>
              Last(run.before).db.docs[d].status == Extracting && PersistCount(run.before, d, v) == 0
  {
    var s := Last(run.before);
    AlwaysInv(run.before);
    PersistEffect(s, run.event, d);
    PersistedIsPastExtraction(run.before, d, s.db.docs[d].runVersion);
    assert DocRowOk(s.db, d);
  }

  /** Counting persists and checking the status at each persist are the same condition. */
  lemma {:induction false} OnceIffExtracting(run: Run)
    requires Valid(run)
    ensures PersistedAtMostOnce(run) <==> PersistsOnlyExtracting(run)
  {
    if run.Then? {
      var s, e := Last(run.before), run.event;
      OnceIffExtracting(run.before);
      if PersistedAtMostOnce(run) {
        forall d, v ensures PersistCount(run.before, d, v) <= 1 {
          assert PersistCount(run, d, v) <= 1;
        }
        forall d | Persists(s, e, d) ensures s.db.docs[d].status == Extracting {
          SecondPersistIsCounted(run, d);
          assert PersistCount(run, d, s.db.docs[d].runVersion) <= 1;
        }
      }
      if PersistsOnlyExtracting(run) {
        forall d, v ensures PersistCount(run, d, v) <= 1 {
          assert PersistCount(run.before, d, v) <= 1;
          PersistedIsPastExtraction(run.before, d, v);
        }
      }
    }
  }

  /******* Stuck documents *******/

  /** CLASSIFYING with every token classified: no event of the current run will complete it. */
  ghost predicate Stuck(db: Db, d: DocId) {
    && d in db.docs && db.docs[d].status == Classifying
    && PendingTokens(db.tokens, d, db.docs[d].runVersion) == {}
  }

  /** The one cause: a persist reaching a completed, non-empty run that already has every key it extracted. */
  ghost predicate RepeatsFinishedRun(s: State, e: Event, d: DocId)
    requires Enabled(s, e)
  {
    && Persists(s, e, d)
    && s.db.docs[d].status == Completed && s.db.docs[d].totalTokens > 0
    && forall x :: x in s.handlers[e.h].phase.entities ==> HasKey(s.db.tokens, d, s.db.docs[d].runVersion, x)
  }

  lemma {:induction false} UnknownKeyIsAdded(tokens: map<TokenId, Token>, d: DocId, v: int, es: seq<Entity>,
                                             ids: seq<TokenId>)
    requires |ids| == |es| && Added(tokens, d, v, es, ids) == map[]
    ensures forall e :: e in es ==> HasKey(tokens, d, v, e)
  {
    if es != [] {
      var n := |es| - 1;
      var before := Added(tokens, d, v, es[..n], ids[..n]);
      assert ids[n] in Added(tokens, d, v, es, ids) || HasKey(tokens + before, d, v, es[n]);
      assert tokens + before == tokens;
      UnknownKeyIsAdded(tokens, d, v, es[..n], ids[..n]);
      assert es == es[..n] + [es[n]];
    }
  }

  /** A run whose rows are all classified after an upsert: the upsert added nothing to a classified run. */
  lemma {:induction false} AllClassifiedAfterUpsert(db: Db, d: DocId, v: int, es: seq<Entity>, ids: seq<TokenId>)
    requires DbInv(db) && Current(db, d, v) && |ids| == |es| && Fresh(ids, db.usedTokens)
    ensures PendingTokens(Upserted(db, d, v, es, ids), d, v) == {} <==>
              PendingTokens(db.tokens, d, v) == {} && forall e :: e in es ==> HasKey(db.tokens, d, v, e)
  {
    var after, added := Upserted(db, d, v, es, ids), Added(db.tokens, d, v, es, ids);
    UpsertKeepsOthers(db, d, v, es, ids);
    forall i | i in added ensures i in PendingTokens(after, d, v) {
      AddedRows(db.tokens, d, v, es, ids, i);
    }
    if PendingTokens(after, d, v) == {} {
      assert added == map[];
      UnknownKeyIsAdded(db.tokens, d, v, es, ids);
      assert after == db.tokens;
    }
    if forall e :: e in es ==> HasKey(db.tokens, d, v, e) {
      UpsertOfKnownKeys(db.tokens, d, v, es, ids);
      assert after == db.tokens;
    }
  }

  lemma {:induction false} PersistSticks(s: State, e: Event, d: DocId)
    requires Inv(s) && Enabled(s, e) && Persists(s, e, d) && !Stuck(s.db, d)
    ensures Stuck(Next(s, e).db, d) <==> RepeatsFinishedRun(s, e, d)
  {
    PersistEffect(s, e, d);
    StuckAfterUpsert(s.db, d, s.db.docs[d].runVersion, s.handlers[e.h].phase.entities, e.ids);
  }

  /** The same in terms of the tables alone. */
  lemma {:induction false} StuckAfterUpsert(db: Db, d: DocId, v: int, es: seq<Entity>, ids: seq<TokenId>)
    requires DbInv(db) && Current(db, d, v) && |ids| == |es| && Fresh(ids, db.usedTokens) && !Stuck(db, d)
    ensures var after := Upserted(db, d, v, es, ids);
            RunTokens(after, d, v) != {} && PendingTokens(after, d, v) == {} <==>
              && db.docs[d].status == Completed && db.docs[d].totalTokens > 0
              && forall e :: e in es ==> HasKey(db.tokens, d, v, e)
  {
    var after := Upserted(db, d, v, es, ids);
    AllClassifiedAfterUpsert(db, d, v, es, ids);
    UpsertKeepsOthers(db, d, v, es, ids);
    assert DocRowOk(db, d);
    RunSplits(db.tokens, d, v);
    RunSplits(after, d, v);
  }

  lemma {:induction false} ApplyNeverSticks(s: State, e: Event, d: DocId)
    requires Inv(s) && Enabled(s, e) && e.ApplyToken? && d in s.db.docs && !Stuck(s.db, d)
    ensures !Stuck(Next(s, e).db, d)
  {
    var job, result := s.handlers[e.h].job, s.handlers[e.h].phase.result;
    assert Next(s, e).db == Apply(s.db, job.tokenId, job.runVersion, result, e.now).0;
    if Classifiable(s.db, job.tokenId, job.runVersion) {
      if s.db.tokens[job.tokenId].docId == d {
        LastTokenCompletes(s.db, job.tokenId, job.runVersion, result, e.now);
      } else {
        ApplyElsewhere(s.db, job.tokenId, job.runVersion, result, e.now, d);
      }
    }
  }

  lemma {:induction false} ApplyElsewhere(db: Db, id: TokenId, v: int, result: Classification, now: Time, d: DocId)
    requires DbInv(db) && Classifiable(db, id, v) && d in db.docs && db.tokens[id].docId != d
    ensures var db' := Apply(db, id, v, result, now).0;
            && d in db'.docs && db'.docs[d] == db.docs[d]
            && PendingTokens(db'.tokens, d, db.docs[d].runVersion) == PendingTokens(db.tokens, d, db.docs[d].runVersion)
  {
    SameRun(db.tokens, Apply(db, id, v, result, now).0.tokens, d, db.docs[d].runVersion);
  }

  lemma {:induction false} LastTokenCompletes(db: Db, id: TokenId, v: int, result: Classification, now: Time)
    requires DbInv(db) && Classifiable(db, id, v)
    ensures var d, db' := db.tokens[id].docId, Apply(db, id, v, result, now).0;
            d in db'.docs && !Stuck(db', d)
  {
    var d, db' := db.tokens[id].docId, Apply(db, id, v, result, now).0;
    ApplyCounts(db, id, v, result, now);
    RunSplits(db'.tokens, d, v);
  }

  lemma {:induction false} PersistElsewhere(s: State, e: Event, d: DocId)
    requires Inv(s) && Enabled(s, e) && e.PersistDoc? && d in s.db.docs && !Persists(s, e, d)
    ensures var db', v := Next(s, e).db, s.db.docs[d].runVersion;
            d in db'.docs && db'.docs[d] == s.db.docs[d]
            && PendingTokens(db'.tokens, d, v) == PendingTokens(s.db.tokens, d, v)
  {
    var p, x := s.handlers[e.h].phase, s.handlers[e.h].job.docId;
    PersistStatus(s.db, x, p.snap.runVersion, p.entities, e.ids, e.rows, e.now, d);
    UpsertKeepsOthers(s.db, x, p.snap.runVersion, p.entities, e.ids);
    SameRun(s.db.tokens, Next(s, e).db.tokens, d, s.db.docs[d].runVersion);
  }

  lemma {:induction false} OthersElsewhere(s: State, e: Event, d: DocId)
    requires Enabled(s, e) && !e.PersistDoc? && !e.ApplyToken? && !ResetsDoc(s, e, d)
    requires d in s.db.docs && s.db.docs[d].status != Failed
    ensures var db', v := Next(s, e).db, s.db.docs[d].runVersion;
            && d in db'.docs && db'.docs[d].runVersion == v
            && (db'.docs[d].status == Classifying <==> s.db.docs[d].status == Classifying)
            && PendingTokens(db'.tokens, d, v) == PendingTokens(s.db.tokens, d, v)
  {
    OtherMoves(s, e, d);
    VersionAndTextStep(s, e, d);
    OthersKeepTokens(s, e, d);
    SameRun(s.db.tokens, Next(s, e).db.tokens, d, s.db.docs[d].runVersion);
  }

  lemma {:induction false} OthersNeverStick(s: State, e: Event, d: DocId)
    requires Inv(s) && Enabled(s, e) && !Persists(s, e, d) && !e.ApplyToken? && !Stuck(s.db, d)
    ensures !Stuck(Next(s, e).db, d)
  {
    if d !in s.db.docs || ResetsDoc(s, e, d) {
      if d in Next(s, e).db.docs { NewRunIsFresh(s, e, d); }
    } else if e.PersistDoc? {
      PersistElsewhere(s, e, d);
    } else {
      assert DocRowOk(s.db, d);
      OthersElsewhere(s, e, d);
    }
  }

  lemma {:induction false} OthersKeepTokens(s: State, e: Event, d: DocId)
    requires Enabled(s, e) && !e.PersistDoc? && !e.ApplyToken? && !ResetsDoc(s, e, d) && d in s.db.docs
    ensures forall i :: i in s.db.tokens && s.db.tokens[i].docId == d ==>
              i in Next(s, e).db.tokens && Next(s, e).db.tokens[i] == s.db.tokens[i]
    ensures forall i :: i in Next(s, e).db.tokens ==> i in s.db.tokens && Next(s, e).db.tokens[i] == s.db.tokens[i]
  {
    if !Writes(e) { QuietKeepsDb(s, e); }
  }

  /** Exactly when a document gets stuck, over all events in all reachable states. */
  lemma {:induction false} StuckExactlyWhen(run: Run, e: Event, d: DocId)
    requires Valid(run) && Enabled(Last(run), e) && !Stuck(Last(run).db, d)
    ensures Stuck(Next(Last(run), e).db, d) <==> RepeatsFinishedRun(Last(run), e, d)
  {
    AlwaysInv(run);
    var s := Last(run);
    if Persists(s, e, d) {
      PersistSticks(s, e, d);
    } else if e.ApplyToken? && d in s.db.docs {
      ApplyNeverSticks(s, e, d);
    } else if e.ApplyToken? {
      if d in Next(s, e).db.docs { NewRunIsFresh(s, e, d); }
    } else {
      OthersNeverStick(s, e, d);
    }
  }

  /** If every run is persisted at most once, extracted and fully classified means COMPLETED. */
  lemma {:induction false} CompletesIfPersistedOnce(run: Run, d: DocId)
    requires Valid(run) && PersistedAtMostOnce(run)
    ensures !Stuck(Last(run).db, d)
  {
    OnceIffExtracting(run);
    if run.Then? {
      OnceIffExtracting(run.before);
      CompletesIfPersistedOnce(run.before, d);
      StuckExactlyWhen(run.before, run.event, d);
    }
  }

  /** A COMPLETED document stays COMPLETED until its next full rerun, except through a repeated persist
      that leaves the run non-empty.  A status guard in persist would exclude exactly these events. */
  lemma {:induction false} CompletedLostExactlyWhen(run: Run, e: Event, d: DocId)
    requires Valid(run) && Enabled(Last(run), e) && d in Last(run).db.docs && Last(run).db.docs[d].status == Completed
    requires !ResetsDoc(Last(run), e, d)
    ensures d in Next(Last(run), e).db.docs
    ensures Next(Last(run), e).db.docs[d].status != Completed <==>
              Persists(Last(run), e, d) &&
              (Last(run).db.docs[d].totalTokens > 0 || Last(run).handlers[e.h].phase.entities != [])
  {
    AlwaysInv(run);
    var s := Last(run);
    assert DocRowOk(s.db, d);
    StatusMoves(run, e, d);
    if Persists(s, e, d) {
      PersistEffect(s, e, d);
      var v, p := s.db.docs[d].runVersion, s.handlers[e.h].phase;
      UpsertKeepsOthers(s.db, d, v, p.entities, e.ids);
      UpsertedIsEmpty(s.db, d, v, p.entities, e.ids);
    } else if e.PersistDoc? {
      var p := s.handlers[e.h].phase;
      PersistStatus(s.db, s.handlers[e.h].job.docId, p.snap.runVersion, p.entities, e.ids, e.rows, e.now, d);
    }
  }

  /** Under a status guard COMPLETED is final: it lasts until the next full rerun. */
  lemma {:induction false} CompletedIsFinalIfPersistedOnce(run: Run, later: Run, d: DocId)
    requires Valid(run) && Valid(later) && Continues(run, later) && PersistedAtMostOnce(later)
    requires d in Last(run).db.docs && Last(run).db.docs[d].status == Completed
    requires Resubmits(later, d) == Resubmits(run, d)
    ensures d in Last(later).db.docs && Last(later).db.docs[d].status == Completed
    decreases later
  {
    if run != later {
      ResubmitsGrow(run, later.before, d);
      OnceIffExtracting(later);
      OnceIffExtracting(later.before);
      CompletedIsFinalIfPersistedOnce(run, later.before, d);
      CompletedLostExactlyWhen(later.before, later.event, d);
    }
  }

  lemma {:induction false} UpsertedIsEmpty(db: Db, d: DocId, v: int, es: seq<Entity>, ids: seq<TokenId>)
    requires DbInv(db) && Current(db, d, v) && |ids| == |es| && Fresh(ids, db.usedTokens)
    ensures RunTokens(Upserted(db, d, v, es, ids), d, v) == {} <==> RunTokens(db.tokens, d, v) == {} && es == []
  {
    if es == [] {
      assert Upserted(db, d, v, es, ids) == db.tokens;
    } else {
      UpsertedHasKey(db, d, v, es, ids);
    }
  }

  lemma {:induction false} UpsertedHasKey(db: Db, d: DocId, v: int, es: seq<Entity>, ids: seq<TokenId>)
    requires DbInv(db) && Current(db, d, v) && |ids| == |es| && Fresh(ids, db.usedTokens) && es != []
    ensures RunTokens(Upserted(db, d, v, es, ids), d, v) != {}
  {
    UpsertKeepsOthers(db, d, v, es, ids);
    AllClassifiedAfterUpsert(db, d, v, es, ids);
    var after := Upserted(db, d, v, es, ids);
    var pending := PendingTokens(after, d, v);
    if pending != {} {
      assert Pick(pending) in RunTokens(after, d, v);
    } else {
      assert es[0] in es;
      var i :| i in db.tokens && OfRun(db.tokens[i], d, v) && SameKey(db.tokens[i].entity, es[0]);
      assert i in RunTokens(after, d, v);
    }
  }

  /******* Once stuck, stuck until a full rerun *******/

  lemma {:induction false} PersistLeavesStuck(o: Oracles, s: State, e: Event, d: DocId)
    requires Inv(s) && Prov(o, s) && Enabled(s, e) && Stuck(s.db, d) && Persists(s, e, d)
    ensures Stuck(Next(s, e).db, d)
  {
    assert HandlerOk(s, s.handlers[e.h]) && HandlerProv(o, s.handlers[e.h].phase);
    assert DocRowOk(s.db, d);
    PersistEffect(s, e, d);
    PersistWritesSpec(o, s.db, d, s.db.docs[d].runVersion, e.ids);
  }

  lemma {:induction false} StuckStep(o: Oracles, s: State, e: Event, d: DocId)
    requires Inv(s) && Prov(o, s) && Enabled(s, e) && Stuck(s.db, d) && !ResetsDoc(s, e, d)
    ensures Stuck(Next(s, e).db, d)
  {
    if Persists(s, e, d) {
      PersistLeavesStuck(o, s, e, d);
    } else if e.PersistDoc? {
      PersistElsewhere(s, e, d);
    } else if e.ApplyToken? {
      ApplyLeavesStuck(s, e, d);
    } else {
      OthersElsewhere(s, e, d);
    }
  }

  lemma {:induction false} ApplyLeavesStuck(s: State, e: Event, d: DocId)
    requires Inv(s) && Enabled(s, e) && e.ApplyToken? && Stuck(s.db, d)
    ensures Stuck(Next(s, e).db, d)
  {
    var job, db', v := s.handlers[e.h].job, Next(s, e).db, s.db.docs[d].runVersion;
    assert db' == Apply(s.db, job.tokenId, job.runVersion, s.handlers[e.h].phase.result, e.now).0;
    if Classifiable(s.db, job.tokenId, job.runVersion) {
      assert TokenOk(s.db, s.db.tokens[job.tokenId]);
      assert job.tokenId !in PendingTokens(s.db.tokens, d, v);
      SameRun(s.db.tokens, db'.tokens, d, v);
    }
  }

  /** No redelivery and no partial resubmit repairs a stuck document; only a full rerun does. */
  lemma {:induction false} StuckUntilFullRerun(o: Oracles, run: Run, later: Run, d: DocId)
    requires Valid(run) && Valid(later) && Continues(run, later) && ObeysRun(o, later)
    requires Stuck(Last(run).db, d) && Resubmits(later, d) == Resubmits(run, d)
    ensures Stuck(Last(later).db, d)
    decreases later
  {
    if run != later {
      ResubmitsGrow(run, later.before, d);
      StuckUntilFullRerun(o, run, later.before, d);
      AlwaysInv(later.before);
      AlwaysProv(o, later.before);
      StuckStep(o, Last(later.before), later.event, d);
    }
  }

  lemma {:induction false} ResubmitsGrow(run: Run, later: Run, d: DocId)
    requires Valid(run) && Valid(later) && Continues(run, later)
    ensures Resubmits(run, d) <= Resubmits(later, d)
    decreases later
  {
    if run != later { ResubmitsGrow(run, later.before, d); }
  }
}
