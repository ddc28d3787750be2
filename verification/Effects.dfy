/** What each event writes, column by column and row by row, over every reachable state.  These laws are stated on
    the rows themselves, not through the functions that compute them. */
module Effects {
  import opened Domain
  import opened Collections
  import opened Store
  import opened TableInvariant
  import opened Protocol
  import opened Safety
  import opened Runs
  import opened Completion
  import opened Stamps

  /******* The document row *******/

  /** The event creates document d, or starts a new run of it. */
  ghost predicate Renews(s: State, e: Event, d: DocId) {
    e.SubmitDoc? && e.d == d && (d !in s.db.docs || e.mode == RerunFull)
  }

  ghost predicate Claims(s: State, e: Event, d: DocId)
    requires Enabled(s, e)
  {
    e.ClaimDoc? && s.handlers[e.h].job.docId == d && d in s.db.docs && s.db.docs[d].status == Pending
  }

  /** A token of d turns CLASSIFIED. */
  ghost predicate Classifies(s: State, e: Event, d: DocId)
    requires Enabled(s, e)
  {
    Flipped(s.db, Next(s, e).db, d) != {}
  }

  ghost predicate AllDone(db: Db, d: DocId)
    requires d in db.docs
  {
    forall i :: i in db.tokens && db.tokens[i].docId == d ==> db.tokens[i].status == TokenClassified
  }

  ghost predicate NoTokens(db: Db, d: DocId) {
    forall i :: i in db.tokens ==> db.tokens[i].docId != d
  }

  lemma {:induction false} ClaimColumns(run: Run, e: Event, d: DocId)
    requires Valid(run) && Enabled(Last(run), e) && Claims(Last(run), e, d)
    ensures d in Next(Last(run), e).db.docs
    ensures Next(Last(run), e).db.docs[d] ==
              Last(run).db.docs[d].(status := Extracting, extractionStarted := Some(e.now))
  {
  }

  lemma {:induction false} RenewColumns(run: Run, e: Event, d: DocId)
    requires Valid(run) && Enabled(Last(run), e) && Renews(Last(run), e, d)
    ensures d in Next(Last(run), e).db.docs
    ensures Next(Last(run), e).db.docs[d] ==
              Document(e.text, Pending, 1 + if d in Last(run).db.docs then Last(run).db.docs[d].runVersion else 0,
                       0, 0, None, None, None, None)
  {
  }

  lemma {:induction false} PersistColumns(run: Run, e: Event, d: DocId)
    requires Valid(run) && Enabled(Last(run), e) && Persists(Last(run), e, d)
    ensures d in Next(Last(run), e).db.docs
    ensures var a, db' := Last(run).db.docs[d], Next(Last(run), e).db;
            var empty := NoTokens(db', d);
            db'.docs[d] == a.(status := if empty then Completed else Classifying,
                              totalTokens := |RunTokens(db'.tokens, d, a.runVersion)|,
                              extractionCompleted := Some(e.now), classificationStarted := Some(e.now),
                              classificationCompleted := if empty then Some(e.now) else a.classificationCompleted)
  {
    var s := Last(run);
    AlwaysInv(run);
    StepKeepsInv(s, e);
    PersistEffect(s, e, d);
    RunIsAll(Next(s, e).db, d);
  }

  /** The run of a document is all the tokens it has. */
  lemma {:induction false} RunIsAll(db: Db, d: DocId)
    requires DbInv(db) && d in db.docs
    ensures RunTokens(db.tokens, d, db.docs[d].runVersion) == {} <==> NoTokens(db, d)
    ensures PendingTokens(db.tokens, d, db.docs[d].runVersion) == {} <==> AllDone(db, d)
  {
    var v := db.docs[d].runVersion;
    forall i | i in db.tokens && db.tokens[i].docId == d ensures OfRun(db.tokens[i], d, v) {
      assert TokenOk(db, db.tokens[i]);
    }
    var all, pending := RunTokens(db.tokens, d, v), PendingTokens(db.tokens, d, v);
    if all == {} {
      forall i | i in db.tokens ensures db.tokens[i].docId != d {
        assert i !in all;
      }
    } else {
      var i := Pick(all);
      assert OfRun(db.tokens[i], d, v);
    }
    if pending == {} {
      forall i | i in db.tokens && db.tokens[i].docId == d ensures db.tokens[i].status == TokenClassified {
        assert i !in pending;
      }
    } else {
      var i := Pick(pending);
      assert OfRun(db.tokens[i], d, v) && db.tokens[i].status == TokenPending;
    }
  }

  /** A token is classified exactly when an apply finds it pending and of its job's run. */
  lemma {:induction false} ClassifiesExactly(s: State, e: Event, d: DocId)
    requires Inv(s) && Enabled(s, e) && d in s.db.docs
    ensures Classifies(s, e, d) <==>
              && e.ApplyToken? && Classifiable(s.db, s.handlers[e.h].job.tokenId, s.handlers[e.h].job.runVersion)
              && s.db.tokens[s.handlers[e.h].job.tokenId].docId == d
  {
    if e.ApplyToken? {
      var job := s.handlers[e.h].job;
      if Classifiable(s.db, job.tokenId, job.runVersion) && s.db.tokens[job.tokenId].docId == d {
        ApplyCounts(s.db, job.tokenId, job.runVersion, s.handlers[e.h].phase.result, e.now);
        assert job.tokenId in Flipped(s.db, Next(s, e).db, d);
      }
    } else if ResetsDoc(s, e, d) {
      ResetFlipsNone(s, e, d);
    } else {
      CounterStep(s, e, d);
    }
  }

  lemma {:induction false} ClassifyColumns(run: Run, e: Event, d: DocId)
    requires Valid(run) && Enabled(Last(run), e) && d in Last(run).db.docs && Classifies(Last(run), e, d)
    ensures e.ApplyToken? && d in Next(Last(run), e).db.docs
    ensures var a, db' := Last(run).db.docs[d], Next(Last(run), e).db;
            var done := AllDone(db', d);
            db'.docs[d] == a.(classifiedCount := a.classifiedCount + 1,
                              status := if done then Completed else a.status,
                              classificationCompleted := if done then Some(e.now) else a.classificationCompleted)
  {
    var s := Last(run);
    AlwaysInv(run);
    StepKeepsInv(s, e);
    ClassifiesExactly(s, e, d);
    ApplyWrites(s, e, d);
    RunIsAll(Next(s, e).db, d);
    CompletesAtEquality(Next(s, e).db, d);
  }

  lemma {:induction false} ResetFlipsNone(s: State, e: Event, d: DocId)
    requires Enabled(s, e) && ResetsDoc(s, e, d)
    ensures Flipped(s.db, Next(s, e).db, d) == {}
  {
  }

  lemma {:induction false} CompletesAtEquality(db: Db, d: DocId)
    requires DbInv(db) && d in db.docs
    ensures db.docs[d].classifiedCount >= db.docs[d].totalTokens <==>
              PendingTokens(db.tokens, d, db.docs[d].runVersion) == {}
  {
    assert DocRowOk(db, d);
    var v := db.docs[d].runVersion;
    RunSplits(db.tokens, d, v);
    SubsetSize(ClassifiedTokens(db.tokens, d, v), RunTokens(db.tokens, d, v));
  }

  /** Every other event leaves the row alone. */
  lemma {:induction false} OtherColumns(run: Run, e: Event, d: DocId)
    requires Valid(run) && Enabled(Last(run), e) && d in Last(run).db.docs
    requires !Renews(Last(run), e, d) && !Claims(Last(run), e, d) && !Persists(Last(run), e, d)
    requires !Classifies(Last(run), e, d)
    ensures d in Next(Last(run), e).db.docs && Next(Last(run), e).db.docs[d] == Last(run).db.docs[d]
  {
    var s := Last(run);
    AlwaysInv(run);
    assert DocRowOk(s.db, d);
    if e.ClaimDoc? {
      ClaimWrites(s, e, d);
    } else if e.PersistDoc? {
      PersistWrites(s, e, d);
    } else if e.ApplyToken? {
      ApplyWrites(s, e, d);
      ClassifiesExactly(s, e, d);
    } else {
      OthersWriteNothing(s, e, d);
    }
  }

  /** When the completion stamp is written, and with which time. */
  lemma {:induction false} CompletionStamp(run: Run, e: Event, d: DocId)
    requires Valid(run) && Enabled(Last(run), e) && d in Last(run).db.docs
    ensures d in Next(Last(run), e).db.docs
    ensures var a, b := Last(run).db.docs[d], Next(Last(run), e).db.docs[d];
            && (e.ApplyToken? && a.status != Completed && b.status == Completed ==>
                  b.classificationCompleted == Some(e.now))
            && (b.classificationCompleted != a.classificationCompleted ==>
                  || (e.ApplyToken? && b.status == Completed && b.classificationCompleted == Some(e.now))
                  || (e.PersistDoc? && NoTokens(Next(Last(run), e).db, d) && b.classificationCompleted == Some(e.now))
                  || (e.SubmitDoc? && e.mode == RerunFull && b.classificationCompleted == None))
  {
    var s := Last(run);
    if Renews(s, e, d) {
      RenewColumns(run, e, d);
    } else if Claims(s, e, d) {
      ClaimColumns(run, e, d);
    } else if Persists(s, e, d) {
      PersistColumns(run, e, d);
    } else if Classifies(s, e, d) {
      ClassifyColumns(run, e, d);
    } else {
      OtherColumns(run, e, d);
    }
  }

  /******* The token rows *******/

  /** Which event deletes, changes or inserts a token row, and what the row then holds. */
  lemma {:induction false} TokenRows(run: Run, e: Event, i: TokenId)
    requires Valid(run) && Enabled(Last(run), e)
    ensures var s, a, b := Last(run), Last(run).db.tokens, Next(Last(run), e).db.tokens;
            && (i in a ==> (i in b <==> !Renews(s, e, a[i].docId)))
            && (i in a && i in b && b[i] != a[i] ==>
                  && e.ApplyToken? && i == s.handlers[e.h].job.tokenId && a[i].status == TokenPending
                  && b[i] == a[i].(status := TokenClassified, result := Some(s.handlers[e.h].phase.result)))
            && (i !in a && i in b ==>
                  && e.PersistDoc? && Persists(s, e, s.handlers[e.h].job.docId)
                  && b[i].entity in s.handlers[e.h].phase.entities
                  && b[i] == Token(s.handlers[e.h].job.docId, s.handlers[e.h].phase.snap.runVersion, b[i].entity,
                                   TokenPending, None))
  {
    var s := Last(run);
    AlwaysInv(run);
    if e.PersistDoc? {
      PersistRow(s, e, i);
    } else if e.SubmitDoc? {
      SubmitRow(s, e, i);
    } else {
      OtherRow(s, e, i);
    }
  }

  lemma {:induction false} OtherRow(s: State, e: Event, i: TokenId)
    requires Enabled(s, e) && !e.PersistDoc? && !e.SubmitDoc?
    ensures var a, b := s.db.tokens, Next(s, e).db.tokens;
            && (i in a <==> i in b)
            && (i in a && b[i] != a[i] ==>
                  && e.ApplyToken? && i == s.handlers[e.h].job.tokenId && a[i].status == TokenPending
                  && b[i] == a[i].(status := TokenClassified, result := Some(s.handlers[e.h].phase.result)))
  {
    if !Writes(e) { QuietKeepsDb(s, e); }
  }

  lemma {:induction false} SubmitRow(s: State, e: Event, i: TokenId)
    requires Inv(s) && Enabled(s, e) && e.SubmitDoc?
    ensures i in Next(s, e).db.tokens <==> i in s.db.tokens && !Renews(s, e, s.db.tokens[i].docId)
    ensures i in Next(s, e).db.tokens ==> Next(s, e).db.tokens[i] == s.db.tokens[i]
  {
    assert i in s.db.tokens ==> TokenOk(s.db, s.db.tokens[i]);
  }

  lemma {:induction false} PersistRow(s: State, e: Event, i: TokenId)
    requires Inv(s) && Enabled(s, e) && e.PersistDoc?
    ensures var d, p, a, b := s.handlers[e.h].job.docId, s.handlers[e.h].phase, s.db.tokens, Next(s, e).db.tokens;
            && (i in a ==> i in b && b[i] == a[i])
            && (i !in a && i in b ==>
                  && Persists(s, e, d) && b[i].entity in p.entities
                  && b[i] == Token(d, p.snap.runVersion, b[i].entity, TokenPending, None))
  {
    var d, p := s.handlers[e.h].job.docId, s.handlers[e.h].phase;
    if Persists(s, e, d) {
      UpsertKeepsOthers(s.db, d, p.snap.runVersion, p.entities, e.ids);
      if i in Added(s.db.tokens, d, p.snap.runVersion, p.entities, e.ids) {
        AddedRows(s.db.tokens, d, p.snap.runVersion, p.entities, e.ids, i);
      }
    }
  }

  /******* Which entities an upsert inserts *******/

  /** The columns of the natural key. */
  predicate SameColumns(a: Entity, b: Entity) {
    (a.position.sentence, a.position.charOffset, a.text) == (b.position.sentence, b.position.charOffset, b.text)
  }

  ghost predicate Known(tokens: map<TokenId, Token>, d: DocId, v: int, e: Entity) {
    exists i :: i in tokens && tokens[i].docId == d && tokens[i].runVersion == v && SameColumns(tokens[i].entity, e)
  }

  lemma {:induction false} KnownIsHasKey(tokens: map<TokenId, Token>, d: DocId, v: int, e: Entity)
    ensures Known(tokens, d, v, e) <==> HasKey(tokens, d, v, e)
  {
    if HasKey(tokens, d, v, e) {
      var i :| i in tokens && OfRun(tokens[i], d, v) && SameKey(tokens[i].entity, e);
      assert SameColumns(tokens[i].entity, e);
    }
    if Known(tokens, d, v, e) {
      var i :| i in tokens && tokens[i].docId == d && tokens[i].runVersion == v && SameColumns(tokens[i].entity, e);
      assert OfRun(tokens[i], d, v) && SameKey(tokens[i].entity, e);
    }
  }

  /** After an upsert every entity has a row with its key. */
  lemma {:induction false} EveryKeyEnters(tokens: map<TokenId, Token>, d: DocId, v: int, es: seq<Entity>,
                                          ids: seq<TokenId>, e: Entity)
    requires |ids| == |es| && Increasing(ids) && e in es
    requires forall k :: 0 <= k < |ids| ==> ids[k] !in tokens
    ensures HasKey(tokens + Added(tokens, d, v, es, ids), d, v, e)
  {
    var n := |es| - 1;
    var before := Added(tokens, d, v, es[..n], ids[..n]);
    var after := tokens + Added(tokens, d, v, es, ids);
    IdsNotYetAdded(tokens, d, v, es, ids);
    if HasKey(tokens + before, d, v, e) {
      var i :| i in tokens + before && OfRun((tokens + before)[i], d, v) && SameKey((tokens + before)[i].entity, e);
      assert i in after && after[i] == (tokens + before)[i];
    } else if e in es[..n] {
      EveryKeyEnters(tokens, d, v, es[..n], ids[..n], e);
    } else {
      assert e == es[n] && ids[n] in after;
      assert OfRun(after[ids[n]], d, v) && SameKey(after[ids[n]].entity, e);
    }
  }

  lemma {:induction false} IdsNotYetAdded(tokens: map<TokenId, Token>, d: DocId, v: int, es: seq<Entity>,
                                          ids: seq<TokenId>)
    requires |ids| == |es| > 0 && Increasing(ids)
    ensures ids[|ids| - 1] !in Added(tokens, d, v, es[..|es| - 1], ids[..|ids| - 1])
  {
    var n := |es| - 1;
    if ids[n] in Added(tokens, d, v, es[..n], ids[..n]) {
      AddedRows(tokens, d, v, es[..n], ids[..n], ids[n]);
    }
  }

  /** Entity k is new to the run: no row and no earlier entity of the list has its sentence, offset and text. */
  ghost predicate FirstOfItsKey(tokens: map<TokenId, Token>, d: DocId, v: int, es: seq<Entity>, k: nat)
    requires k < |es|
  {
    !Known(tokens, d, v, es[k]) && forall j :: 0 <= j < k ==> !SameColumns(es[j], es[k])
  }

  lemma {:induction false} LastIsInserted(tokens: map<TokenId, Token>, d: DocId, v: int, es: seq<Entity>,
                                          ids: seq<TokenId>)
    requires |ids| == |es| > 0 && Increasing(ids)
    requires forall k :: 0 <= k < |ids| ==> ids[k] !in tokens
    ensures ids[|ids| - 1] in Added(tokens, d, v, es, ids) <==> FirstOfItsKey(tokens, d, v, es, |es| - 1)
  {
    var n := |es| - 1;
    var e := es[n];
    var before := Added(tokens, d, v, es[..n], ids[..n]);
    IdsNotYetAdded(tokens, d, v, es, ids);
    KnownIsHasKey(tokens, d, v, e);
    if HasKey(tokens + before, d, v, e) && !Known(tokens, d, v, e) {
      var i :| i in tokens + before && OfRun((tokens + before)[i], d, v) && SameKey((tokens + before)[i].entity, e);
      AddedRows(tokens, d, v, es[..n], ids[..n], i);
      var x :| x in es[..n] && before[i] == NewToken(d, v, x);
      var j :| 0 <= j < n && es[j] == x;
      assert SameColumns(es[j], e);
    }
    if HasKey(tokens, d, v, e) {
      var i :| i in tokens && OfRun(tokens[i], d, v) && SameKey(tokens[i].entity, e);
      assert i in tokens + before && !(i in before) by { AddedAreNew(tokens, d, v, es[..n], ids[..n], i); }
    }
    if j :| 0 <= j < n && SameColumns(es[j], e) {
      assert es[..n][j] == es[j];
      EveryKeyEnters(tokens, d, v, es[..n], ids[..n], es[j]);
      var i :| i in tokens + before && OfRun((tokens + before)[i], d, v) && SameKey((tokens + before)[i].entity, es[j]);
      assert SameKey((tokens + before)[i].entity, e);
    }
  }

  lemma {:induction false} AddedAreNew(tokens: map<TokenId, Token>, d: DocId, v: int, es: seq<Entity>,
                                       ids: seq<TokenId>, i: TokenId)
    requires |ids| == |es| && forall k :: 0 <= k < |ids| ==> ids[k] !in tokens
    requires i in tokens
    ensures i !in Added(tokens, d, v, es, ids)
  {
    if i in Added(tokens, d, v, es, ids) {
      AddedRows(tokens, d, v, es, ids, i);
    }
  }

  /** An upsert inserts an entity, under its own id, exactly when it is the first of its key. */
  lemma {:induction false} InsertedExactly(tokens: map<TokenId, Token>, d: DocId, v: int, es: seq<Entity>,
                                           ids: seq<TokenId>, k: nat)
    requires |ids| == |es| && Increasing(ids) && k < |es|
    requires forall j :: 0 <= j < |ids| ==> ids[j] !in tokens
    ensures ids[k] in Added(tokens, d, v, es, ids) <==> FirstOfItsKey(tokens, d, v, es, k)
    ensures ids[k] in Added(tokens, d, v, es, ids) ==>
              Added(tokens, d, v, es, ids)[ids[k]] == Token(d, v, es[k], TokenPending, None)
  {
    var n := |es| - 1;
    if k < n {
      InsertedExactly(tokens, d, v, es[..n], ids[..n], k);
      assert es[..n][k] == es[k] && ids[..n][k] == ids[k];
      assert forall j :: 0 <= j < k ==> es[..n][j] == es[j];
    } else {
      LastIsInserted(tokens, d, v, es, ids);
      IdsNotYetAdded(tokens, d, v, es, ids);
    }
  }

  /** A committing persist gives entity k a row of its own exactly when it is the first of its key. */
  lemma {:induction false} PersistInserts(run: Run, e: Event, d: DocId, k: nat)
    requires Valid(run) && Enabled(Last(run), e) && Persists(Last(run), e, d)
    requires k < |Last(run).handlers[e.h].phase.entities|
    ensures var s, p, b := Last(run), Last(run).handlers[e.h].phase, Next(Last(run), e).db.tokens;
            && (e.ids[k] in b <==> FirstOfItsKey(s.db.tokens, d, p.snap.runVersion, p.entities, k))
            && (e.ids[k] in b ==> b[e.ids[k]] == Token(d, p.snap.runVersion, p.entities[k], TokenPending, None))
            && Known(b, d, p.snap.runVersion, p.entities[k])
  {
    var s, p := Last(run), Last(run).handlers[e.h].phase;
    var v, es := p.snap.runVersion, p.entities;
    AlwaysInv(run);
    FreshIdsAreUnused(s.db, e.ids);
    assert Next(s, e).db.tokens == s.db.tokens + Added(s.db.tokens, d, v, es, e.ids);
    InsertedExactly(s.db.tokens, d, v, es, e.ids, k);
    EveryKeyEnters(s.db.tokens, d, v, es, e.ids, es[k]);
    KnownIsHasKey(Next(s, e).db.tokens, d, v, es[k]);
  }

  /******* The outbox rows *******/

  ghost predicate JobOfPending(db: Db, job: Job, d: DocId) {
    && job.ClassifyJob? && job.tokenId in db.tokens && job.docId == d
    && db.tokens[job.tokenId].docId == d && db.tokens[job.tokenId].runVersion == job.runVersion
    && db.tokens[job.tokenId].status == TokenPending
  }

  /** The rows of a fan-out, one by one. */
  ghost predicate FansOut(db: Db, db': Db, d: DocId, v: int, list: seq<TokenId>, rows: seq<RowId>) {
    && |rows| == |list| && Increasing(rows) && Increasing(list)
    && (forall r :: r in db.outbox ==> r in db'.outbox && db'.outbox[r] == db.outbox[r])
    && (forall r :: r in db'.outbox && r !in db.outbox ==> r in rows)
    && (forall k :: 0 <= k < |rows| ==>
          rows[k] in db'.outbox && rows[k] !in db.outbox && db'.outbox[rows[k]] == ClassifyJob(list[k], d, v))
    && (forall k :: 0 <= k < |list| ==> JobOfPending(db', ClassifyJob(list[k], d, v), d))
    && (forall i :: i in db'.tokens && db'.tokens[i].docId == d && db'.tokens[i].status == TokenPending ==> i in list)
  }

  lemma {:induction false} PendingListed(db: Db, d: DocId, v: int)
    requires TokensOk(db) && Current(db, d, v)
    ensures var list := Ordered(PendingTokens(db.tokens, d, v));
            && Increasing(list)
            && (forall k :: 0 <= k < |list| ==> JobOfPending(db, ClassifyJob(list[k], d, v), d))
            && (forall i :: i in db.tokens && db.tokens[i].docId == d && db.tokens[i].status == TokenPending ==>
                  i in list)
  {
    var list := Ordered(PendingTokens(db.tokens, d, v));
    OrderedListsAll(PendingTokens(db.tokens, d, v));
    forall k | 0 <= k < |list| ensures JobOfPending(db, ClassifyJob(list[k], d, v), d) {
      assert list[k] in Elements(list);
    }
    forall i | i in db.tokens && db.tokens[i].docId == d && db.tokens[i].status == TokenPending ensures i in list {
      assert TokenOk(db, db.tokens[i]);
      assert i in Elements(list);
    }
  }

  lemma {:induction false} RowsAppended(db: Db, db': Db, rows: seq<RowId>, jobs: seq<Job>)
    requires RowsOk(db) && |rows| == |jobs| && Fresh(rows, db.usedRows) && db'.outbox == db.outbox + Rows(rows, jobs)
    ensures forall r :: r in db.outbox ==> r in db'.outbox && db'.outbox[r] == db.outbox[r]
    ensures forall r :: r in db'.outbox && r !in db.outbox ==> r in rows
    ensures forall k :: 0 <= k < |rows| ==>
              rows[k] in db'.outbox && rows[k] !in db.outbox && db'.outbox[rows[k]] == jobs[k]
  {
    RowsHold(rows, jobs);
    forall r | r in db'.outbox && r !in db.outbox ensures r in rows {
      assert r in Elements(rows);
    }
    forall r | r in db.outbox ensures r !in Elements(rows) {
    }
  }

  lemma {:induction false} PersistFansOut(db: Db, d: DocId, v: int, es: seq<Entity>, ids: seq<TokenId>,
                                          rows: seq<RowId>, now: Time)
    requires DbInv(db) && |ids| == |es| && Fresh(ids, db.usedTokens) && Fresh(rows, db.usedRows)
    requires |rows| == |PersistJobs(db, d, v, es, ids)| && Current(db, d, v)
    ensures var db' := Persist(db, d, v, es, ids, rows, now).0;
            FansOut(db, db', d, v, Ordered(PendingTokens(db'.tokens, d, v)), rows)
  {
    var db' := Persist(db, d, v, es, ids, rows, now).0;
    PersistKeepsTables(db, d, v, es, ids, rows, now);
    PendingListed(db', d, v);
    RowsAppended(db, db', rows, PersistJobs(db, d, v, es, ids));
  }

  /** A committing persist enqueues one job for each token of the document left pending, in id order, and no other. */
  lemma {:induction false} PersistEnqueues(run: Run, e: Event, d: DocId)
    requires Valid(run) && Enabled(Last(run), e) && Persists(Last(run), e, d)
    ensures var db, db' := Last(run).db, Next(Last(run), e).db;
            var before, after := db.outbox, db'.outbox;
            && (forall r :: r in before ==> r in after && after[r] == before[r])
            && (forall r :: r in after && r !in before ==> JobOfPending(db', after[r], d))
            && (forall i :: i in db'.tokens && db'.tokens[i].docId == d && db'.tokens[i].status == TokenPending ==>
                  exists r :: r in after && r !in before && after[r] == ClassifyJob(i, d, db.docs[d].runVersion))
            && (forall r, q :: r in after && r !in before && q in after && q !in before && r < q ==>
                  after[r].tokenId < after[q].tokenId)
  {
    var s, p := Last(run), Last(run).handlers[e.h].phase;
    var db' := Next(s, e).db;
    AlwaysInv(run);
    PersistFansOut(s.db, d, p.snap.runVersion, p.entities, e.ids, e.rows, e.now);
    FanoutReads(s.db, db', d, p.snap.runVersion, Ordered(PendingTokens(db'.tokens, d, p.snap.runVersion)), e.rows);
  }

  lemma {:induction false} FanoutIndex(db: Db, db': Db, d: DocId, v: int, list: seq<TokenId>, rows: seq<RowId>,
                                       r: RowId)
    returns (k: nat)
    requires FansOut(db, db', d, v, list, rows) && r in db'.outbox && r !in db.outbox
    ensures k < |rows| == |list| && rows[k] == r && db'.outbox[r] == ClassifyJob(list[k], d, v)
    ensures JobOfPending(db', db'.outbox[r], d)
  {
    k :| 0 <= k < |rows| && rows[k] == r;
  }

  lemma {:induction false} FanoutOrder(db: Db, db': Db, d: DocId, v: int, list: seq<TokenId>, rows: seq<RowId>,
                                       r: RowId, q: RowId)
    requires FansOut(db, db', d, v, list, rows) && r in db'.outbox && q in db'.outbox
    requires r !in db.outbox && q !in db.outbox && r < q
    ensures db'.outbox[r].ClassifyJob? && db'.outbox[q].ClassifyJob?
    ensures db'.outbox[r].tokenId < db'.outbox[q].tokenId
  {
    var j := FanoutIndex(db, db', d, v, list, rows, r);
    var k := FanoutIndex(db, db', d, v, list, rows, q);
    assert j < k;
  }

  lemma {:induction false} FanoutReads(db: Db, db': Db, d: DocId, v: int, list: seq<TokenId>, rows: seq<RowId>)
    requires FansOut(db, db', d, v, list, rows)
    ensures forall r :: r in db'.outbox && r !in db.outbox ==> JobOfPending(db', db'.outbox[r], d)
    ensures forall i :: i in db'.tokens && db'.tokens[i].docId == d && db'.tokens[i].status == TokenPending ==>
              exists r :: r in db'.outbox && r !in db.outbox && db'.outbox[r] == ClassifyJob(i, d, v)
    ensures forall r, q :: r in db'.outbox && r !in db.outbox && q in db'.outbox && q !in db.outbox && r < q ==>
              db'.outbox[r].tokenId < db'.outbox[q].tokenId
  {
    forall r | r in db'.outbox && r !in db.outbox ensures JobOfPending(db', db'.outbox[r], d) {
      var k := FanoutIndex(db, db', d, v, list, rows, r);
    }
    forall i | i in db'.tokens && db'.tokens[i].docId == d && db'.tokens[i].status == TokenPending
      ensures exists r :: r in db'.outbox && r !in db.outbox && db'.outbox[r] == ClassifyJob(i, d, v)
    {
      assert i in list;
      var k :| 0 <= k < |list| && list[k] == i;
      assert rows[k] in db'.outbox;
    }
    forall r, q | r in db'.outbox && r !in db.outbox && q in db'.outbox && q !in db.outbox && r < q
      ensures db'.outbox[r].tokenId < db'.outbox[q].tokenId
    {
      FanoutOrder(db, db', d, v, list, rows, r, q);
    }
  }

  /******* Decisions and answers *******/

  /** A handler goes on to extract exactly when the document it locked is not past extraction, and on that text and
      version. */
  lemma {:induction false} ClaimDecides(run: Run, e: Event)
    requires Valid(run) && Enabled(Last(run), e) && e.ClaimDoc?
    ensures var s, p := Last(run), Next(Last(run), e).handlers[e.h].phase;
            var d := s.handlers[e.h].job.docId;
            if d in s.db.docs && s.db.docs[d].status in {Pending, Extracting}
            then p == Claimed(s.db.docs[d].(status := Extracting))
            else p == Done
  {
    AlwaysInv(run);
    var s := Last(run);
    var d := s.handlers[e.h].job.docId;
    assert d in s.db.docs ==> DocRowOk(s.db, d);
  }

  /** A classify handler goes on exactly when its token is there and pending, with that row. */
  lemma {:induction false} CheckDecides(run: Run, e: Event)
    requires Valid(run) && Enabled(Last(run), e) && e.CheckToken?
    ensures var s, p := Last(run), Next(Last(run), e).handlers[e.h].phase;
            var i := s.handlers[e.h].job.tokenId;
            if i in s.db.tokens && s.db.tokens[i].status == TokenPending
            then p == Checked(s.db.tokens[i])
            else p == Done
  {
  }

  /** The three answers of an apply: which tokens are missing, which are of another run, and when it is done. */
  lemma {:induction false} ApplyAnswers(db: Db, id: TokenId, v: int, result: Classification, now: Time)
    requires DbInv(db)
    ensures var (db', r) := Apply(db, id, v, result, now);
            && (r == NotFound <==> id !in db.tokens)
            && (r == StaleWrite <==> id in db.tokens && db.tokens[id].runVersion != v)
            && (r == Ok(()) ==> id in db'.tokens && db'.tokens[id].status == TokenClassified)
            && (r != Ok(()) ==> db' == db)
  {
    assert id in db.tokens ==> TokenOk(db, db.tokens[id]);
  }

  /** The answers of a claim and of a persist. */
  lemma {:induction false} ExtractionAnswers(db: Db, d: DocId, v: int, es: seq<Entity>, ids: seq<TokenId>,
                                             rows: seq<RowId>, now: Time)
    requires DbInv(db) && |ids| == |es| && |rows| == |PersistJobs(db, d, v, es, ids)| && Fresh(ids, db.usedTokens)
    ensures var (db', r) := Claim(db, d, now);
            && (r == NotFound <==> d !in db.docs) && r != StaleWrite
            && (r.Ok? ==> r.value == db'.docs[d].(extractionStarted := db.docs[d].extractionStarted))
    ensures var (db', r) := Persist(db, d, v, es, ids, rows, now);
            && (r == NotFound <==> d !in db.docs)
            && (r == StaleWrite <==> d in db.docs && db.docs[d].runVersion != v)
            && (r.Ok? ==> r.value == db'.docs[d].totalTokens == |RunTokens(db'.tokens, d, v)|)
            && (!r.Ok? ==> db' == db)
  {
  }
}
