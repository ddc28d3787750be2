/** What handling messages does to the tables, stated on the rows: which rows a worker may change, and that what it
    writes is what the extractor and the classifier returned for them. */
module Work {
  import opened Domain
  import opened Store
  import opened TableInvariant
  import opened Collections
  import opened Completion
  import opened Effects

  /** The services; None is a failure. */
  type Extractor = string -> Option<seq<Entity>>
  type Classifier = Token -> Option<Classification>

  /** The row as it was, or as classified by what the classifier returned for it. */
  predicate Judged(classify: Classifier, a: Token, b: Token) {
    || b == a
    || (a.status == TokenPending && classify(a).Some?
        && b == a.(status := TokenClassified, result := Some(classify(a).value)))
  }

  /** The row as first inserted. */
  function Inserted(t: Token): Token {
    Token(t.docId, t.runVersion, t.entity, TokenPending, None)
  }

  /** The row carries an entity of its document's text, in the current run of a document not extracted before. */
  ghost predicate Found(extract: Extractor, a: Db, t: Token) {
    && t.docId in a.docs && t.runVersion == a.docs[t.docId].runVersion && !PastExtraction(a.docs[t.docId])
    && extract(a.docs[t.docId].text).Some? && t.entity in extract(a.docs[t.docId].text).value
  }

  /** The same documents, in the same runs of the same texts. */
  ghost predicate SameRuns(a: Db, b: Db) {
    && a.docs.Keys == b.docs.Keys
    && forall d :: d in a.docs ==>
         && a.docs[d].text == b.docs[d].text && a.docs[d].runVersion == b.docs[d].runVersion
         && (PastExtraction(a.docs[d]) ==> PastExtraction(b.docs[d]))
  }

  /** All that any amount of work may do: no row is lost, a row is changed only by recording its own classification,
      and every new row is an entity found in its document. */
  ghost predicate Worked(extract: Extractor, classify: Classifier, a: Db, b: Db) {
    && SameRuns(a, b)
    && (forall i :: i in a.tokens ==> i in b.tokens && Judged(classify, a.tokens[i], b.tokens[i]))
    && (forall i :: i in b.tokens && i !in a.tokens ==>
          Found(extract, a, b.tokens[i]) && Judged(classify, Inserted(b.tokens[i]), b.tokens[i]))
  }

  lemma {:induction false} WorkedReflexive(extract: Extractor, classify: Classifier, a: Db)
    ensures Worked(extract, classify, a, a)
  {
  }

  lemma {:induction false} WorkedTransitive(extract: Extractor, classify: Classifier, a: Db, b: Db, c: Db)
    requires Worked(extract, classify, a, b) && Worked(extract, classify, b, c)
    ensures Worked(extract, classify, a, c)
  {
    forall i | i in c.tokens && i !in a.tokens
      ensures Found(extract, a, c.tokens[i]) && Judged(classify, Inserted(c.tokens[i]), c.tokens[i])
    {
      if i in b.tokens {
        assert Judged(classify, b.tokens[i], c.tokens[i]);
      } else {
        assert Found(extract, b, c.tokens[i]);
      }
    }
    forall i | i in a.tokens ensures i in c.tokens && Judged(classify, a.tokens[i], c.tokens[i]) {
      assert Judged(classify, a.tokens[i], b.tokens[i]) && Judged(classify, b.tokens[i], c.tokens[i]);
    }
  }

  /******* One message *******/

  ghost predicate Unextracted(db: Db, d: DocId) {
    d in db.docs && !PastExtraction(db.docs[d])
  }

  ghost predicate Awaited(db: Db, id: TokenId) {
    id in db.tokens && db.tokens[id].status == TokenPending
  }

  /** At most document d is touched, no token row that was there changes, and if d is gone or past extraction nothing
      happens at all. */
  ghost predicate ExtractEffect(a: Db, b: Db, d: DocId) {
    && OnlyDoc(a, b, d) && OutboxGrows(a, b)
    && (forall i :: i in a.tokens ==> i in b.tokens && b.tokens[i] == a.tokens[i])
    && (!Unextracted(a, d) ==> b == a)
  }

  /** The extracted document: every entity has a row with its key, the counters count the rows, and each row has its
      job among the new rows of the outbox. */
  ghost predicate Extracted(a: Db, b: Db, d: DocId, es: seq<Entity>) {
    && d in b.docs && PastExtraction(b.docs[d])
    && (forall e :: e in es ==> Known(b.tokens, d, b.docs[d].runVersion, e))
    && (forall i :: i in b.tokens && b.tokens[i].docId == d ==>
          exists r :: r in b.outbox && r !in a.outbox && b.outbox[r] == ClassifyJob(i, d, b.docs[d].runVersion))
    && (b.docs[d].status == Completed <==> es == [])
  }

  /** At most token `id` is touched, and its document's row; if the token is gone or classified nothing happens. */
  ghost predicate ClassifyEffect(a: Db, b: Db, id: TokenId) {
    && a.tokens.Keys == b.tokens.Keys && a.docs.Keys == b.docs.Keys && b.outbox == a.outbox
    && (forall i :: i in a.tokens && i != id ==> b.tokens[i] == a.tokens[i])
    && (forall d :: d in a.docs && !(id in a.tokens && a.tokens[id].docId == d) ==> b.docs[d] == a.docs[d])
    && (!Awaited(a, id) ==> b == a)
  }

  /** The recorded classification is the one given; the last one completes the document and stamps it. */
  ghost predicate Recorded(a: Db, b: Db, id: TokenId, c: Classification, now: Time) {
    && id in a.tokens && id in b.tokens
    && b.tokens[id] == a.tokens[id].(status := TokenClassified, result := Some(c))
    && var d := a.tokens[id].docId;
    && d in a.docs && d in b.docs && b.docs[d].classifiedCount == a.docs[d].classifiedCount + 1
    && (b.docs[d].status == Completed <==> AllDone(b, d))
    && (b.docs[d].status == Completed ==> b.docs[d].classificationCompleted == Some(now))
  }

  ghost predicate Effect(a: Db, b: Db, payload: Option<Job>) {
    match payload
    case None => b == a
    case Some(ExtractJob(d, _)) => ExtractEffect(a, b, d)
    case Some(ClassifyJob(id, _, _)) => ClassifyEffect(a, b, id)
  }

  /** What a message that was handled to the end has achieved. */
  ghost predicate Achieved(extract: Extractor, classify: Classifier, a: Db, b: Db, payload: Option<Job>, now: Time) {
    match payload
    case None => true
    case Some(ExtractJob(d, _)) =>
      Unextracted(a, d) ==>
        && extract(a.docs[d].text).Some? && Extracted(a, b, d, extract(a.docs[d].text).value)
        && b.docs[d].extractionCompleted == Some(now)
        && b.docs[d].extractionStarted == if a.docs[d].status == Pending then Some(now) else a.docs[d].extractionStarted
    case Some(ClassifyJob(id, _, v)) =>
      Awaited(a, id) && a.tokens[id].runVersion == v ==>
        classify(a.tokens[id]).Some? && Recorded(a, b, id, classify(a.tokens[id]).value, now)
  }

  /******* The transactions have these effects *******/

  lemma {:induction false} ApplyWorks(extract: Extractor, classify: Classifier, a: Db, id: TokenId, v: int, now: Time)
    requires DbInv(a) && Awaited(a, id) && classify(a.tokens[id]).Some?
    ensures var b := Apply(a, id, v, classify(a.tokens[id]).value, now).0;
            && Worked(extract, classify, a, b) && ClassifyEffect(a, b, id)
            && (a.tokens[id].runVersion == v ==> Recorded(a, b, id, classify(a.tokens[id]).value, now))
  {
    assert TokenOk(a, a.tokens[id]) && DocRowOk(a, a.tokens[id].docId);
    if a.tokens[id].runVersion == v {
      ApplyRecords(a, id, v, classify(a.tokens[id]).value, now);
    }
  }

  lemma {:induction false} ApplyRecords(a: Db, id: TokenId, v: int, c: Classification, now: Time)
    requires DbInv(a) && Awaited(a, id) && a.tokens[id].runVersion == v
    ensures Recorded(a, Apply(a, id, v, c, now).0, id, c, now)
  {
    var b, d := Apply(a, id, v, c, now).0, a.tokens[id].docId;
    ApplyCounts(a, id, v, c, now);
    ApplyKeepsTables(a, id, v, c, now);
    RunIsAll(b, d);
    CompletesAtEquality(b, d);
  }

  lemma {:induction false} ClaimTouches(a: Db, d: DocId, now: Time)
    ensures var b := Claim(a, d, now).0;
            && ExtractEffect(a, b, d)
            && b.tokens == a.tokens && b.outbox == a.outbox && (Unextracted(a, d) <==> Unextracted(b, d))
  {
  }

  lemma {:induction false} SameTokensWorked(extract: Extractor, classify: Classifier, a: Db, b: Db)
    requires SameRuns(a, b) && b.tokens == a.tokens
    ensures Worked(extract, classify, a, b)
  {
  }

  lemma {:induction false} ClaimWorks(extract: Extractor, classify: Classifier, a: Db, d: DocId, now: Time)
    ensures var b := Claim(a, d, now).0;
            && Worked(extract, classify, a, b) && ExtractEffect(a, b, d)
            && b.tokens == a.tokens && b.outbox == a.outbox && (Unextracted(a, d) <==> Unextracted(b, d))
  {
    ClaimTouches(a, d, now);
    assert SameRuns(a, Claim(a, d, now).0);
    SameTokensWorked(extract, classify, a, Claim(a, d, now).0);
  }

  /** The rows that a persist inserts. */
  lemma {:induction false} PersistedRow(a: Db, d: DocId, es: seq<Entity>, ids: seq<TokenId>, i: TokenId)
    requires DbInv(a) && Unextracted(a, d) && |ids| == |es| && Fresh(ids, a.usedTokens)
    ensures var b := Upserted(a, d, a.docs[d].runVersion, es, ids);
            && (i in a.tokens ==> i in b && b[i] == a.tokens[i])
            && (i in b && i !in a.tokens ==> b[i] == Token(d, a.docs[d].runVersion, b[i].entity, TokenPending, None)
                                             && b[i].entity in es)
  {
    var v := a.docs[d].runVersion;
    UpsertKeepsOthers(a, d, v, es, ids);
    if i in Added(a.tokens, d, v, es, ids) {
      AddedRows(a.tokens, d, v, es, ids, i);
    }
  }

  lemma {:induction false} InsertedWorked(extract: Extractor, classify: Classifier, a: Db, b: Db, d: DocId,
                                          es: seq<Entity>)
    requires Unextracted(a, d) && extract(a.docs[d].text) == Some(es) && SameRuns(a, b)
    requires forall i :: i in a.tokens ==> i in b.tokens && b.tokens[i] == a.tokens[i]
    requires forall i :: i in b.tokens && i !in a.tokens ==>
               b.tokens[i] == Token(d, a.docs[d].runVersion, b.tokens[i].entity, TokenPending, None)
               && b.tokens[i].entity in es
    ensures Worked(extract, classify, a, b)
  {
  }

  lemma {:induction false} PersistWorked(extract: Extractor, classify: Classifier, a: Db, b: Db, d: DocId,
                                         es: seq<Entity>, ids: seq<TokenId>)
    requires DbInv(a) && Unextracted(a, d) && extract(a.docs[d].text) == Some(es) && SameRuns(a, b)
    requires |ids| == |es| && Fresh(ids, a.usedTokens)
    requires b.tokens == Upserted(a, d, a.docs[d].runVersion, es, ids)
    ensures Worked(extract, classify, a, b)
  {
    forall i
      ensures i in a.tokens ==> i in b.tokens && b.tokens[i] == a.tokens[i]
      ensures i in b.tokens && i !in a.tokens ==>
                b.tokens[i] == Token(d, a.docs[d].runVersion, b.tokens[i].entity, TokenPending, None)
                && b.tokens[i].entity in es
    {
      PersistedRow(a, d, es, ids, i);
    }
    InsertedWorked(extract, classify, a, b, d, es);
  }

  /** A document not yet extracted has no token. */
  lemma {:induction false} UnextractedHasNone(a: Db, d: DocId)
    requires DbInv(a) && Unextracted(a, d)
    ensures NoTokens(a, d)
  {
    forall i | i in a.tokens ensures a.tokens[i].docId != d {
      assert TokenOk(a, a.tokens[i]) && DocRowOk(a, d);
      assert i !in RunTokens(a.tokens, d, a.docs[d].runVersion);
    }
  }

  lemma {:induction false} PersistExtracts(a: Db, d: DocId, es: seq<Entity>, ids: seq<TokenId>, rows: seq<RowId>,
                                           now: Time)
    requires DbInv(a) && Unextracted(a, d)
    requires |ids| == |es| && Fresh(ids, a.usedTokens) && Fresh(rows, a.usedRows)
    requires |rows| == |PersistJobs(a, d, a.docs[d].runVersion, es, ids)|
    ensures Extracted(a, Persist(a, d, a.docs[d].runVersion, es, ids, rows, now).0, d, es)
  {
    var v := a.docs[d].runVersion;
    var b := Persist(a, d, v, es, ids, rows, now).0;
    FreshIdsAreUnused(a, ids);
    forall e | e in es ensures Known(b.tokens, d, v, e) {
      EveryKeyEnters(a.tokens, d, v, es, ids, e);
      KnownIsHasKey(b.tokens, d, v, e);
    }
    PersistFansOut(a, d, v, es, ids, rows, now);
    FanoutReads(a, b, d, v, Ordered(PendingTokens(b.tokens, d, v)), rows);
    UnextractedHasNone(a, d);
    forall i | i in b.tokens && b.tokens[i].docId == d ensures b.tokens[i].status == TokenPending {
      PersistedRow(a, d, es, ids, i);
    }
    CompletedWhenEmpty(a, b, d, es, ids);
  }

  lemma {:induction false} CompletedWhenEmpty(a: Db, b: Db, d: DocId, es: seq<Entity>, ids: seq<TokenId>)
    requires DbInv(a) && Unextracted(a, d) && |ids| == |es| && Fresh(ids, a.usedTokens)
    requires b.tokens == Upserted(a, d, a.docs[d].runVersion, es, ids)
    ensures RunTokens(b.tokens, d, a.docs[d].runVersion) == {} <==> es == []
  {
    var v := a.docs[d].runVersion;
    UnextractedHasNone(a, d);
    assert RunTokens(a.tokens, d, v) == {};
    UpsertedIsEmpty(a, d, v, es, ids);
  }

  lemma {:induction false} PersistTouches(a: Db, d: DocId, es: seq<Entity>, ids: seq<TokenId>, rows: seq<RowId>,
                                          now: Time)
    requires DbInv(a) && Unextracted(a, d)
    requires |ids| == |es| && Fresh(ids, a.usedTokens) && Fresh(rows, a.usedRows)
    requires |rows| == |PersistJobs(a, d, a.docs[d].runVersion, es, ids)|
    ensures ExtractEffect(a, Persist(a, d, a.docs[d].runVersion, es, ids, rows, now).0, d)
  {
    var v := a.docs[d].runVersion;
    var b := Persist(a, d, v, es, ids, rows, now).0;
    PersistKeepsTables(a, d, v, es, ids, rows, now);
    UpsertKeepsOthers(a, d, v, es, ids);
  }

  lemma {:induction false} PersistWorks(extract: Extractor, classify: Classifier, a: Db, d: DocId, es: seq<Entity>,
                                        ids: seq<TokenId>, rows: seq<RowId>, now: Time)
    requires DbInv(a) && Unextracted(a, d) && extract(a.docs[d].text) == Some(es)
    requires |ids| == |es| && Fresh(ids, a.usedTokens) && Fresh(rows, a.usedRows)
    requires |rows| == |PersistJobs(a, d, a.docs[d].runVersion, es, ids)|
    ensures var b := Persist(a, d, a.docs[d].runVersion, es, ids, rows, now).0;
            Worked(extract, classify, a, b) && ExtractEffect(a, b, d) && Extracted(a, b, d, es)
  {
    var v := a.docs[d].runVersion;
    PersistWorked(extract, classify, a, Persist(a, d, v, es, ids, rows, now).0, d, es, ids);
    PersistExtracts(a, d, es, ids, rows, now);
    PersistTouches(a, d, es, ids, rows, now);
  }

  /******* A claim and then a persist *******/

  lemma {:induction false} ClaimThenExtract(a: Db, b: Db, c: Db, d: DocId)
    requires ExtractEffect(a, b, d) && ExtractEffect(b, c, d) && Unextracted(a, d)
    ensures ExtractEffect(a, c, d)
  {
  }

  lemma {:induction false} ClaimThenPersist(a: Db, b: Db, c: Db, d: DocId, es: seq<Entity>)
    requires Extracted(b, c, d, es) && b.outbox == a.outbox
    ensures Extracted(a, c, d, es)
  {
  }
}
