/** What every committed state of the tables satisfies, and how one committed state may follow another. */
module TableInvariant {
  import opened Domain
  import opened Collections
  import opened Store

  /******* One-state invariant *******/

  predicate PastExtraction(doc: Document) {
    doc.status == Classifying || doc.status == Completed
  }

  /** The counters of a document agree with the rows they count, and its status with the counters. */
  ghost predicate DocOk(doc: Document, all: set<TokenId>, classified: set<TokenId>) {
    && 1 <= doc.runVersion
    && doc.status != Failed
    && doc.totalTokens == |all|
    && doc.classifiedCount == |classified|
    && (!PastExtraction(doc) ==> all == {})
    && (doc.status == Classifying ==> all != {})
    && (doc.status == Completed ==> classified == all)
  }

  ghost predicate DocRowOk(db: Db, d: DocId)
    requires d in db.docs
  {
    var v := db.docs[d].runVersion;
    DocOk(db.docs[d], RunTokens(db.tokens, d, v), ClassifiedTokens(db.tokens, d, v))
  }

  ghost predicate DocsOk(db: Db) {
    forall d :: d in db.docs ==> DocRowOk(db, d)
  }

  /** Every token row belongs to the current run of its document. */
  ghost predicate TokenOk(db: Db, t: Token) {
    && t.docId in db.docs
    && t.runVersion == db.docs[t.docId].runVersion
    && (t.status == TokenClassified <==> t.result.Some?)
  }

  ghost predicate TokensOk(db: Db) {
    && db.tokens.Keys <= db.usedTokens
    && forall i :: i in db.tokens ==> TokenOk(db, db.tokens[i])
  }

  predicate Collide(a: Token, b: Token) {
    a.docId == b.docId && a.runVersion == b.runVersion && SameKey(a.entity, b.entity)
  }

  ghost predicate KeysUnique(tokens: map<TokenId, Token>) {
    forall i, j :: i in tokens && j in tokens && Collide(tokens[i], tokens[j]) ==> i == j
  }

  ghost predicate RowsOk(db: Db) {
    db.outbox.Keys <= db.usedRows
  }

  ghost predicate DbInv(db: Db) {
    DocsOk(db) && TokensOk(db) && KeysUnique(db.tokens) && RowsOk(db)
  }

  /******* Two-state relation *******/

  ghost predicate DocEvolves(a: Document, b: Document) {
    && a.runVersion <= b.runVersion
    && (a.runVersion == b.runVersion ==>
          && a.text == b.text
          && (a.status != Pending ==> b.status != Pending)
          && (PastExtraction(a) ==> PastExtraction(b)))
  }

  ghost predicate TokenEvolves(a: Token, b: Token) {
    && a.docId == b.docId && a.runVersion == b.runVersion && a.entity == b.entity
    && (a.status == TokenClassified ==> a == b)
  }

  ghost predicate DocsEvolve(a: Db, b: Db) {
    forall d :: d in a.docs ==> d in b.docs && DocEvolves(a.docs[d], b.docs[d])
  }

  /** A row of `b` is a row of `a` that has at most been classified since, or bears a new id. */
  ghost predicate TokensEvolve(a: Db, b: Db) {
    && a.usedTokens <= b.usedTokens
    && forall i :: i in b.tokens && i in a.usedTokens ==> i in a.tokens && TokenEvolves(a.tokens[i], b.tokens[i])
  }

  /** How the documents and tokens of a later committed state relate to an earlier one. */
  ghost predicate Evolves(a: Db, b: Db) {
    DocsEvolve(a, b) && TokensEvolve(a, b)
  }

  /** Transactions other than the relay's only append to the outbox. */
  ghost predicate OutboxGrows(a: Db, b: Db) {
    && a.usedRows <= b.usedRows
    && (forall r :: r in a.outbox ==> r in b.outbox && b.outbox[r] == a.outbox[r])
    && (forall r :: r in b.outbox && r in a.usedRows ==> r in a.outbox)
  }

  lemma {:induction false} EvolvesReflexive(a: Db)
    requires DbInv(a)
    ensures Evolves(a, a) && OutboxGrows(a, a)
  {
  }

  lemma {:induction false} EvolvesTransitive(a: Db, b: Db, c: Db)
    requires Evolves(a, b) && Evolves(b, c)
    ensures Evolves(a, c)
  {
    assert forall i :: i in c.tokens && i in a.usedTokens ==> i in b.usedTokens;
  }

  /******* Jobs against the tables *******/

  /** What is true of every job ever enqueued. */
  ghost predicate JobOk(db: Db, job: Job) {
    && job.docId in db.docs
    && job.runVersion <= db.docs[job.docId].runVersion
    && (job.ClassifyJob? ==>
          && job.tokenId in db.usedTokens
          && (job.tokenId in db.tokens ==> OfRun(db.tokens[job.tokenId], job.docId, job.runVersion)))
  }

  /** The work a job asks for is done or superseded.  This is what a handler must know before it acks. */
  ghost predicate Obsolete(db: Db, job: Job) {
    match job
    case ExtractJob(d, v) =>
      d in db.docs && v <= db.docs[d].runVersion && (v == db.docs[d].runVersion ==> PastExtraction(db.docs[d]))
    case ClassifyJob(id, d, v) =>
      id in db.usedTokens && (id in db.tokens ==> db.tokens[id].status == TokenClassified)
  }

  /** The jobs without which a document or a token would never be worked on again. */
  ghost predicate Needed(db: Db, job: Job) {
    match job
    case ExtractJob(d, v) =>
      d in db.docs && v == db.docs[d].runVersion && !PastExtraction(db.docs[d])
    case ClassifyJob(id, d, v) =>
      id in db.tokens && OfRun(db.tokens[id], d, v) && db.tokens[id].status == TokenPending
  }

  lemma {:induction false} JobOkStable(a: Db, b: Db, job: Job)
    requires Evolves(a, b) && JobOk(a, job)
    ensures JobOk(b, job)
  {
    assert DocEvolves(a.docs[job.docId], b.docs[job.docId]);
  }

  lemma {:induction false} ObsoleteStable(a: Db, b: Db, job: Job)
    requires Evolves(a, b) && Obsolete(a, job)
    ensures Obsolete(b, job)
  {
    if job.ExtractJob? {
      assert DocEvolves(a.docs[job.docId], b.docs[job.docId]);
    }
  }

  lemma {:induction false} ObsoleteExcludesNeeded(db: Db, job: Job)
    requires Obsolete(db, job)
    ensures !Needed(db, job)
  {
  }

  /** Every job that `b` needs was already needed in `a`, or has a row in the outbox of `b`. */
  ghost predicate Covers(a: Db, b: Db) {
    forall job :: Needed(b, job) ==> Needed(a, job) || exists r :: r in b.outbox && b.outbox[r] == job
  }

  /** The outbox rows that a transaction adds carry well-formed jobs. */
  ghost predicate AddsGoodJobs(a: Db, b: Db) {
    forall r :: r in b.outbox && r !in a.outbox ==> JobOk(b, b.outbox[r])
  }

  /** All that the protocol needs to know about a committed transaction other than the relay's. */
  ghost predicate GoodTransition(a: Db, b: Db) {
    DbInv(b) && Evolves(a, b) && OutboxGrows(a, b) && Covers(a, b) && AddsGoodJobs(a, b)
  }

  lemma {:induction false} NoChangeIsGood(a: Db)
    requires DbInv(a)
    ensures GoodTransition(a, a)
  {
  }

  /******* Transactions work on one document at a time *******/

  /** `b` differs from `a` at most in the row of document `d` and in the rows of its tokens. */
  ghost predicate OnlyDoc(a: Db, b: Db, d: DocId) {
    && (forall x :: x != d ==> (x in a.docs <==> x in b.docs))
    && (forall x :: x != d && x in a.docs ==> b.docs[x] == a.docs[x])
    && (forall i :: i in a.tokens && a.tokens[i].docId != d ==> i in b.tokens && b.tokens[i] == a.tokens[i])
    && (forall i :: i in b.tokens && b.tokens[i].docId != d ==> i in a.tokens && b.tokens[i] == a.tokens[i])
  }

  /** Two token tables with the same rows of a run agree on everything counted for it. */
  lemma {:induction false} SameRun(a: map<TokenId, Token>, b: map<TokenId, Token>, d: DocId, v: int)
    requires forall i :: i in a && a[i].docId == d ==> i in b && b[i] == a[i]
    requires forall i :: i in b && b[i].docId == d ==> i in a && b[i] == a[i]
    ensures RunTokens(a, d, v) == RunTokens(b, d, v)
    ensures ClassifiedTokens(a, d, v) == ClassifiedTokens(b, d, v)
    ensures PendingTokens(a, d, v) == PendingTokens(b, d, v)
  {
    assert forall i :: i in RunTokens(a, d, v) <==> i in RunTokens(b, d, v);
    assert forall i :: i in ClassifiedTokens(a, d, v) <==> i in ClassifiedTokens(b, d, v);
    assert forall i :: i in PendingTokens(a, d, v) <==> i in PendingTokens(b, d, v);
  }

  lemma {:induction false} RunSplits(tokens: map<TokenId, Token>, d: DocId, v: int)
    ensures RunTokens(tokens, d, v) == ClassifiedTokens(tokens, d, v) + PendingTokens(tokens, d, v)
    ensures ClassifiedTokens(tokens, d, v) !! PendingTokens(tokens, d, v)
    ensures ClassifiedTokens(tokens, d, v) == RunTokens(tokens, d, v) <==> PendingTokens(tokens, d, v) == {}
  {
    var all, done, left := RunTokens(tokens, d, v), ClassifiedTokens(tokens, d, v), PendingTokens(tokens, d, v);
    assert forall i :: i in all <==> i in done || i in left;
    assert forall i :: i in left ==> i !in done;
  }

  lemma {:induction false} FreshIdsAreUnused(db: Db, ids: seq<TokenId>)
    requires TokensOk(db) && Fresh(ids, db.usedTokens)
    ensures forall k :: 0 <= k < |ids| ==> ids[k] !in db.tokens
  {
    assert forall k :: 0 <= k < |ids| ==> ids[k] !in db.tokens.Keys;
  }

  lemma {:induction false} OtherDocsStayOk(a: Db, b: Db, d: DocId, x: DocId)
    requires OnlyDoc(a, b, d) && DocsOk(a) && x in b.docs && x != d
    ensures DocRowOk(b, x)
  {
    var v := a.docs[x].runVersion;
    assert DocRowOk(a, x);
    SameRun(a.tokens, b.tokens, x, v);
  }

  lemma {:induction false} DocsStayOk(a: Db, b: Db, d: DocId)
    requires OnlyDoc(a, b, d) && DocsOk(a)
    requires d in b.docs ==> DocRowOk(b, d)
    ensures DocsOk(b)
  {
    forall x | x in b.docs ensures DocRowOk(b, x) {
      if x != d { OtherDocsStayOk(a, b, d, x); }
    }
  }

  lemma {:induction false} TokensStayOk(a: Db, b: Db, d: DocId)
    requires OnlyDoc(a, b, d) && TokensOk(a) && a.usedTokens <= b.usedTokens && d in b.docs
    requires forall i :: i in b.tokens && b.tokens[i].docId == d ==> i in b.usedTokens && TokenOk(b, b.tokens[i])
    ensures TokensOk(b)
  {
    forall i | i in b.tokens ensures i in b.usedTokens && TokenOk(b, b.tokens[i]) {
      if b.tokens[i].docId != d { assert TokenOk(a, a.tokens[i]); }
    }
  }

  /******* Claim *******/

  lemma {:induction false} ClaimKeepsInv(db: Db, d: DocId, now: Time)
    requires DbInv(db)
    ensures DbInv(Claim(db, d, now).0)
  {
    if d in db.docs {
      var db' := Claim(db, d, now).0;
      assert DocRowOk(db, d);
      assert DocRowOk(db', d);
      DocsStayOk(db, db', d);
      forall i | i in db'.tokens ensures TokenOk(db', db'.tokens[i]) {
        assert TokenOk(db, db.tokens[i]);
      }
    }
  }

  lemma {:induction false} ClaimEvolves(db: Db, d: DocId, now: Time)
    requires DbInv(db)
    ensures Evolves(db, Claim(db, d, now).0)
  {
    var db' := Claim(db, d, now).0;
    assert DocsEvolve(db, db');
    assert TokensEvolve(db, db');
  }

  lemma {:induction false} ClaimNeedsNoMore(db: Db, d: DocId, now: Time, job: Job)
    requires Needed(Claim(db, d, now).0, job)
    ensures Needed(db, job)
  {
  }

  lemma {:induction false} ClaimKeepsTables(db: Db, d: DocId, now: Time)
    requires DbInv(db)
    ensures GoodTransition(db, Claim(db, d, now).0)
  {
    ClaimKeepsInv(db, d, now);
    ClaimEvolves(db, d, now);
    forall job | Needed(Claim(db, d, now).0, job) ensures Needed(db, job) {
      ClaimNeedsNoMore(db, d, now, job);
    }
  }

  /******* Apply *******/

  /** A pending token of run `v`: the only kind of token that an apply changes. */
  ghost predicate Classifiable(db: Db, id: TokenId, v: int) {
    id in db.tokens && db.tokens[id].status == TokenPending && db.tokens[id].runVersion == v
  }

  lemma {:induction false} ApplyCounts(db: Db, id: TokenId, v: int, result: Classification, now: Time)
    requires DbInv(db) && Classifiable(db, id, v)
    ensures var d, db' := db.tokens[id].docId, Apply(db, id, v, result, now).0;
            && Current(db, d, v) && Current(db', d, v)
            && RunTokens(db'.tokens, d, v) == RunTokens(db.tokens, d, v)
            && ClassifiedTokens(db'.tokens, d, v) == ClassifiedTokens(db.tokens, d, v) + {id}
            && DocRowOk(db', d)
            && db.docs[d].status == Classifying
  {
    var d, db' := db.tokens[id].docId, Apply(db, id, v, result, now).0;
    assert TokenOk(db, db.tokens[id]);
    var all, done, done' := RunTokens(db.tokens, d, v), ClassifiedTokens(db.tokens, d, v),
        ClassifiedTokens(db'.tokens, d, v);
    assert DocRowOk(db, d);
    assert id in all && id !in done;
    assert RunTokens(db'.tokens, d, v) == all;
    assert done' == done + {id};
    SubsetSize(done', all);
  }

  /** An apply changes nothing of its token that the invariant or the natural key speaks of, but the result. */
  lemma {:induction false} ApplyRows(db: Db, id: TokenId, v: int, result: Classification, now: Time)
    requires DbInv(db) && Classifiable(db, id, v)
    ensures var d, db' := db.tokens[id].docId, Apply(db, id, v, result, now).0;
            && OnlyDoc(db, db', d) && db'.usedTokens == db.usedTokens && db'.tokens.Keys == db.tokens.Keys
            && (forall i :: i in db.tokens ==>
                  OfRun(db'.tokens[i], db.tokens[i].docId, db.tokens[i].runVersion)
                  && db'.tokens[i].entity == db.tokens[i].entity)
            && (forall i :: i in db.tokens && i != id ==> db'.tokens[i] == db.tokens[i])
            && RowsOk(db')
  {
    assert TokenOk(db, db.tokens[id]);
  }

  lemma {:induction false} ApplyKeepsTokens(db: Db, id: TokenId, v: int, result: Classification, now: Time)
    requires DbInv(db) && Classifiable(db, id, v)
    ensures TokensOk(Apply(db, id, v, result, now).0)
  {
    ApplyCounts(db, id, v, result, now);
    ApplyRows(db, id, v, result, now);
    var d, db' := db.tokens[id].docId, Apply(db, id, v, result, now).0;
    forall i | i in db'.tokens && db'.tokens[i].docId == d ensures i in db'.usedTokens && TokenOk(db', db'.tokens[i]) {
      assert TokenOk(db, db.tokens[i]);
    }
    TokensStayOk(db, db', d);
  }

  lemma {:induction false} ApplyKeepsKeys(db: Db, id: TokenId, v: int, result: Classification, now: Time)
    requires DbInv(db) && Classifiable(db, id, v)
    ensures KeysUnique(Apply(db, id, v, result, now).0.tokens)
  {
    ApplyRows(db, id, v, result, now);
    var tokens := Apply(db, id, v, result, now).0.tokens;
    forall i, j | i in tokens && j in tokens && Collide(tokens[i], tokens[j]) ensures i == j {
      assert Collide(db.tokens[i], db.tokens[j]);
    }
  }

  lemma {:induction false} ApplyKeepsInv(db: Db, id: TokenId, v: int, result: Classification, now: Time)
    requires DbInv(db) && Classifiable(db, id, v)
    ensures DbInv(Apply(db, id, v, result, now).0)
  {
    ApplyCounts(db, id, v, result, now);
    ApplyRows(db, id, v, result, now);
    ApplyKeepsTokens(db, id, v, result, now);
    ApplyKeepsKeys(db, id, v, result, now);
    DocsStayOk(db, Apply(db, id, v, result, now).0, db.tokens[id].docId);
  }

  lemma {:induction false} ApplyEvolves(db: Db, id: TokenId, v: int, result: Classification, now: Time)
    requires DbInv(db) && Classifiable(db, id, v)
    ensures Evolves(db, Apply(db, id, v, result, now).0)
  {
    ApplyCounts(db, id, v, result, now);
    var db' := Apply(db, id, v, result, now).0;
    assert DocsEvolve(db, db');
    assert TokensEvolve(db, db');
  }

  lemma {:induction false} ApplyNeedsNoMore(db: Db, id: TokenId, v: int, result: Classification, now: Time, job: Job)
    requires DbInv(db) && Needed(Apply(db, id, v, result, now).0, job)
    ensures Needed(db, job)
  {
  }

  lemma {:induction false} ApplyKeepsTables(db: Db, id: TokenId, v: int, result: Classification, now: Time)
    requires DbInv(db)
    ensures GoodTransition(db, Apply(db, id, v, result, now).0)
  {
    if Classifiable(db, id, v) {
      ApplyKeepsInv(db, id, v, result, now);
      ApplyEvolves(db, id, v, result, now);
      forall job | Needed(Apply(db, id, v, result, now).0, job) ensures Needed(db, job) {
        ApplyNeedsNoMore(db, id, v, result, now, job);
      }
    } else {
      NoChangeIsGood(db);
    }
  }

  /******* Submit *******/

  lemma {:induction false} FreshRunIsEmpty(db: Db, tokens: map<TokenId, Token>, d: DocId, doc: Document)
    requires d in db.docs && db.docs[d] == doc && db.tokens == tokens
    requires forall i :: i in tokens ==> tokens[i].docId != d
    requires 1 <= doc.runVersion && doc.status == Pending && doc.totalTokens == 0 && doc.classifiedCount == 0
    ensures DocRowOk(db, d)
  {
    assert forall i :: i !in RunTokens(tokens, d, doc.runVersion);
    assert forall i :: i !in ClassifiedTokens(tokens, d, doc.runVersion);
  }

  lemma {:induction false} SubmitNewRunKeepsInv(db: Db, d: DocId, text: string, mode: RerunMode, row: RowId)
    requires DbInv(db) && row !in db.usedRows
    requires d !in db.docs || mode == RerunFull
    ensures DbInv(Submit(db, d, text, mode, row).0)
  {
    var (db', r) := Submit(db, d, text, mode, row);
    assert d in db.docs ==> DocRowOk(db, d);
    forall i | i in db'.tokens ensures db'.tokens[i].docId != d {
      assert TokenOk(db, db.tokens[i]);
    }
    FreshRunIsEmpty(db', db'.tokens, d, r.document);
    DocsStayOk(db, db', d);
    TokensStayOk(db, db', d);
  }

  /** A partial submit of an existing document writes nothing but its outbox row. */
  lemma {:induction false} SubmitAgainKeepsInv(db: Db, d: DocId, text: string, row: RowId)
    requires DbInv(db) && row !in db.usedRows && d in db.docs
    ensures Submit(db, d, text, RerunPartial, row).0.docs == db.docs
    ensures Submit(db, d, text, RerunPartial, row).0.tokens == db.tokens
    ensures DbInv(Submit(db, d, text, RerunPartial, row).0)
  {
    var db' := Submit(db, d, text, RerunPartial, row).0;
    assert DocRowOk(db, d);
    forall x | x in db'.docs ensures DocRowOk(db', x) {
      assert DocRowOk(db, x);
    }
    forall i | i in db'.tokens ensures TokenOk(db', db'.tokens[i]) {
      assert TokenOk(db, db.tokens[i]);
    }
  }

  lemma {:induction false} SubmitKeepsInv(db: Db, d: DocId, text: string, mode: RerunMode, row: RowId)
    requires DbInv(db) && row !in db.usedRows
    ensures DbInv(Submit(db, d, text, mode, row).0)
  {
    if d !in db.docs || mode == RerunFull {
      SubmitNewRunKeepsInv(db, d, text, mode, row);
    } else {
      SubmitAgainKeepsInv(db, d, text, row);
    }
  }

  lemma {:induction false} SubmitEvolves(db: Db, d: DocId, text: string, mode: RerunMode, row: RowId)
    requires DbInv(db) && row !in db.usedRows
    ensures Evolves(db, Submit(db, d, text, mode, row).0)
    ensures OutboxGrows(db, Submit(db, d, text, mode, row).0)
  {
    var db' := Submit(db, d, text, mode, row).0;
    assert d in db.docs ==> DocRowOk(db, d);
    assert DocsEvolve(db, db');
    assert TokensEvolve(db, db');
  }

  lemma {:induction false} SubmitCovers(db: Db, d: DocId, text: string, mode: RerunMode, row: RowId)
    requires DbInv(db) && row !in db.usedRows
    requires SubmitDecision(db, d, text, mode).accepted
    ensures Covers(db, Submit(db, d, text, mode, row).0)
    ensures AddsGoodJobs(db, Submit(db, d, text, mode, row).0)
  {
    var (db', r) := Submit(db, d, text, mode, row);
    var mine := ExtractJob(d, r.document.runVersion);
    assert row in db'.outbox && db'.outbox[row] == mine;
    forall job | Needed(db', job) && job != mine ensures Needed(db, job) {
      if job.ExtractJob? { assert job.docId != d; }
    }
  }

  lemma {:induction false} SubmitKeepsTables(db: Db, d: DocId, text: string, mode: RerunMode, row: RowId)
    requires DbInv(db) && row !in db.usedRows
    ensures GoodTransition(db, Submit(db, d, text, mode, row).0)
  {
    if SubmitDecision(db, d, text, mode).accepted {
      SubmitKeepsInv(db, d, text, mode, row);
      SubmitEvolves(db, d, text, mode, row);
      SubmitCovers(db, d, text, mode, row);
    } else {
      NoChangeIsGood(db);
    }
  }

  /******* Persist *******/

  /** Shape of the rows that an upsert adds. */
  lemma {:induction false} AddedRows(tokens: map<TokenId, Token>, d: DocId, v: int, es: seq<Entity>,
                                     ids: seq<TokenId>, i: TokenId)
    requires |ids| == |es|
    requires i in Added(tokens, d, v, es, ids)
    ensures i in ids
    ensures exists e :: e in es && Added(tokens, d, v, es, ids)[i] == NewToken(d, v, e)
  {
    var n := |es| - 1;
    if i in Added(tokens, d, v, es[..n], ids[..n])
       && !(i == ids[n] && !HasKey(tokens + Added(tokens, d, v, es[..n], ids[..n]), d, v, es[n])) {
      AddedRows(tokens, d, v, es[..n], ids[..n], i);
    } else {
      assert i == ids[n] && es[n] in es;
    }
  }

  /** Upserting keeps natural keys unique. */
  lemma {:induction false} AddedKeepsKeysUnique(tokens: map<TokenId, Token>, d: DocId, v: int, es: seq<Entity>,
                                                ids: seq<TokenId>)
    requires |ids| == |es| && KeysUnique(tokens)
    requires forall k :: 0 <= k < |ids| ==> ids[k] !in tokens
    ensures KeysUnique(tokens + Added(tokens, d, v, es, ids))
  {
    if es == [] {
      assert tokens + Added(tokens, d, v, es, ids) == tokens;
    } else {
      var n := |es| - 1;
      AddedKeepsKeysUnique(tokens, d, v, es[..n], ids[..n]);
      var before := tokens + Added(tokens, d, v, es[..n], ids[..n]);
      if !HasKey(before, d, v, es[n]) {
        var after := tokens + Added(tokens, d, v, es, ids);
        assert after == before[ids[n] := NewToken(d, v, es[n])];
        forall i, j | i in after && j in after && Collide(after[i], after[j]) ensures i == j {
          if i != ids[n] && j != ids[n] { assert Collide(before[i], before[j]); }
        }
      }
    }
  }

  lemma {:induction false} RowsKeys(rows: seq<RowId>, jobs: seq<Job>)
    requires |rows| == |jobs|
    ensures Rows(rows, jobs).Keys == Elements(rows)
  {
    if jobs != [] {
      var n := |jobs| - 1;
      RowsKeys(rows[..n], jobs[..n]);
      assert rows == rows[..n] + [rows[n]];
    }
  }

  /** The k-th row of an ascending list carries the k-th job. */
  lemma {:induction false} RowHolds(rows: seq<RowId>, jobs: seq<Job>, k: nat)
    requires |rows| == |jobs| && Increasing(rows) && k < |rows|
    ensures rows[k] in Rows(rows, jobs) && Rows(rows, jobs)[rows[k]] == jobs[k]
  {
    var n := |jobs| - 1;
    if k < n {
      RowHolds(rows[..n], jobs[..n], k);
    }
  }

  lemma {:induction false} RowsHold(rows: seq<RowId>, jobs: seq<Job>)
    requires |rows| == |jobs| && Increasing(rows)
    ensures Rows(rows, jobs).Keys == Elements(rows)
    ensures forall k :: 0 <= k < |rows| ==> rows[k] in Rows(rows, jobs) && Rows(rows, jobs)[rows[k]] == jobs[k]
  {
    RowsKeys(rows, jobs);
    forall k | 0 <= k < |rows| ensures rows[k] in Rows(rows, jobs) && Rows(rows, jobs)[rows[k]] == jobs[k] {
      RowHolds(rows, jobs, k);
    }
  }

  /** The tables after a persist, before its jobs are enqueued. */
  ghost function PersistedRows(db: Db, d: DocId, v: int, es: seq<Entity>, ids: seq<TokenId>, now: Time): Db
    requires |ids| == |es| && Current(db, d, v)
  {
    var tokens := Upserted(db, d, v, es, ids);
    db.(tokens := tokens, usedTokens := db.usedTokens + Elements(ids),
        docs := db.docs[d := Advanced(db.docs[d], |RunTokens(tokens, d, v)|, now)])
  }

  lemma {:induction false} UpsertKeepsOthers(db: Db, d: DocId, v: int, es: seq<Entity>, ids: seq<TokenId>)
    requires DbInv(db) && |ids| == |es| && Fresh(ids, db.usedTokens)
    ensures var tokens := Upserted(db, d, v, es, ids);
            && (forall i :: i in db.tokens ==> i in tokens && tokens[i] == db.tokens[i])
            && (forall i :: i in tokens && i !in db.tokens ==>
                  && i in ids && i !in db.usedTokens
                  && OfRun(tokens[i], d, v) && tokens[i].status == TokenPending && tokens[i].result == None)
            && KeysUnique(tokens)
            && ClassifiedTokens(tokens, d, v) == ClassifiedTokens(db.tokens, d, v)
            && RunTokens(db.tokens, d, v) <= RunTokens(tokens, d, v)
  {
    var added := Added(db.tokens, d, v, es, ids);
    var tokens := Upserted(db, d, v, es, ids);
    forall i | i in added
      ensures i in ids && i !in db.usedTokens && i !in db.tokens
      ensures OfRun(tokens[i], d, v) && tokens[i].status == TokenPending && tokens[i].result == None
    {
      AddedRows(db.tokens, d, v, es, ids, i);
    }
    AddedKeepsKeysUnique(db.tokens, d, v, es, ids);
  }

  lemma {:induction false} PersistKeepsRows(db: Db, d: DocId, v: int, es: seq<Entity>, ids: seq<TokenId>, now: Time)
    requires DbInv(db) && |ids| == |es| && Fresh(ids, db.usedTokens) && Current(db, d, v)
    ensures DbInv(PersistedRows(db, d, v, es, ids, now))
  {
    UpsertKeepsOthers(db, d, v, es, ids);
    var db' := PersistedRows(db, d, v, es, ids, now);
    var all, done := RunTokens(db'.tokens, d, v), ClassifiedTokens(db'.tokens, d, v);
    assert DocRowOk(db, d);
    assert done <= all;
    assert |all| == 0 ==> all == {};
    assert DocRowOk(db', d);
    assert OnlyDoc(db, db', d);
    DocsStayOk(db, db', d);
    forall i | i in db'.tokens && db'.tokens[i].docId == d ensures i in db'.usedTokens && TokenOk(db', db'.tokens[i]) {
      if i in db.tokens { assert TokenOk(db, db.tokens[i]); }
    }
    TokensStayOk(db, db', d);
  }

  lemma {:induction false} PersistEvolves(db: Db, d: DocId, v: int, es: seq<Entity>, ids: seq<TokenId>, now: Time)
    requires DbInv(db) && |ids| == |es| && Fresh(ids, db.usedTokens) && Current(db, d, v)
    ensures Evolves(db, PersistedRows(db, d, v, es, ids, now))
  {
    UpsertKeepsOthers(db, d, v, es, ids);
    var db' := PersistedRows(db, d, v, es, ids, now);
    assert DocsEvolve(db, db');
    assert TokensEvolve(db, db');
  }

  lemma {:induction false} PersistKeepsTables(db: Db, d: DocId, v: int, es: seq<Entity>, ids: seq<TokenId>,
                                              rows: seq<RowId>, now: Time)
    requires DbInv(db) && |ids| == |es| && Fresh(ids, db.usedTokens) && Fresh(rows, db.usedRows)
    requires |rows| == |PersistJobs(db, d, v, es, ids)|
    ensures GoodTransition(db, Persist(db, d, v, es, ids, rows, now).0)
  {
    if !Current(db, d, v) {
      NoChangeIsGood(db);
      return;
    }
    PersistKeepsRows(db, d, v, es, ids, now);
    PersistEvolves(db, d, v, es, ids, now);
    var mid := PersistedRows(db, d, v, es, ids, now);
    var jobs := PersistJobs(db, d, v, es, ids);
    var db' := Persist(db, d, v, es, ids, rows, now).0;
    assert db' == Enqueue(mid, rows, jobs);
    RowsHold(rows, jobs);
    EnqueueKeepsTables(mid, rows, jobs);
    assert Evolves(db, db');
    PersistCovers(db, d, v, es, ids, rows, now);
  }

  lemma {:induction false} EnqueueKeepsTables(db: Db, rows: seq<RowId>, jobs: seq<Job>)
    requires DbInv(db) && |rows| == |jobs| && Fresh(rows, db.usedRows)
    ensures DbInv(Enqueue(db, rows, jobs))
    ensures OutboxGrows(db, Enqueue(db, rows, jobs))
  {
    RowsHold(rows, jobs);
    var db' := Enqueue(db, rows, jobs);
    forall x | x in db'.docs ensures DocRowOk(db', x) {
      assert DocRowOk(db, x);
    }
    forall i | i in db'.tokens ensures TokenOk(db', db'.tokens[i]) {
      assert TokenOk(db, db.tokens[i]);
    }
  }

  /** Each token left pending by a persist gets a row carrying its own job. */
  lemma {:induction false} PendingGetsRow(db: Db, d: DocId, v: int, es: seq<Entity>, ids: seq<TokenId>,
                                          rows: seq<RowId>, now: Time, i: TokenId)
      returns (r: RowId)
    requires DbInv(db) && |ids| == |es| && Current(db, d, v) && Increasing(rows)
    requires |rows| == |PersistJobs(db, d, v, es, ids)|
    requires i in PendingTokens(Upserted(db, d, v, es, ids), d, v)
    ensures var db' := Persist(db, d, v, es, ids, rows, now).0;
            r in rows && r in db'.outbox && db'.outbox[r] == ClassifyJob(i, d, v)
  {
    var pending := PendingTokens(Upserted(db, d, v, es, ids), d, v);
    OrderedListsAll(pending);
    RowsHold(rows, PersistJobs(db, d, v, es, ids));
    assert i in Elements(Ordered(pending));
    var k :| 0 <= k < |Ordered(pending)| && Ordered(pending)[k] == i;
    r := rows[k];
  }

  lemma {:induction false} PersistCovers(db: Db, d: DocId, v: int, es: seq<Entity>, ids: seq<TokenId>,
                                         rows: seq<RowId>, now: Time)
    requires DbInv(db) && |ids| == |es| && Fresh(ids, db.usedTokens) && Fresh(rows, db.usedRows)
    requires |rows| == |PersistJobs(db, d, v, es, ids)| && Current(db, d, v)
    ensures Covers(db, Persist(db, d, v, es, ids, rows, now).0)
    ensures AddsGoodJobs(db, Persist(db, d, v, es, ids, rows, now).0)
  {
    var db' := Persist(db, d, v, es, ids, rows, now).0;
    var jobs := PersistJobs(db, d, v, es, ids);
    var pending := PendingTokens(Upserted(db, d, v, es, ids), d, v);
    UpsertKeepsOthers(db, d, v, es, ids);
    forall job | Needed(db', job) && !Needed(db, job)
      ensures exists r :: r in db'.outbox && db'.outbox[r] == job
    {
      var r := PendingGetsRow(db, d, v, es, ids, rows, now, job.tokenId);
    }
    RowsHold(rows, jobs);
    OrderedListsAll(pending);
    forall r | r in db'.outbox && r !in db.outbox ensures JobOk(db', db'.outbox[r]) {
      var k :| 0 <= k < |rows| && rows[k] == r;
      assert jobs[k].tokenId in Elements(Ordered(pending));
      var i := jobs[k].tokenId;
      assert i in db.tokens ==> TokenOk(db, db.tokens[i]);
    }
  }
}
