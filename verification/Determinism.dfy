/** With a deterministic extractor and classifier, every schedule ends in the same tables: those of a
    one-line sequential specification. */
module Determinism {
  import opened Domain
  import opened Collections
  import opened Store
  import opened TableInvariant
  import opened Protocol
  import opened Safety
  import opened Runs

  datatype Oracles = Oracles(extract: string -> seq<Entity>, classify: Entity -> Classification)

  /******* The sequential specification *******/

  predicate KeyIn(es: seq<Entity>, e: Entity) {
    exists x | x in es :: SameKey(x, e)
  }

  /** Each entity whose natural key has not occurred before it. */
  function FirstByKey(es: seq<Entity>): seq<Entity> {
    if es == [] then [] else
      var n := |es| - 1;
      var firsts := FirstByKey(es[..n]);
      if KeyIn(firsts, es[n]) then firsts else firsts + [es[n]]
  }

  /** What the pipeline is for: extract, then classify each entity. */
  function Spec(o: Oracles, text: string): seq<(Entity, Option<Classification>)> {
    var es := FirstByKey(o.extract(text));
    seq(|es|, k requires 0 <= k < |es| => (es[k], Some(o.classify(es[k]))))
  }

  lemma {:induction false} FirstByKeyKeepsKeys(es: seq<Entity>, e: Entity)
    ensures KeyIn(es, e) <==> KeyIn(FirstByKey(es), e)
  {
    if es != [] {
      var n := |es| - 1;
      assert es == es[..n] + [es[n]];
      FirstByKeyKeepsKeys(es[..n], e);
      var firsts := FirstByKey(es[..n]);
      if SameKey(es[n], e) && KeyIn(firsts, es[n]) {
        var x :| x in firsts && SameKey(x, es[n]);
        assert SameKey(x, e);
      }
      if x :| x in firsts && SameKey(x, e) { assert x in FirstByKey(es); }
      if KeyIn(es, e) {
        var x :| x in es && SameKey(x, e);
        assert x in es[..n] || x == es[n];
      }
      if x :| x in es[..n] && SameKey(x, e) { assert x in es; }
    }
  }

  ghost predicate DistinctKeys(es: seq<Entity>) {
    forall i, j :: 0 <= i < j < |es| ==> !SameKey(es[i], es[j])
  }

  /** An extractor that never repeats a key loses nothing to deduplication. */
  lemma {:induction false} DistinctKeysAllKept(es: seq<Entity>)
    requires DistinctKeys(es)
    ensures FirstByKey(es) == es
  {
    if es != [] {
      var n := |es| - 1;
      DistinctKeysAllKept(es[..n]);
      forall x | x in es[..n] ensures !SameKey(x, es[n]) {
        var i :| 0 <= i < n && es[i] == x;
      }
      assert es[..n] + [es[n]] == es;
    }
  }

  /******* Reading the tables *******/

  ghost function Read(tokens: map<TokenId, Token>, ids: seq<TokenId>): seq<Entity>
    requires forall k :: 0 <= k < |ids| ==> ids[k] in tokens
  {
    seq(|ids|, k requires 0 <= k < |ids| => tokens[ids[k]].entity)
  }

  /** The entities of a run, in id order. */
  ghost function Listing(tokens: map<TokenId, Token>, d: DocId, v: int): seq<Entity> {
    OrderedListsAll(RunTokens(tokens, d, v));
    var ids := Ordered(RunTokens(tokens, d, v));
    assert forall k :: 0 <= k < |ids| ==> ids[k] in Elements(ids);
    Read(tokens, ids)
  }

  /** The rows of the current run of `d`, in id order. */
  ghost function Table(db: Db, d: DocId): seq<(Entity, Option<Classification>)>
    requires d in db.docs
  {
    var run := RunTokens(db.tokens, d, db.docs[d].runVersion);
    OrderedListsAll(run);
    var ids := Ordered(run);
    assert forall k :: 0 <= k < |ids| ==> ids[k] in Elements(ids);
    seq(|ids|, k requires 0 <= k < |ids| => (db.tokens[ids[k]].entity, db.tokens[ids[k]].result))
  }

  lemma {:induction false} ListingDependsOnRun(a: map<TokenId, Token>, b: map<TokenId, Token>, d: DocId, v: int)
    requires RunTokens(a, d, v) == RunTokens(b, d, v)
    requires forall i :: i in RunTokens(a, d, v) ==> a[i].entity == b[i].entity
    ensures Listing(a, d, v) == Listing(b, d, v)
  {
    OrderedListsAll(RunTokens(a, d, v));
    var ids := Ordered(RunTokens(a, d, v));
    assert forall k :: 0 <= k < |ids| ==> ids[k] in Elements(ids);
  }

  lemma {:induction false} HasKeyIsKeyIn(tokens: map<TokenId, Token>, d: DocId, v: int, e: Entity)
    ensures HasKey(tokens, d, v, e) <==> KeyIn(Listing(tokens, d, v), e)
  {
    var run := RunTokens(tokens, d, v);
    OrderedListsAll(run);
    var ids, es := Ordered(run), Listing(tokens, d, v);
    if HasKey(tokens, d, v, e) {
      var i :| i in tokens && OfRun(tokens[i], d, v) && SameKey(tokens[i].entity, e);
      assert i in Elements(ids);
      var k :| 0 <= k < |ids| && ids[k] == i;
      assert es[k] in es && SameKey(es[k], e);
    }
    if KeyIn(es, e) {
      var x :| x in es && SameKey(x, e);
      var k :| 0 <= k < |es| && es[k] == x;
      assert ids[k] in Elements(ids);
      assert OfRun(tokens[ids[k]], d, v) && SameKey(tokens[ids[k]].entity, e);
    }
  }

  /******* The first persist of a run writes the specification; later ones write nothing *******/

  lemma {:induction false} RunGains(tokens: map<TokenId, Token>, d: DocId, v: int, id: TokenId, e: Entity)
    requires id !in tokens
    ensures RunTokens(tokens[id := NewToken(d, v, e)], d, v) == RunTokens(tokens, d, v) + {id}
  {
    var after := tokens[id := NewToken(d, v, e)];
    assert forall i :: i in RunTokens(after, d, v) <==> i == id || i in RunTokens(tokens, d, v);
  }

  lemma {:induction false} ReadOneMore(tokens: map<TokenId, Token>, ids: seq<TokenId>, id: TokenId, token: Token)
    requires id !in tokens && forall k :: 0 <= k < |ids| ==> ids[k] in tokens
    ensures forall k :: 0 <= k < |ids + [id]| ==> (ids + [id])[k] in tokens[id := token]
    ensures Read(tokens[id := token], ids + [id]) == Read(tokens, ids) + [token.entity]
  {
  }

  lemma {:induction false} ListingAppend(tokens: map<TokenId, Token>, d: DocId, v: int, id: TokenId, e: Entity)
    requires id !in tokens && forall i :: i in RunTokens(tokens, d, v) ==> i < id
    ensures Listing(tokens[id := NewToken(d, v, e)], d, v) == Listing(tokens, d, v) + [e]
  {
    var run := RunTokens(tokens, d, v);
    RunGains(tokens, d, v, id, e);
    OrderedAppend(run, id);
    OrderedListsAll(run);
    var ids := Ordered(run);
    assert forall k :: 0 <= k < |ids| ==> ids[k] in Elements(ids);
    ReadOneMore(tokens, ids, id, NewToken(d, v, e));
  }

  lemma {:induction false} UpsertIntoEmptyRun(tokens: map<TokenId, Token>, d: DocId, v: int, es: seq<Entity>,
                                              ids: seq<TokenId>)
    requires |ids| == |es| && Increasing(ids) && RunTokens(tokens, d, v) == {}
    requires forall k :: 0 <= k < |ids| ==> ids[k] !in tokens
    ensures Listing(tokens + Added(tokens, d, v, es, ids), d, v) == FirstByKey(es)
  {
    if es == [] {
      assert tokens + Added(tokens, d, v, es, ids) == tokens;
      assert |Ordered(RunTokens(tokens, d, v))| == 0;
    } else {
      var n := |es| - 1;
      var before := Added(tokens, d, v, es[..n], ids[..n]);
      UpsertIntoEmptyRun(tokens, d, v, es[..n], ids[..n]);
      HasKeyIsKeyIn(tokens + before, d, v, es[n]);
      if !HasKey(tokens + before, d, v, es[n]) {
        forall i | i in before ensures i < ids[n] {
          AddedRows(tokens, d, v, es[..n], ids[..n], i);
        }
        NewestInRun(tokens, before, d, v, ids[n]);
        assert tokens + Added(tokens, d, v, es, ids) == (tokens + before)[ids[n] := NewToken(d, v, es[n])];
        ListingAppend(tokens + before, d, v, ids[n], es[n]);
      }
    }
  }

  lemma {:induction false} NewestInRun(tokens: map<TokenId, Token>, before: map<TokenId, Token>, d: DocId, v: int,
                                       id: TokenId)
    requires RunTokens(tokens, d, v) == {} && forall i :: i in before ==> i < id
    ensures forall i :: i in RunTokens(tokens + before, d, v) ==> i < id
  {
    forall i | i in RunTokens(tokens + before, d, v) ensures i < id {
      assert i in before || i in RunTokens(tokens, d, v);
    }
  }

  lemma {:induction false} UpsertOfKnownKeys(tokens: map<TokenId, Token>, d: DocId, v: int, es: seq<Entity>,
                                             ids: seq<TokenId>)
    requires |ids| == |es| && forall e :: e in es ==> HasKey(tokens, d, v, e)
    ensures Added(tokens, d, v, es, ids) == map[]
  {
    if es != [] {
      var n := |es| - 1;
      assert forall e :: e in es[..n] ==> e in es;
      UpsertOfKnownKeys(tokens, d, v, es[..n], ids[..n]);
      assert tokens + Added(tokens, d, v, es[..n], ids[..n]) == tokens;
      assert es[n] in es;
    }
  }

  /** Extraction is idempotent: upserting what a run already lists adds no row. */
  lemma {:induction false} UpsertAgainAddsNothing(tokens: map<TokenId, Token>, d: DocId, v: int, es: seq<Entity>,
                                                  ids: seq<TokenId>)
    requires |ids| == |es| && Listing(tokens, d, v) == FirstByKey(es)
    ensures Added(tokens, d, v, es, ids) == map[]
    ensures tokens + Added(tokens, d, v, es, ids) == tokens
  {
    forall e | e in es ensures HasKey(tokens, d, v, e) {
      assert SameKey(e, e) && KeyIn(es, e);
      FirstByKeyKeepsKeys(es, e);
      HasKeyIsKeyIn(tokens, d, v, e);
    }
    UpsertOfKnownKeys(tokens, d, v, es, ids);
  }

  /******* Deterministic runs *******/

  ghost predicate Obeys(o: Oracles, s: State, e: Event)
    requires Enabled(s, e)
  {
    && (e.ExtractDoc? ==> e.entities == o.extract(s.handlers[e.h].phase.snap.text))
    && (e.ScoreToken? ==> e.result == o.classify(s.handlers[e.h].phase.tok.entity))
  }

  ghost predicate ObeysRun(o: Oracles, run: Run)
    requires Valid(run)
  {
    run.Then? ==> ObeysRun(o, run.before) && Obeys(o, Last(run.before), run.event)
  }

  ghost predicate HandlerProv(o: Oracles, p: Phase) {
    && (p.Extracted? ==> p.entities == o.extract(p.snap.text))
    && (p.Scored? ==> p.result == o.classify(p.tok.entity))
  }

  ghost predicate HandlersProv(o: Oracles, s: State) {
    forall h :: h in s.handlers ==> HandlerProv(o, s.handlers[h].phase)
  }

  ghost predicate DocProv(o: Oracles, db: Db, d: DocId)
    requires d in db.docs
  {
    PastExtraction(db.docs[d]) ==>
      Listing(db.tokens, d, db.docs[d].runVersion) == FirstByKey(o.extract(db.docs[d].text))
  }

  ghost predicate DocsProv(o: Oracles, db: Db) {
    forall d :: d in db.docs ==> DocProv(o, db, d)
  }

  ghost predicate ResultsProv(o: Oracles, db: Db) {
    forall i :: i in db.tokens && db.tokens[i].status == TokenClassified ==>
      db.tokens[i].result == Some(o.classify(db.tokens[i].entity))
  }

  /** Every row stems from the current text of its document. */
  ghost predicate Prov(o: Oracles, s: State) {
    HandlersProv(o, s) && DocsProv(o, s.db) && ResultsProv(o, s.db)
  }

  lemma {:induction false} HandlersStayProv(o: Oracles, s: State, e: Event)
    requires Enabled(s, e) && Obeys(o, s, e) && HandlersProv(o, s)
    ensures HandlersProv(o, Next(s, e))
  {
    forall h | h in Next(s, e).handlers ensures HandlerProv(o, Next(s, e).handlers[h].phase) {
      if h in s.handlers { assert HandlerProv(o, s.handlers[h].phase); }
    }
  }

  /** What a change to document `d` must leave alone, and what it must establish. */
  lemma {:induction false} DocsStayProv(o: Oracles, a: Db, b: Db, d: DocId)
    requires DocsProv(o, a) && OnlyDoc(a, b, d) && d in b.docs && DocProv(o, b, d)
    ensures DocsProv(o, b)
  {
    forall x | x in b.docs ensures DocProv(o, b, x) {
      if x != d {
        assert DocProv(o, a, x);
        var v := a.docs[x].runVersion;
        SameRun(a.tokens, b.tokens, x, v);
        ListingDependsOnRun(a.tokens, b.tokens, x, v);
      }
    }
  }

  lemma {:induction false} ClaimStaysProv(o: Oracles, db: Db, d: DocId, now: Time)
    requires DbInv(db) && DocsProv(o, db)
    ensures DocsProv(o, Claim(db, d, now).0)
  {
    var db' := Claim(db, d, now).0;
    if d in db.docs {
      assert DocProv(o, db, d);
      DocsStayProv(o, db, db', d);
    }
  }

  lemma {:induction false} SubmitStaysProv(o: Oracles, db: Db, d: DocId, text: string, mode: RerunMode, row: RowId)
    requires DbInv(db) && DocsProv(o, db)
    ensures DocsProv(o, Submit(db, d, text, mode, row).0)
  {
    var (db', r) := Submit(db, d, text, mode, row);
    if r.accepted {
      assert d in db.docs ==> DocProv(o, db, d) && DocRowOk(db, d);
      assert forall i :: i in db.tokens ==> TokenOk(db, db.tokens[i]);
      DocsStayProv(o, db, db', d);
    }
  }

  lemma {:induction false} ApplyStaysProv(o: Oracles, db: Db, id: TokenId, v: int, result: Classification, now: Time)
    requires DbInv(db) && DocsProv(o, db)
    ensures DocsProv(o, Apply(db, id, v, result, now).0)
  {
    var db' := Apply(db, id, v, result, now).0;
    if Classifiable(db, id, v) {
      ApplyCounts(db, id, v, result, now);
      var d := db.tokens[id].docId;
      assert DocProv(o, db, d);
      ListingDependsOnRun(db.tokens, db'.tokens, d, v);
      DocsStayProv(o, db, db', d);
    }
  }

  /** The rows of a run right after a persist are those of the specification, whether it is the first or not. */
  lemma {:induction false} PersistWritesSpec(o: Oracles, db: Db, d: DocId, v: int, ids: seq<TokenId>)
    requires DbInv(db) && DocsProv(o, db) && Current(db, d, v) && Fresh(ids, db.usedTokens)
    requires |ids| == |o.extract(db.docs[d].text)|
    ensures var es := o.extract(db.docs[d].text);
            && Listing(Upserted(db, d, v, es, ids), d, v) == FirstByKey(es)
            && (PastExtraction(db.docs[d]) ==> Upserted(db, d, v, es, ids) == db.tokens)
  {
    var es := o.extract(db.docs[d].text);
    assert DocProv(o, db, d) && DocRowOk(db, d);
    if PastExtraction(db.docs[d]) {
      UpsertAgainAddsNothing(db.tokens, d, v, es, ids);
    } else {
      FreshIdsAreUnused(db, ids);
      UpsertIntoEmptyRun(db.tokens, d, v, es, ids);
    }
  }

  lemma {:induction false} PersistStaysProv(o: Oracles, db: Db, d: DocId, v: int, ids: seq<TokenId>, rows: seq<RowId>,
                                            now: Time)
    requires DbInv(db) && DocsProv(o, db) && Current(db, d, v) && Fresh(ids, db.usedTokens)
    requires |ids| == |o.extract(db.docs[d].text)|
    requires |rows| == |PersistJobs(db, d, v, o.extract(db.docs[d].text), ids)|
    ensures DocsProv(o, Persist(db, d, v, o.extract(db.docs[d].text), ids, rows, now).0)
  {
    var es := o.extract(db.docs[d].text);
    var db' := Persist(db, d, v, es, ids, rows, now).0;
    PersistWritesSpec(o, db, d, v, ids);
    UpsertKeepsOthers(db, d, v, es, ids);
    assert OnlyDoc(db, db', d);
    DocsStayProv(o, db, db', d);
  }

  lemma {:induction false} PersistStepStaysProv(o: Oracles, s: State, h: HandlerId, ids: seq<TokenId>,
                                                rows: seq<RowId>, now: Time)
    requires Inv(s) && Prov(o, s) && CanPersist(s, h, ids, rows)
    ensures DocsProv(o, PersistOf(s, h, ids, rows, now))
    ensures ResultsProv(o, PersistOf(s, h, ids, rows, now))
  {
    var d, p := s.handlers[h].job.docId, s.handlers[h].phase;
    assert HandlerOk(s, s.handlers[h]) && HandlerProv(o, p);
    UpsertKeepsOthers(s.db, d, p.snap.runVersion, p.entities, ids);
    if Current(s.db, d, p.snap.runVersion) {
      PersistStaysProv(o, s.db, d, p.snap.runVersion, ids, rows, now);
    }
  }

  lemma {:induction false} ApplyStepStaysProv(o: Oracles, s: State, h: HandlerId, now: Time)
    requires Inv(s) && Prov(o, s) && Enabled(s, ApplyToken(h, now))
    ensures DocsProv(o, ApplyOf(s, h, now))
    ensures ResultsProv(o, ApplyOf(s, h, now))
  {
    var job, p := s.handlers[h].job, s.handlers[h].phase;
    assert HandlerOk(s, s.handlers[h]) && HandlerProv(o, p);
    ApplyStaysProv(o, s.db, job.tokenId, job.runVersion, p.result, now);
  }

  lemma {:induction false} StepStaysProv(o: Oracles, s: State, e: Event)
    requires Inv(s) && Prov(o, s) && Enabled(s, e) && Obeys(o, s, e)
    ensures Prov(o, Next(s, e))
  {
    HandlersStayProv(o, s, e);
    if e.SubmitDoc? {
      SubmitStaysProv(o, s.db, e.d, e.text, e.mode, e.row);
    } else if e.ClaimDoc? {
      ClaimStaysProv(o, s.db, s.handlers[e.h].job.docId, e.now);
    } else if e.PersistDoc? {
      PersistStepStaysProv(o, s, e.h, e.ids, e.rows, e.now);
    } else if e.ApplyToken? {
      ApplyStepStaysProv(o, s, e.h, e.now);
    } else {
      assert Next(s, e).db.docs == s.db.docs && Next(s, e).db.tokens == s.db.tokens;
      forall d | d in Next(s, e).db.docs ensures DocProv(o, Next(s, e).db, d) { assert DocProv(o, s.db, d); }
    }
  }

  lemma {:induction false} AlwaysProv(o: Oracles, run: Run)
    requires Valid(run) && ObeysRun(o, run)
    ensures Prov(o, Last(run))
  {
    if run.Then? {
      AlwaysProv(o, run.before);
      AlwaysInv(run.before);
      StepStaysProv(o, Last(run.before), run.event);
    }
  }

  /******* Main results *******/

  /** Nothing is left to publish, deliver or ack.  Handlers may still be running. */
  ghost predicate Quiescent(s: State) {
    s.db.outbox == map[] && forall m :: m in s.stream ==> s.stream[m].acked
  }

  lemma {:induction false} QuiescentIsFinished(run: Run)
    requires Valid(run) && Quiescent(Last(run))
    ensures var db := Last(run).db;
            && (forall d :: d in db.docs ==>
                  PastExtraction(db.docs[d]) && db.docs[d].classifiedCount == db.docs[d].totalTokens)
            && (forall i :: i in db.tokens ==> db.tokens[i].status == TokenClassified)
  {
    var s := Last(run);
    AlwaysInv(run);
    forall i | i in s.db.tokens ensures s.db.tokens[i].status == TokenClassified {
      if s.db.tokens[i].status == TokenPending { NoLostClassification(run, i); }
    }
    forall d | d in s.db.docs
      ensures PastExtraction(s.db.docs[d]) && s.db.docs[d].classifiedCount == s.db.docs[d].totalTokens
    {
      assert DocRowOk(s.db, d);
      if !PastExtraction(s.db.docs[d]) { NoLostExtraction(run, d); }
      var v := s.db.docs[d].runVersion;
      assert RunTokens(s.db.tokens, d, v) == ClassifiedTokens(s.db.tokens, d, v);
    }
  }

  /** Schedule independence: any interleaving, with any duplicates, crashes and reruns, that has come to rest
      leaves for each document exactly the rows of the specification for its last submitted text. */
  lemma {:induction false} ScheduleIndependence(o: Oracles, run: Run, d: DocId)
    requires Valid(run) && ObeysRun(o, run) && Quiescent(Last(run)) && d in Last(run).db.docs
    ensures Table(Last(run).db, d) == Spec(o, LastText(run, d))
  {
    var db := Last(run).db;
    QuiescentIsFinished(run);
    AlwaysProv(o, run);
    VersionCountsResubmits(run, d);
    assert DocProv(o, db, d);
    var v := db.docs[d].runVersion;
    OrderedListsAll(RunTokens(db.tokens, d, v));
    var ids := Ordered(RunTokens(db.tokens, d, v));
    var es := Listing(db.tokens, d, v);
    forall k | 0 <= k < |ids| ensures Table(db, d)[k] == (es[k], Some(o.classify(es[k]))) {
      assert ids[k] in Elements(ids);
      assert db.tokens[ids[k]].status == TokenClassified;
    }
  }

  /** Re-extraction converges: a persist that repeats one of the same run changes no token row and no total,
      and enqueues a job for each still-pending token, in id order, and for no other. */
  lemma {:induction false} ReExtractionConverges(o: Oracles, run: Run, h: HandlerId, ids: seq<TokenId>,
                                                 rows: seq<RowId>, now: Time)
    requires Valid(run) && ObeysRun(o, run) && Enabled(Last(run), PersistDoc(h, ids, rows, now))
    requires var s := Last(run);
             var d, snap := s.handlers[h].job.docId, s.handlers[h].phase.snap;
             Current(s.db, d, snap.runVersion) && PastExtraction(s.db.docs[d])
    ensures var s := Last(run);
            var d, v := s.handlers[h].job.docId, s.handlers[h].phase.snap.runVersion;
            var s' := Next(s, PersistDoc(h, ids, rows, now));
            && s'.db.tokens == s.db.tokens
            && s'.db.docs[d].totalTokens == s.db.docs[d].totalTokens
            && s'.db.docs[d].classifiedCount == s.db.docs[d].classifiedCount
            && s'.db.outbox == s.db.outbox + Rows(rows, ClassifyJobs(Ordered(PendingTokens(s.db.tokens, d, v)), d, v))
  {
    AlwaysInv(run);
    AlwaysProv(o, run);
    var s := Last(run);
    var d, p := s.handlers[h].job.docId, s.handlers[h].phase;
    assert HandlerOk(s, s.handlers[h]) && HandlerProv(o, p) && DocRowOk(s.db, d);
    PersistWritesSpec(o, s.db, d, p.snap.runVersion, ids);
  }
}
