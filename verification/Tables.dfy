/** The store as it is written: tables updated in place by single-purpose statements, and the four
    transactions composed from them.  Each transaction is proved to have the effect that Store defines. */
module Tables {
  import opened Domain
  import opened Collections
  import opened Store

  /** The ids that a sequence at n has handed out. */
  function Below(n: nat): (ids: set<int>)
    ensures forall i :: i in ids <==> 0 <= i < n
  {
    if n == 0 then {} else Below(n - 1) + {n - 1}
  }

  /** The k ids that a sequence at n hands out next. */
  function Drawn(n: nat, k: nat): seq<int> {
    seq(k, i => n + i)
  }

  lemma {:induction false} DrawnIsFresh(n: nat, k: nat)
    ensures Fresh(Drawn(n, k), Below(n))
    ensures Below(n) + Elements(Drawn(n, k)) == Below(n + k)
  {
    forall i | i in Below(n + k) && i !in Below(n) ensures i in Drawn(n, k) {
      assert Drawn(n, k)[i - n] == i;
    }
  }

  lemma {:induction false} DrawnOneMore(n: nat, k: nat)
    ensures Drawn(n, k + 1) == Drawn(n, k) + [n + k]
  {
  }

  lemma {:induction false} AddedSnoc(tokens: map<TokenId, Token>, d: DocId, v: int, es: seq<Entity>,
                                     ids: seq<TokenId>, e: Entity, id: TokenId)
    requires |ids| == |es|
    ensures var before := Added(tokens, d, v, es, ids);
            Added(tokens, d, v, es + [e], ids + [id]) ==
              if HasKey(tokens + before, d, v, e) then before else before[id := NewToken(d, v, e)]
  {
    assert (es + [e])[..|es|] == es && (ids + [id])[..|es|] == ids;
  }

  lemma {:induction false} RowsSnoc(rows: seq<RowId>, jobs: seq<Job>, row: RowId, job: Job)
    requires |rows| == |jobs|
    ensures Rows(rows + [row], jobs + [job]) == Rows(rows, jobs)[row := job]
  {
    assert (rows + [row])[..|rows|] == rows && (jobs + [job])[..|rows|] == jobs;
  }

  /** One more pending token extends the enqueued rows by its job. */
  lemma {:induction false} EnqueuedOneMore(outbox: map<RowId, Job>, n: nat, done: seq<TokenId>, id: TokenId, d: DocId,
                                           v: int)
    ensures (outbox + Rows(Drawn(n, |done|), ClassifyJobs(done, d, v)))[n + |done| := ClassifyJob(id, d, v)]
            == outbox + Rows(Drawn(n, |done + [id]|), ClassifyJobs(done + [id], d, v))
  {
    var jobs := ClassifyJobs(done, d, v);
    assert ClassifyJobs(done + [id], d, v) == jobs + [ClassifyJob(id, d, v)];
    DrawnOneMore(n, |done|);
    RowsSnoc(Drawn(n, |done|), jobs, n + |done|, ClassifyJob(id, d, v));
  }

  /** The listed ids whose token is still pending, in the order listed. */
  function PendingOf(tokens: map<TokenId, Token>, ids: seq<TokenId>): seq<TokenId> {
    if ids == [] then [] else
      var n := |ids| - 1;
      PendingOf(tokens, ids[..n]) + if ids[n] in tokens && tokens[ids[n]].status == TokenPending then [ids[n]] else []
  }

  lemma {:induction false} PendingOfKeepsOrder(tokens: map<TokenId, Token>, ids: seq<TokenId>)
    requires Increasing(ids)
    ensures Increasing(PendingOf(tokens, ids))
    ensures forall x :: x in PendingOf(tokens, ids) <==> x in ids && x in tokens && tokens[x].status == TokenPending
  {
    if ids != [] {
      var n := |ids| - 1;
      var before := PendingOf(tokens, ids[..n]);
      PendingOfKeepsOrder(tokens, ids[..n]);
      assert ids == ids[..n] + [ids[n]];
      forall j | 0 <= j < |before| ensures before[j] < ids[n] {
        assert before[j] in before;
      }
    }
  }

  lemma {:induction false} ListedAreTokens(tokens: map<TokenId, Token>, d: DocId, v: int)
    ensures var ids := Ordered(RunTokens(tokens, d, v)); forall k :: 0 <= k < |ids| ==> ids[k] in tokens
  {
    OrderedListsAll(RunTokens(tokens, d, v));
    var ids := Ordered(RunTokens(tokens, d, v));
    assert forall k :: 0 <= k < |ids| ==> ids[k] in Elements(ids);
  }

  /** Keeping the pending ids of a listed run lists them as ORDER BY id would. */
  lemma {:induction false} PendingOfRun(tokens: map<TokenId, Token>, d: DocId, v: int)
    ensures PendingOf(tokens, Ordered(RunTokens(tokens, d, v))) == Ordered(PendingTokens(tokens, d, v))
  {
    var ids := Ordered(RunTokens(tokens, d, v));
    OrderedListsAll(RunTokens(tokens, d, v));
    PendingOfKeepsOrder(tokens, ids);
    assert forall x :: x in ids <==> x in Elements(ids);
    OrderedIs(PendingOf(tokens, ids), PendingTokens(tokens, d, v));
  }

  /** The tables that the statements of persist leave behind are those of the transaction. */
  lemma {:induction false} PersistedTables(db: Db, d: DocId, v: int, es: seq<Entity>, ids: seq<TokenId>,
                                           rows: seq<RowId>, jobs: seq<Job>, now: Time, after: Db)
    requires Current(db, d, v) && |ids| == |es| && |rows| == |jobs| && jobs == PersistJobs(db, d, v, es, ids)
    requires after.tokens == Upserted(db, d, v, es, ids) && after.usedTokens == db.usedTokens + Elements(ids)
    requires after.docs == db.docs[d := Advanced(db.docs[d], |RunTokens(after.tokens, d, v)|, now)]
    requires after.outbox == db.outbox + Rows(rows, jobs) && after.usedRows == db.usedRows + Elements(rows)
    ensures Store.Persist(db, d, v, es, ids, rows, now) == (after, Ok(|RunTokens(after.tokens, d, v)|))
  {
  }

  lemma {:induction false} NothingPending(tokens: map<TokenId, Token>, d: DocId, v: int, m: nat)
    requires |RunTokens(tokens, d, v)| == 0
    ensures var jobs := ClassifyJobs(Ordered(PendingTokens(tokens, d, v)), d, v);
            jobs == [] && Rows(Drawn(m, |jobs|), jobs) == map[]
  {
    assert RunTokens(tokens, d, v) == {};
    assert PendingTokens(tokens, d, v) <= RunTokens(tokens, d, v);
  }

  /** SELECT ... ORDER BY id LIMIT. */
  ghost function FirstRows(outbox: map<RowId, Job>, limit: nat): seq<RowId> {
    var all := Ordered(outbox.Keys);
    if |all| <= limit then all else all[..limit]
  }

  /** Listing the elements below a bound gives a prefix of the listing of all. */
  lemma {:induction false} ListedBelow(s: set<int>, bound: int, q: seq<int>)
    requires Increasing(q) && forall x :: x in q <==> x in s && x < bound
    ensures |q| <= |Ordered(s)| && q == Ordered(s)[..|q|]
  {
    var rest := set x | x in s && x >= bound;
    OrderedListsAll(rest);
    var r := Ordered(rest);
    assert forall x :: x in r <==> x in Elements(r);
    forall i, j | 0 <= i < |q| && 0 <= j < |r| ensures q[i] < r[j] {
      assert q[i] in q && r[j] in r;
    }
    assert Increasing(q + r);
    OrderedIs(q + r, s);
  }

  class Database {
    var docs: map<DocId, Document>
    var tokens: map<TokenId, Token>
    var outbox: map<RowId, Job>
    var nextToken: nat
    var nextRow: nat

    /** Ids in use were handed out by the sequences. */
    ghost predicate Valid()
      reads this
    {
      (forall i :: i in tokens ==> 0 <= i < nextToken) && (forall r :: r in outbox ==> 0 <= r < nextRow)
    }

    ghost function Abs(): Db
      reads this
    {
      Db(docs, tokens, outbox, Below(nextToken), Below(nextRow))
    }

    constructor ()
      ensures Valid() && Abs() == EMPTY_DB
    {
      docs, tokens, outbox := map[], map[], map[];
      nextToken, nextRow := 0, 0;
      new;
      assert Below(0) == {};
    }

    /******* Statements on documents *******/

    method GetDocument(d: DocId) returns (r: Outcome<Document>)
      ensures r == if d in docs then Ok(docs[d]) else NotFound
    {
      if d in docs { r := Ok(docs[d]); } else { r := NotFound; }
    }

    /** The primary key makes a second insert of the same id fail. */
    method InsertDocument(d: DocId, text: string) returns (inserted: bool)
      modifies this`docs
      ensures inserted == (d !in old(docs))
      ensures docs == if inserted then old(docs)[d := NewDocument(text)] else old(docs)
    {
      inserted := d !in docs;
      if inserted { docs := docs[d := NewDocument(text)]; }
    }

    /** UPDATE ... WHERE id: no row, no change. */
    method UpdateDocument(d: DocId, doc: Document)
      modifies this`docs
      ensures docs == if d in old(docs) then old(docs)[d := doc] else old(docs)
    {
      if d in docs { docs := docs[d := doc]; }
    }

    method ResetDocument(d: DocId, text: string)
      modifies this`docs, this`tokens
      ensures tokens == WithoutDoc(old(tokens), d)
      ensures docs == if d in old(docs) then old(docs)[d := ResetDoc(old(docs)[d], text)] else old(docs)
    {
      tokens := map i | i in tokens && tokens[i].docId != d :: tokens[i];
      if d in docs { UpdateDocument(d, ResetDoc(docs[d], text)); }
    }

    method SetExtractionStarted(d: DocId, now: Time)
      modifies this`docs
      ensures docs == if d in old(docs)
                      then old(docs)[d := old(docs)[d].(status := Extracting, extractionStarted := Some(now))]
                      else old(docs)
    {
      if d in docs { UpdateDocument(d, docs[d].(status := Extracting, extractionStarted := Some(now))); }
    }

    method AdvanceToClassifying(d: DocId, total: int, now: Time)
      modifies this`docs
      ensures total != 0 && d in old(docs) ==> docs == old(docs)[d := Advanced(old(docs)[d], total, now)]
      ensures d !in old(docs) ==> docs == old(docs)
    {
      if d in docs {
        UpdateDocument(d, docs[d].(status := Classifying, totalTokens := total, extractionCompleted := Some(now),
                                   classificationStarted := Some(now)));
      }
    }

    method MarkExtractionCompletedEmpty(d: DocId, now: Time)
      modifies this`docs
      ensures docs == if d in old(docs) then old(docs)[d := Advanced(old(docs)[d], 0, now)] else old(docs)
    {
      if d in docs {
        UpdateDocument(d, docs[d].(status := Completed, totalTokens := 0, extractionCompleted := Some(now),
                                   classificationStarted := Some(now), classificationCompleted := Some(now)));
      }
    }

    method IncrementClassifiedCount(d: DocId) returns (n: Option<int>)
      modifies this`docs
      ensures d in old(docs) ==>
                && n == Some(old(docs)[d].classifiedCount + 1)
                && docs == old(docs)[d := old(docs)[d].(classifiedCount := old(docs)[d].classifiedCount + 1)]
      ensures d !in old(docs) ==> n == None && docs == old(docs)
    {
      n := None;
      if d in docs {
        n := Some(docs[d].classifiedCount + 1);
        UpdateDocument(d, docs[d].(classifiedCount := docs[d].classifiedCount + 1));
      }
    }

    method MarkDocumentCompleted(d: DocId, now: Time)
      modifies this`docs
      ensures docs == if d in old(docs)
                      then old(docs)[d := old(docs)[d].(status := Completed, classificationCompleted := Some(now))]
                      else old(docs)
    {
      if d in docs { UpdateDocument(d, docs[d].(status := Completed, classificationCompleted := Some(now))); }
    }

    /******* Statements on tokens *******/

    /** One INSERT ... ON CONFLICT DO NOTHING per entity; each draws an id, used or not. */
    method UpsertTokens(d: DocId, v: int, es: seq<Entity>)
      requires Valid()
      modifies this`tokens, this`nextToken
      ensures Valid()
      ensures nextToken == old(nextToken) + |es|
      ensures tokens == old(tokens) + Added(old(tokens), d, v, es, Drawn(old(nextToken), |es|))
    {
      var k := 0;
      while k < |es|
        invariant 0 <= k <= |es|
        invariant Valid()
        invariant nextToken == old(nextToken) + k
        invariant tokens == old(tokens) + Added(old(tokens), d, v, es[..k], Drawn(old(nextToken), k))
      {
        AddedSnoc(old(tokens), d, v, es[..k], Drawn(old(nextToken), k), es[k], nextToken);
        DrawnOneMore(old(nextToken), k);
        assert es[..k + 1] == es[..k] + [es[k]];
        if !HasKey(tokens, d, v, es[k]) {
          tokens := tokens[nextToken := NewToken(d, v, es[k])];
        }
        nextToken := nextToken + 1;
        k := k + 1;
      }
      assert es[..k] == es;
    }

    /** SELECT count(*): a scan over the ids handed out so far. */
    method CountTokens(d: DocId, v: int) returns (n: int)
      requires Valid()
      ensures n == |RunTokens(tokens, d, v)|
    {
      n := 0;
      ghost var seen: set<TokenId> := {};
      for i := 0 to nextToken
        invariant n == |seen|
        invariant forall x :: x in seen <==> 0 <= x < i && x in tokens && OfRun(tokens[x], d, v)
      {
        if i in tokens && OfRun(tokens[i], d, v) {
          seen := seen + {i};
          n := n + 1;
        }
      }
      assert forall x :: x in seen <==> x in RunTokens(tokens, d, v);
      assert seen == RunTokens(tokens, d, v);
    }

    /** All tokens of a run, ORDER BY id. */
    method ListTokensForRun(d: DocId, v: int) returns (ids: seq<TokenId>)
      requires Valid()
      ensures ids == Ordered(RunTokens(tokens, d, v))
    {
      ids := [];
      var i := 0;
      while i < nextToken
        invariant 0 <= i <= nextToken
        invariant Increasing(ids)
        invariant forall x :: x in ids <==> 0 <= x < i && x in tokens && OfRun(tokens[x], d, v)
      {
        if i in tokens && OfRun(tokens[i], d, v) {
          assert forall k :: 0 <= k < |ids| ==> ids[k] in ids;
          ids := ids + [i];
        }
        i := i + 1;
      }
      assert forall x :: x in ids <==> x in RunTokens(tokens, d, v);
      OrderedIs(ids, RunTokens(tokens, d, v));
    }

    method GetToken(id: TokenId) returns (r: Outcome<Token>)
      ensures r == if id in tokens then Ok(tokens[id]) else NotFound
    {
      if id in tokens { r := Ok(tokens[id]); } else { r := NotFound; }
    }

    method SetTokenClassified(id: TokenId, c: Classification)
      modifies this`tokens
      ensures tokens == if id in old(tokens)
                        then old(tokens)[id := old(tokens)[id].(status := TokenClassified, result := Some(c))]
                        else old(tokens)
    {
      if id in tokens { tokens := tokens[id := tokens[id].(status := TokenClassified, result := Some(c))]; }
    }

    /******* The outbox *******/

    method EnqueueOutbox(job: Job)
      requires Valid()
      modifies this`outbox, this`nextRow
      ensures Valid()
      ensures outbox == old(outbox)[old(nextRow) := job] && nextRow == old(nextRow) + 1
    {
      outbox := outbox[nextRow := job];
      nextRow := nextRow + 1;
    }

    /** Up to `limit` rows in id order, FOR UPDATE SKIP LOCKED: `locked` are the rows that other relays hold. */
    method ClaimOutboxBatch(limit: nat, locked: set<RowId>) returns (rows: seq<RowId>)
      requires Valid()
      ensures rows == FirstRows(outbox - locked, limit)
    {
      rows := [];
      var i := 0;
      ghost var free := (outbox - locked).Keys;
      while i < nextRow && |rows| < limit
        invariant 0 <= i <= nextRow && |rows| <= limit
        invariant Increasing(rows)
        invariant forall x :: x in rows <==> x in free && x < i
      {
        if i in outbox && i !in locked {
          assert forall k :: 0 <= k < |rows| ==> rows[k] in rows;
          rows := rows + [i];
        }
        i := i + 1;
      }
      ListedBelow(free, i, rows);
      if |rows| < limit {
        assert free == set x | x in free && x < i;
        OrderedIs(rows, free);
      }
    }

    method DeleteOutbox(row: RowId)
      requires Valid()
      modifies this`outbox
      ensures Valid() && outbox == old(outbox) - {row}
    {
      outbox := outbox - {row};
    }

    /** One classify job per listed token that is still pending. */
    method EnqueuePending(ids: seq<TokenId>, d: DocId, v: int)
      requires Valid() && forall k :: 0 <= k < |ids| ==> ids[k] in tokens
      modifies this`outbox, this`nextRow
      ensures Valid()
      ensures var jobs := ClassifyJobs(PendingOf(tokens, ids), d, v);
              nextRow == old(nextRow) + |jobs| && outbox == old(outbox) + Rows(Drawn(old(nextRow), |jobs|), jobs)
    {
      ghost var done: seq<TokenId> := [];
      var k := 0;
      while k < |ids|
        invariant 0 <= k <= |ids|
        invariant Valid()
        invariant done == PendingOf(tokens, ids[..k])
        invariant nextRow == old(nextRow) + |done|
        invariant outbox == old(outbox) + Rows(Drawn(old(nextRow), |done|), ClassifyJobs(done, d, v))
      {
        assert ids[..k + 1][..k] == ids[..k];
        if tokens[ids[k]].status != TokenClassified {
          EnqueuedOneMore(old(outbox), old(nextRow), done, ids[k], d, v);
          EnqueueOutbox(ClassifyJob(ids[k], d, v));
          done := done + [ids[k]];
        }
        k := k + 1;
      }
      assert ids[..k] == ids;
    }

    /******* ExtractionWorker.claim and persist *******/

    method Claim(d: DocId, now: Time) returns (r: Outcome<Document>)
      requires Valid()
      modifies this`docs
      ensures Valid()
      ensures Abs() == Store.Claim(old(Abs()), d, now).0 && r == Store.Claim(old(Abs()), d, now).1
    {
      r := GetDocument(d);
      if r.Ok? && r.value.status == Pending {
        SetExtractionStarted(d, now);
        r := Ok(r.value.(status := Extracting));
      }
    }

    /** The second half of persist: recount, advance the stage, fan out. */
    method AdvanceStage(d: DocId, v: int, now: Time) returns (total: int)
      requires Valid() && d in docs
      modifies this`docs, this`outbox, this`nextRow
      ensures Valid()
      ensures total == |RunTokens(tokens, d, v)|
      ensures docs == old(docs)[d := Advanced(old(docs)[d], total, now)]
      ensures var jobs := ClassifyJobs(Ordered(PendingTokens(tokens, d, v)), d, v);
              nextRow == old(nextRow) + |jobs| && outbox == old(outbox) + Rows(Drawn(old(nextRow), |jobs|), jobs)
    {
      total := CountTokens(d, v);
      if total == 0 {
        MarkExtractionCompletedEmpty(d, now);
        NothingPending(tokens, d, v, nextRow);
      } else {
        AdvanceToClassifying(d, total, now);
        var ids := ListTokensForRun(d, v);
        ListedAreTokens(tokens, d, v);
        PendingOfRun(tokens, d, v);
        EnqueuePending(ids, d, v);
      }
    }

    /** All of persist behind the fence. */
    method WriteExtraction(d: DocId, v: int, es: seq<Entity>, now: Time) returns (total: int)
      requires Valid() && Current(Abs(), d, v)
      modifies this
      ensures Valid()
      ensures var ids := Drawn(old(nextToken), |es|);
              var rows := Drawn(old(nextRow), |PersistJobs(old(Abs()), d, v, es, ids)|);
              Store.Persist(old(Abs()), d, v, es, ids, rows, now) == (Abs(), Ok(total))
    {
      ghost var db := Abs();
      ghost var ids := Drawn(nextToken, |es|);
      UpsertTokens(d, v, es);
      DrawnIsFresh(old(nextToken), |es|);
      assert tokens == Upserted(db, d, v, es, ids);
      total := AdvanceStage(d, v, now);
      ghost var jobs := PersistJobs(db, d, v, es, ids);
      DrawnIsFresh(old(nextRow), |jobs|);
      PersistedTables(db, d, v, es, ids, Drawn(old(nextRow), |jobs|), jobs, now, Abs());
    }

    method Persist(d: DocId, v: int, es: seq<Entity>, now: Time) returns (r: Outcome<int>)
      requires Valid()
      modifies this
      ensures Valid()
      ensures var ids := Drawn(old(nextToken), |es|);
              var rows := Drawn(old(nextRow), |PersistJobs(old(Abs()), d, v, es, ids)|);
              Store.Persist(old(Abs()), d, v, es, ids, rows, now) == (Abs(), r)
    {
      var cur := GetDocument(d);
      if cur.NotFound? { return NotFound; }
      if cur.value.runVersion != v { return StaleWrite; }
      var total := WriteExtraction(d, v, es, now);
      return Ok(total);
    }

    /******* ClassificationWorker.apply *******/

    method Apply(id: TokenId, v: int, result: Classification, now: Time) returns (r: Outcome<()>)
      requires Valid()
      modifies this`docs, this`tokens
      ensures Valid()
      ensures Abs() == Store.Apply(old(Abs()), id, v, result, now).0
              && r == Store.Apply(old(Abs()), id, v, result, now).1
    {
      var tok := GetToken(id);
      if tok.NotFound? { return NotFound; }
      if tok.value.runVersion != v { return StaleWrite; }
      if tok.value.status == TokenClassified { return Ok(()); }
      var doc := GetDocument(tok.value.docId);
      if doc.NotFound? { return NotFound; }
      if doc.value.runVersion != v { return StaleWrite; }
      SetTokenClassified(id, result);
      var count := IncrementClassifiedCount(tok.value.docId);
      if count.value >= doc.value.totalTokens {
        MarkDocumentCompleted(tok.value.docId, now);
      }
      return Ok(());
    }

    /******* DocumentService.Submit *******/

    method Submit(d: DocId, text: string, mode: RerunMode) returns (r: SubmitResult)
      requires Valid()
      modifies this
      ensures Valid()
      ensures Abs() == Store.Submit(old(Abs()), d, text, mode, old(nextRow)).0
      ensures r == Store.Submit(old(Abs()), d, text, mode, old(nextRow)).1
    {
      var existing := GetDocument(d);
      if existing.NotFound? {
        var _ := InsertDocument(d, text);
        r := SubmitResult(docs[d], true, false);
      } else if mode == RerunFull {
        ResetDocument(d, text);
        r := SubmitResult(docs[d], true, true);
      } else if existing.value.status == Completed {
        r := SubmitResult(existing.value, false, false);
      } else if existing.value.status == Failed {
        UpdateDocument(d, existing.value.(status := Pending));
        r := SubmitResult(existing.value.(status := Pending), true, false);
      } else {
        r := SubmitResult(existing.value, true, false);
      }
      if r.accepted {
        DrawnIsFresh(nextRow, 1);
        assert Elements(Drawn(nextRow, 1)) == {nextRow};
        assert docs == old(docs)[d := r.document];
        EnqueueOutbox(ExtractJob(d, r.document.runVersion));
      }
    }
  }
}
