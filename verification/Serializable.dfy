/** Every interleaving of statements has the effect of its commits, each an atomic transaction, in commit order. */
module Serializable {
  import opened Domain
  import opened Collections
  import opened Store
  import opened TableInvariant
  import opened Statements

  /******* What locks protect *******/

  ghost function DocOf(db: Db, d: DocId): Option<Document> {
    if d in db.docs then Some(db.docs[d]) else None
  }

  ghost function TokenOf(db: Db, i: TokenId): Option<Token> {
    if i in db.tokens then Some(db.tokens[i]) else None
  }

  ghost function Own(tokens: map<TokenId, Token>, d: DocId): map<TokenId, Token> {
    map i | i in tokens && tokens[i].docId == d :: tokens[i]
  }

  /** `db'` agrees with `db` on everything that the locks protect: a document's lock also covers its tokens. */
  ghost predicate Agree(db: Db, db': Db, locks: set<Lock>) {
    && (forall d :: DocRow(d) in locks ==> DocOf(db', d) == DocOf(db, d) && Own(db'.tokens, d) == Own(db.tokens, d))
    && (forall i :: TokenRow(i) in locks ==> TokenOf(db', i) == TokenOf(db, i))
  }

  /******* What holds of a transaction at each point of its body *******/

  ghost predicate Untouched(tx: Tx) {
    tx.locks == {} && tx.over == NOTHING
  }

  ghost predicate ClaimOk(tx: Tx, d: DocId, doc: Option<Document>) {
    match tx.pc
    case Begun => Untouched(tx)
    case HasDoc(read) => tx.locks == {DocRow(d)} && tx.over == NOTHING && doc == Some(read)
    case Ready(answer) =>
      && tx.locks == {DocRow(d)} && doc.Some?
      && (if doc.value.status == Pending
          then && tx.over == NOTHING.(docs := map[d := Started(doc.value, tx.now)])
               && answer == Claimed(doc.value.(status := Extracting))
          else tx.over == NOTHING && answer == Claimed(doc.value))
    case Failing(_) => true
    case _ => false
  }

  ghost predicate Upserting(tx: Tx, d: DocId, v: int, es: seq<Entity>, doc: Option<Document>,
                            own: map<TokenId, Token>)
  {
    && tx.locks == {DocRow(d)} && doc.Some? && doc.value.runVersion == v
    && |tx.over.ids| <= |es| && tx.over.deleted == {}
    && tx.over.tokens == Added(own, d, v, es[..|tx.over.ids|], tx.over.ids)
  }

  /** The run's tokens as the persisting transaction sees them. */
  ghost function Total(tx: Tx, d: DocId, v: int, own: map<TokenId, Token>): nat {
    |RunTokens(own + tx.over.tokens, d, v)|
  }

  ghost function Fanout(tx: Tx, d: DocId, v: int, own: map<TokenId, Token>): seq<TokenId> {
    Ordered(PendingTokens(own + tx.over.tokens, d, v))
  }

  ghost predicate Enqueued(o: Overlay, ids: seq<TokenId>, d: DocId, v: int) {
    |o.rows| == |ids| && o.outbox == Rows(o.rows, ClassifyJobs(ids, d, v))
  }

  ghost predicate PersistOk(tx: Tx, d: DocId, v: int, es: seq<Entity>, doc: Option<Document>,
                            own: map<TokenId, Token>)
  {
    var o := tx.over;
    match tx.pc
    case Begun => Untouched(tx)
    case Inserting => Upserting(tx, d, v, es, doc, own) && o.docs == map[] && Enqueued(o, [], d, v)
    case Counted(total) =>
      && Upserting(tx, d, v, es, doc, own) && |o.ids| == |es| && o.docs == map[] && Enqueued(o, [], d, v)
      && total == Total(tx, d, v, own)
    case Listing =>
      && Upserting(tx, d, v, es, doc, own) && |o.ids| == |es| && Enqueued(o, [], d, v)
      && o.docs == map[d := Advanced(doc.value, Total(tx, d, v, own), tx.now)]
    case Enqueuing(pending) =>
      && Upserting(tx, d, v, es, doc, own) && |o.ids| == |es|
      && o.docs == map[d := Advanced(doc.value, Total(tx, d, v, own), tx.now)]
      && pending == Fanout(tx, d, v, own) && |o.rows| <= |pending| && Enqueued(o, pending[..|o.rows|], d, v)
    case Ready(answer) =>
      && Upserting(tx, d, v, es, doc, own) && |o.ids| == |es|
      && o.docs == map[d := Advanced(doc.value, Total(tx, d, v, own), tx.now)]
      && Enqueued(o, Fanout(tx, d, v, own), d, v) && answer == Persisted(Total(tx, d, v, own))
    case Failing(_) => true
    case _ => false
  }

  ghost predicate BothLocked(tx: Tx, id: TokenId, v: int, tok: Token, doc: Document, row: Option<Token>,
                             cur: Option<Document>)
  {
    && tx.locks == {TokenRow(id), DocRow(tok.docId)} && row == Some(tok) && cur == Some(doc)
    && tok.runVersion == v && tok.status == TokenPending && doc.runVersion == v
  }

  function Marked(tok: Token, result: Classification): Token {
    tok.(status := TokenClassified, result := Some(result))
  }

  ghost predicate ApplyOk(tx: Tx, id: TokenId, v: int, result: Classification, row: Option<Token>,
                          cur: Option<Document>)
  {
    match tx.pc
    case Begun => Untouched(tx)
    case HasToken(tok) =>
      && tx.locks == {TokenRow(id)} && tx.over == NOTHING
      && row == Some(tok) && tok.runVersion == v && tok.status == TokenPending
    case Fenced(tok, doc) => BothLocked(tx, id, v, tok, doc, row, cur) && tx.over == NOTHING
    case TokenSet(tok, doc) =>
      BothLocked(tx, id, v, tok, doc, row, cur) && tx.over == NOTHING.(tokens := map[id := Marked(tok, result)])
    case Bumped(tok, doc, n) =>
      && BothLocked(tx, id, v, tok, doc, row, cur) && n == doc.classifiedCount + 1
      && tx.over == NOTHING.(tokens := map[id := Marked(tok, result)],
                             docs := map[tok.docId := doc.(classifiedCount := n)])
    case Ready(answer) =>
      && answer == Applied && row.Some? && row.value.runVersion == v
      && if row.value.status == TokenClassified
         then tx.locks == {TokenRow(id)} && tx.over == NOTHING
         else && cur.Some? && BothLocked(tx, id, v, row.value, cur.value, row, cur)
              && tx.over == NOTHING.(tokens := map[id := Marked(row.value, result)],
                                     docs := map[row.value.docId := CountedOne(cur.value, tx.now)])
    case Failing(_) => true
    case _ => false
  }

  /** The decision of a submit depends on nothing but the document row. */
  ghost function Decision(doc: Option<Document>, d: DocId, text: string, mode: RerunMode): SubmitResult {
    SubmitDecision(EMPTY_DB.(docs := if doc.Some? then map[d := doc.value] else map[]), d, text, mode)
  }

  ghost function TokenRows(ids: set<TokenId>): set<Lock> {
    set i | i in ids :: TokenRow(i)
  }

  /** The document row is locked, with the rows deleted so far. */
  ghost predicate Holding(tx: Tx, d: DocId) {
    tx.locks == {DocRow(d)} + TokenRows(tx.over.deleted) && tx.over.tokens == map[] && tx.over.ids == []
  }

  ghost predicate Written(tx: Tx, d: DocId, res: SubmitResult, doc: Option<Document>, own: map<TokenId, Token>) {
    && Holding(tx, d)
    && tx.over.deleted == (if res.fullRerun then own.Keys else {})
    && (tx.over.docs == map[d := res.document] || (tx.over.docs == map[] && doc == Some(res.document)))
  }

  ghost predicate SubmitOk(tx: Tx, d: DocId, text: string, mode: RerunMode, doc: Option<Document>,
                           own: map<TokenId, Token>)
  {
    var o := tx.over;
    match tx.pc
    case Begun => Untouched(tx)
    case Absent => Untouched(tx)
    case HasDoc(read) =>
      tx.locks == {DocRow(d)} && o == NOTHING && doc == Some(read) && read.status == Failed && mode != RerunFull
    case Resetting(read) => tx.locks == {DocRow(d)} && o == NOTHING && doc == Some(read) && mode == RerunFull
    case Deleting(read, todo) =>
      && Holding(tx, d) && doc == Some(read) && mode == RerunFull
      && o == NOTHING.(deleted := o.deleted) && o.deleted + todo == own.Keys
    case Accepted(res) =>
      && Written(tx, d, res, doc, own) && res == Decision(doc, d, text, mode) && res.accepted
      && o.rows == [] && o.outbox == map[]
    case Ready(answer) =>
      && answer == Submitted(Decision(doc, d, text, mode))
      && if answer.res.accepted
         then && Written(tx, d, answer.res, doc, own) && |o.rows| == 1
              && o.outbox == map[o.rows[0] := ExtractJob(d, answer.res.document.runVersion)]
         else tx.locks == {DocRow(d)} && o == NOTHING
    case Failing(_) => true
    case _ => false
  }

  ghost function DocOfToken(db: Db, i: TokenId): Option<Document> {
    if i in db.tokens then DocOf(db, db.tokens[i].docId) else None
  }

  ghost predicate TxOk(db: Db, tx: Tx) {
    match tx.prog
    case ClaimTx(d) => ClaimOk(tx, d, DocOf(db, d))
    case PersistTx(d, v, es) => PersistOk(tx, d, v, es, DocOf(db, d), Own(db.tokens, d))
    case ApplyTx(id, v, result) => ApplyOk(tx, id, v, result, TokenOf(db, id), DocOfToken(db, id))
    case SubmitTx(d, text, mode) => SubmitOk(tx, d, text, mode, DocOf(db, d), Own(db.tokens, d))
  }

  /** Nothing that others do to rows this transaction has not locked can disturb it. */
  lemma {:induction false} LockedStaysOk(db: Db, db': Db, tx: Tx)
    requires TxOk(db, tx) && Agree(db, db', tx.locks)
    ensures TxOk(db', tx)
  {
    match tx.prog
    case ClaimTx(d) =>
    case PersistTx(d, v, es) =>
    case ApplyTx(id, v, result) =>
      if TokenRow(id) in tx.locks {
        assert TokenOf(db', id) == TokenOf(db, id);
      }
    case SubmitTx(d, text, mode) =>
      assert DocRow(d) in tx.locks ==> DocOf(db', d) == DocOf(db, d) && Own(db'.tokens, d) == Own(db.tokens, d);
  }

  /******* All writes happen under the document's lock *******/

  /** Every row written is locked, and so is the document it belongs to; inserted rows bear unused ids. */
  ghost predicate Guarded(db: Db, tx: Tx) {
    var o := tx.over;
    && (forall d :: d in o.docs ==> DocRow(d) in tx.locks)
    && (forall i :: i in o.tokens ==> DocRow(o.tokens[i].docId) in tx.locks)
    && (forall i :: i in o.tokens && i in db.tokens ==>
          TokenRow(i) in tx.locks && db.tokens[i].docId == o.tokens[i].docId)
    && (forall i :: i in o.deleted ==>
          i in db.tokens && TokenRow(i) in tx.locks && DocRow(db.tokens[i].docId) in tx.locks)
  }

  ghost predicate Unused(db: Db, ids: seq<TokenId>) {
    forall k :: 0 <= k < |ids| ==> ids[k] !in db.tokens
  }

  lemma {:induction false} UpsertsAreGuarded(db: Db, tx: Tx, d: DocId, v: int, es: seq<Entity>)
    requires Upserting(tx, d, v, es, DocOf(db, d), Own(db.tokens, d)) && Unused(db, tx.over.ids)
    requires forall x :: x in tx.over.docs ==> x == d
    ensures Guarded(db, tx)
  {
    forall i | i in tx.over.tokens ensures i !in db.tokens && tx.over.tokens[i].docId == d {
      AddedRows(Own(db.tokens, d), d, v, es[..|tx.over.ids|], tx.over.ids, i);
    }
  }

  lemma {:induction false} WritesAreGuarded(db: Db, tx: Tx)
    requires TxOk(db, tx) && Unused(db, tx.over.ids) && tx.pc.Ready?
    ensures Guarded(db, tx)
  {
    match tx.prog
    case ClaimTx(d) =>
    case PersistTx(d, v, es) => UpsertsAreGuarded(db, tx, d, v, es);
    case ApplyTx(id, v, result) =>
    case SubmitTx(d, text, mode) =>
      forall i | i in tx.over.deleted ensures i in Own(db.tokens, d) && TokenRow(i) in tx.locks {
      }
  }

  /** A commit leaves alone everything that another transaction has locked. */
  lemma {:induction false} CommitSparesOthers(db: Db, tx: Tx, locks: set<Lock>)
    requires Guarded(db, tx) && tx.locks !! locks
    requires forall i :: TokenRow(i) in locks ==> i in db.tokens
    ensures Agree(db, View(db, tx.over), locks)
  {
    var db' := View(db, tx.over);
    forall d | DocRow(d) in locks ensures DocOf(db', d) == DocOf(db, d) && Own(db'.tokens, d) == Own(db.tokens, d) {
      OwnSpared(db, tx, d);
    }
    forall i | TokenRow(i) in locks ensures TokenOf(db', i) == TokenOf(db, i) {
      assert i !in tx.over.tokens && i !in tx.over.deleted;
    }
  }

  lemma {:induction false} OwnSpared(db: Db, tx: Tx, d: DocId)
    requires Guarded(db, tx) && DocRow(d) !in tx.locks
    ensures DocOf(View(db, tx.over), d) == DocOf(db, d)
    ensures Own(View(db, tx.over).tokens, d) == Own(db.tokens, d)
  {
    var tokens := View(db, tx.over).tokens;
    forall i | i in Own(tokens, d) ensures i in Own(db.tokens, d) && tokens[i] == db.tokens[i] {
      assert i !in tx.over.tokens;
    }
    forall i | i in Own(db.tokens, d) ensures i in Own(tokens, d) {
      assert i !in tx.over.tokens && i !in tx.over.deleted;
    }
  }

  /******* Each statement keeps its transaction in order *******/

  ghost predicate SameRows(a: map<TokenId, Token>, b: map<TokenId, Token>, d: DocId) {
    && (forall i :: i in a && a[i].docId == d ==> i in b && b[i] == a[i])
    && (forall i :: i in b && b[i].docId == d ==> i in a && b[i] == a[i])
  }

  lemma {:induction false} SameKeys(a: map<TokenId, Token>, b: map<TokenId, Token>, d: DocId, v: int, e: Entity)
    requires SameRows(a, b, d)
    ensures HasKey(a, d, v, e) <==> HasKey(b, d, v, e)
  {
  }

  /** A run read through the whole table or through its own document's rows is the same. */
  lemma {:induction false} SeenRun(db: Db, o: Overlay, d: DocId, v: int, e: Entity)
    requires o.deleted == {}
    ensures SameRows(View(db, o).tokens, Own(db.tokens, d) + o.tokens, d)
    ensures RunTokens(View(db, o).tokens, d, v) == RunTokens(Own(db.tokens, d) + o.tokens, d, v)
    ensures PendingTokens(View(db, o).tokens, d, v) == PendingTokens(Own(db.tokens, d) + o.tokens, d, v)
    ensures HasKey(View(db, o).tokens, d, v, e) <==> HasKey(Own(db.tokens, d) + o.tokens, d, v, e)
  {
    var a, b := View(db, o).tokens, Own(db.tokens, d) + o.tokens;
    assert SameRows(a, b, d);
    SameRun(a, b, d, v);
    SameKeys(a, b, d, v, e);
  }

  lemma {:induction false} AddedSame(a: map<TokenId, Token>, b: map<TokenId, Token>, d: DocId, v: int,
                                     es: seq<Entity>, ids: seq<TokenId>)
    requires SameRows(a, b, d) && |ids| == |es|
    ensures Added(a, d, v, es, ids) == Added(b, d, v, es, ids)
  {
    if es != [] {
      var n := |es| - 1;
      AddedSame(a, b, d, v, es[..n], ids[..n]);
      var before := Added(a, d, v, es[..n], ids[..n]);
      assert SameRows(a + before, b + before, d);
      SameKeys(a + before, b + before, d, v, es[n]);
    }
  }

  lemma {:induction false} ClaimStatement(db: Db, tx: Tx)
    requires TxOk(db, tx) && tx.prog.ClaimTx? && !Finished(tx)
    ensures TxOk(db, AfterClaim(db, tx, tx.prog.d))
  {
  }

  lemma {:induction false} ApplyLocks(db: Db, tx: Tx)
    requires TxOk(db, tx) && tx.prog.ApplyTx? && (tx.pc.Begun? || tx.pc.HasToken?)
    ensures TxOk(db, AfterApply(db, tx, tx.prog.id, tx.prog.v, tx.prog.result))
  {
  }

  lemma {:induction false} ApplyWrites(db: Db, tx: Tx)
    requires TxOk(db, tx) && tx.prog.ApplyTx? && (tx.pc.Fenced? || tx.pc.TokenSet?)
    ensures TxOk(db, AfterApply(db, tx, tx.prog.id, tx.prog.v, tx.prog.result))
  {
  }

  lemma {:induction false} ApplyCompletes(db: Db, tx: Tx)
    requires TxOk(db, tx) && tx.prog.ApplyTx? && tx.pc.Bumped?
    ensures TxOk(db, AfterApply(db, tx, tx.prog.id, tx.prog.v, tx.prog.result))
  {
  }

  lemma {:induction false} InsertStatement(db: Db, tx: Tx, id: TokenId, row: RowId)
    requires TxOk(db, tx) && tx.prog.PersistTx? && tx.pc.Inserting? && |tx.over.ids| < |tx.prog.es|
    ensures TxOk(db, AfterPersist(db, tx, tx.prog.d, tx.prog.v, tx.prog.es, id, row))
  {
    var d, v, es, k := tx.prog.d, tx.prog.v, tx.prog.es, |tx.over.ids|;
    SeenRun(db, tx.over, d, v, es[k]);
    assert es[..k + 1][..k] == es[..k] && (tx.over.ids + [id])[..k] == tx.over.ids;
    assert es[..k + 1][k] == es[k];
  }

  lemma {:induction false} OneMoreRow(o: Overlay, pending: seq<TokenId>, d: DocId, v: int, row: RowId)
    requires |o.rows| < |pending| && Enqueued(o, pending[..|o.rows|], d, v)
    ensures var k := |o.rows|;
            Enqueued(o.(outbox := o.outbox[row := ClassifyJob(pending[k], d, v)], rows := o.rows + [row]),
                     pending[..k + 1], d, v)
  {
    var k := |o.rows|;
    var jobs := ClassifyJobs(pending[..k + 1], d, v);
    assert jobs[..k] == ClassifyJobs(pending[..k], d, v) && jobs[k] == ClassifyJob(pending[k], d, v);
    assert (o.rows + [row])[..k] == o.rows;
  }

  lemma {:induction false} EnqueueStatement(db: Db, tx: Tx, id: TokenId, row: RowId)
    requires TxOk(db, tx) && tx.prog.PersistTx? && tx.pc.Enqueuing? && |tx.over.rows| < |tx.pc.pending|
    ensures TxOk(db, AfterPersist(db, tx, tx.prog.d, tx.prog.v, tx.prog.es, id, row))
  {
    OneMoreRow(tx.over, tx.pc.pending, tx.prog.d, tx.prog.v, row);
  }

  lemma {:induction false} FanoutEnds(db: Db, tx: Tx, id: TokenId, row: RowId)
    requires TxOk(db, tx) && tx.prog.PersistTx? && tx.pc.Enqueuing? && |tx.over.rows| == |tx.pc.pending|
    ensures TxOk(db, AfterPersist(db, tx, tx.prog.d, tx.prog.v, tx.prog.es, id, row))
  {
    var pending := tx.pc.pending;
    assert pending[..|pending|] == pending;
    SeenRun(db, tx.over, tx.prog.d, tx.prog.v, Entity("", "", Position(0, 0, 0)));
  }

  lemma {:induction false} AdvanceStatement(db: Db, tx: Tx, id: TokenId, row: RowId)
    requires TxOk(db, tx) && tx.prog.PersistTx? && tx.pc.Counted?
    ensures TxOk(db, AfterPersist(db, tx, tx.prog.d, tx.prog.v, tx.prog.es, id, row))
  {
    var d, v, own := tx.prog.d, tx.prog.v, Own(db.tokens, tx.prog.d);
    if Total(tx, d, v, own) == 0 {
      RunSplits(own + tx.over.tokens, d, v);
      assert Fanout(tx, d, v, own) == [];
    }
  }

  lemma {:induction false} PersistStatement(db: Db, tx: Tx, id: TokenId, row: RowId)
    requires TxOk(db, tx) && tx.prog.PersistTx? && !Finished(tx)
    ensures TxOk(db, AfterPersist(db, tx, tx.prog.d, tx.prog.v, tx.prog.es, id, row))
  {
    var d, v, es := tx.prog.d, tx.prog.v, tx.prog.es;
    match tx.pc
    case Begun =>
    case Inserting =>
      if |tx.over.ids| < |es| {
        InsertStatement(db, tx, id, row);
      } else {
        SeenRun(db, tx.over, d, v, Entity("", "", Position(0, 0, 0)));
      }
    case Counted(total) => AdvanceStatement(db, tx, id, row);
    case Listing => SeenRun(db, tx.over, d, v, Entity("", "", Position(0, 0, 0)));
    case Enqueuing(pending) =>
      if |tx.over.rows| < |pending| {
        EnqueueStatement(db, tx, id, row);
      } else {
        FanoutEnds(db, tx, id, row);
      }
  }

  lemma {:induction false} SubmitDecides(db: Db, tx: Tx, pick: TokenId, row: RowId)
    requires TxOk(db, tx) && tx.prog.SubmitTx? && (tx.pc.Begun? || tx.pc.Absent? || tx.pc.HasDoc?)
    ensures TxOk(db, AfterSubmit(db, tx, tx.prog.d, tx.prog.text, tx.prog.mode, pick, row))
  {
  }

  lemma {:induction false} SubmitDeletes(db: Db, tx: Tx, pick: TokenId, row: RowId)
    requires TxOk(db, tx) && tx.prog.SubmitTx? && (tx.pc.Resetting? || (tx.pc.Deleting? && pick in tx.pc.todo))
    ensures TxOk(db, AfterSubmit(db, tx, tx.prog.d, tx.prog.text, tx.prog.mode, pick, row))
  {
  }

  lemma {:induction false} SubmitResets(db: Db, tx: Tx, pick: TokenId, row: RowId)
    requires TxOk(db, tx) && tx.prog.SubmitTx? && tx.pc.Deleting? && pick !in tx.pc.todo
    ensures TxOk(db, AfterSubmit(db, tx, tx.prog.d, tx.prog.text, tx.prog.mode, pick, row))
  {
  }

  lemma {:induction false} SubmitEnqueues(db: Db, tx: Tx, pick: TokenId, row: RowId)
    requires TxOk(db, tx) && tx.prog.SubmitTx? && tx.pc.Accepted?
    ensures TxOk(db, AfterSubmit(db, tx, tx.prog.d, tx.prog.text, tx.prog.mode, pick, row))
  {
  }

  lemma {:induction false} StatementKeepsOk(db: Db, tx: Tx, pick: TokenId, id: TokenId, row: RowId)
    requires TxOk(db, tx) && !Finished(tx)
    ensures TxOk(db, After(db, tx, pick, id, row))
  {
    match tx.prog
    case ClaimTx(d) => ClaimStatement(db, tx);
    case PersistTx(d, v, es) => PersistStatement(db, tx, id, row);
    case ApplyTx(_, v, result) =>
      if tx.pc.Begun? || tx.pc.HasToken? {
        ApplyLocks(db, tx);
      } else if tx.pc.Bumped? {
        ApplyCompletes(db, tx);
      } else {
        ApplyWrites(db, tx);
      }
    case SubmitTx(d, text, mode) =>
      if tx.pc.Accepted? {
        SubmitEnqueues(db, tx, pick, row);
      } else if tx.pc.Resetting? || (tx.pc.Deleting? && pick in tx.pc.todo) {
        SubmitDeletes(db, tx, pick, row);
      } else if tx.pc.Deleting? {
        SubmitResets(db, tx, pick, row);
      } else {
        SubmitDecides(db, tx, pick, row);
      }
  }

  /******* A commit is an atomic transaction, a refusal an atomic read *******/

  /** From `db`, the atomic transaction gives `db'` and the answer that the body returned. */
  ghost predicate Atomic(db: Db, tx: Tx, db': Db)
    requires tx.pc.Ready?
  {
    var o, answer := tx.over, tx.pc.answer;
    match tx.prog
    case ClaimTx(d) => answer.Claimed? && Claim(db, d, tx.now) == (db', Ok(answer.doc))
    case PersistTx(d, v, es) =>
      && answer.Persisted? && |o.ids| == |es| && |o.rows| == |PersistJobs(db, d, v, es, o.ids)|
      && Persist(db, d, v, es, o.ids, o.rows, tx.now) == (db', Ok(answer.total))
    case ApplyTx(id, v, result) => answer.Applied? && Apply(db, id, v, result, tx.now) == (db', Ok(()))
    case SubmitTx(d, text, mode) =>
      && answer.Submitted? && |o.rows| == (if answer.res.accepted then 1 else 0)
      && Submit(db, d, text, mode, if o.rows == [] then 0 else o.rows[0]) == (db', answer.res)
  }

  /** From `db`, the atomic transaction changes nothing and returns this error.  An insert that loses the race for
      a new id has no atomic counterpart: it reports an error for a document that by then exists. */
  ghost predicate Refused(db: Db, tx: Tx, error: Error) {
    match tx.prog
    case ClaimTx(d) => error == Missing && Claim(db, d, tx.now) == (db, NotFound)
    case PersistTx(d, v, es) =>
      && !Current(db, d, v)
      && forall ids :: |ids| == |es| ==>
           Persist(db, d, v, es, ids, [], tx.now) == (db, if error == Missing then NotFound else StaleWrite)
    case ApplyTx(id, v, result) =>
      Apply(db, id, v, result, tx.now) == (db, if error == Missing then NotFound else StaleWrite)
    case SubmitTx(d, text, mode) => error == Conflict && d in db.docs
  }

  lemma {:induction false} RefusalIsAtomic(db: Db, tx: Tx, pick: TokenId, id: TokenId, row: RowId)
    requires TxOk(db, tx) && !Finished(tx) && After(db, tx, pick, id, row).pc.Failing?
    ensures Refused(db, tx, After(db, tx, pick, id, row).pc.error)
  {
  }

  lemma {:induction false} SameDb(a: Db, b: Db)
    requires a.docs == b.docs && a.tokens == b.tokens && a.outbox == b.outbox
    requires a.usedTokens == b.usedTokens && a.usedRows == b.usedRows
    ensures a == b
  {
  }

  lemma {:induction false} ClaimCommits(db: Db, tx: Tx)
    requires TxOk(db, tx) && tx.prog.ClaimTx? && tx.pc.Ready?
    ensures Atomic(db, tx, View(db, tx.over))
  {
    SameDb(View(db, tx.over), Claim(db, tx.prog.d, tx.now).0);
  }

  lemma {:induction false} ApplyCommits(db: Db, tx: Tx)
    requires TxOk(db, tx) && tx.prog.ApplyTx? && tx.pc.Ready?
    ensures Atomic(db, tx, View(db, tx.over))
  {
    SameDb(View(db, tx.over), Apply(db, tx.prog.id, tx.prog.v, tx.prog.result, tx.now).0);
  }

  /** What the body inserted and enqueued is what the atomic persist inserts and enqueues. */
  lemma {:induction false} PersistView(db: Db, tx: Tx, d: DocId, v: int, es: seq<Entity>)
    requires Upserting(tx, d, v, es, DocOf(db, d), Own(db.tokens, d)) && |tx.over.ids| == |es|
    ensures var o, own := tx.over, Own(db.tokens, d);
            && View(db, o).tokens == Upserted(db, d, v, es, o.ids)
            && |RunTokens(Upserted(db, d, v, es, o.ids), d, v)| == Total(tx, d, v, own)
            && PersistJobs(db, d, v, es, o.ids) == ClassifyJobs(Fanout(tx, d, v, own), d, v)
  {
    var o := tx.over;
    assert es[..|o.ids|] == es;
    AddedSame(Own(db.tokens, d), db.tokens, d, v, es, o.ids);
    assert View(db, o).tokens == Upserted(db, d, v, es, o.ids);
    SeenRun(db, o, d, v, Entity("", "", Position(0, 0, 0)));
  }

  lemma {:induction false} PersistCommits(db: Db, tx: Tx)
    requires TxOk(db, tx) && tx.prog.PersistTx? && tx.pc.Ready?
    ensures Atomic(db, tx, View(db, tx.over))
  {
    var d, v, es, o := tx.prog.d, tx.prog.v, tx.prog.es, tx.over;
    PersistView(db, tx, d, v, es);
    SameDb(View(db, o), Persist(db, d, v, es, o.ids, o.rows, tx.now).0);
  }

  lemma {:induction false} SubmitView(db: Db, tx: Tx, d: DocId, res: SubmitResult)
    requires Written(tx, d, res, DocOf(db, d), Own(db.tokens, d))
    ensures View(db, tx.over).docs == db.docs[d := res.document]
    ensures View(db, tx.over).tokens == if res.fullRerun then WithoutDoc(db.tokens, d) else db.tokens
    ensures View(db, tx.over).usedTokens == db.usedTokens
  {
    assert db.tokens + map[] == db.tokens;
  }

  lemma {:induction false} AcceptedCommits(db: Db, tx: Tx, d: DocId, text: string, mode: RerunMode, row: RowId)
    requires var res := SubmitDecision(db, d, text, mode);
             && res.accepted && Written(tx, d, res, DocOf(db, d), Own(db.tokens, d))
             && tx.over.rows == [row] && tx.over.outbox == map[row := ExtractJob(d, res.document.runVersion)]
    ensures View(db, tx.over) == Submit(db, d, text, mode, row).0
  {
    SubmitView(db, tx, d, SubmitDecision(db, d, text, mode));
    SameDb(View(db, tx.over), Submit(db, d, text, mode, row).0);
  }

  lemma {:induction false} SubmitCommits(db: Db, tx: Tx)
    requires TxOk(db, tx) && tx.prog.SubmitTx? && tx.pc.Ready?
    ensures Atomic(db, tx, View(db, tx.over))
  {
    var d, o, res := tx.prog.d, tx.over, tx.pc.answer.res;
    assert res == SubmitDecision(db, d, tx.prog.text, tx.prog.mode);
    if res.accepted {
      assert o.rows == [o.rows[0]];
      AcceptedCommits(db, tx, d, tx.prog.text, tx.prog.mode, o.rows[0]);
    } else {
      SameDb(View(db, o), db);
    }
  }

  /** Whatever other transactions did meanwhile, at its commit a transaction does to the committed tables exactly
      what it would do if it ran alone at that moment. */
  lemma {:induction false} CommitIsAtomic(db: Db, tx: Tx)
    requires TxOk(db, tx) && tx.pc.Ready?
    ensures Atomic(db, tx, View(db, tx.over))
  {
    match tx.prog
    case ClaimTx(d) => ClaimCommits(db, tx);
    case PersistTx(d, v, es) => PersistCommits(db, tx);
    case ApplyTx(id, v, result) => ApplyCommits(db, tx);
    case SubmitTx(d, text, mode) => SubmitCommits(db, tx);
  }
}
