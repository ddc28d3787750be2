/** The transactions of the pipeline one SQL statement at a time, with row locks held to commit and, as under READ
    COMMITTED, every statement reading the latest committed rows overlaid with the transaction's own writes. */
module Statements {
  import opened Domain
  import opened Collections
  import opened Store

  type TxId = int

  datatype Lock = DocRow(d: DocId) | TokenRow(i: TokenId)

  datatype Prog =
    | ClaimTx(d: DocId)
    | PersistTx(d: DocId, v: int, es: seq<Entity>)
    | ApplyTx(id: TokenId, v: int, result: Classification)
    | SubmitTx(d: DocId, text: string, mode: RerunMode)

  datatype Answer = Claimed(doc: Document) | Persisted(total: int) | Applied | Submitted(res: SubmitResult)

  datatype Error = Missing | Stale | Conflict

  /** Where a transaction body stands, with its local variables. */
  datatype Pc =
    | Begun
    | HasDoc(doc: Document)                      // claim, submit: the document row is locked and read
    | Inserting                                  // persist: the upsert loop
    | Counted(total: nat)                        // persist: the tokens have been counted
    | Listing                                    // persist: the stage is advanced
    | Enqueuing(pending: seq<TokenId>)            // persist: the fan-out loop
    | HasToken(tok: Token)                       // apply: the token row is locked and read
    | Fenced(tok: Token, doc: Document)          // apply: the document row is locked and current
    | TokenSet(tok: Token, doc: Document)        // apply: the token is marked classified
    | Bumped(tok: Token, doc: Document, n: int)  // apply: the counter is incremented
    | Absent                                     // submit: no row to lock was found
    | Resetting(doc: Document)                   // submit: a full rerun has been decided
    | Deleting(doc: Document, todo: set<TokenId>) // submit: the DELETE has still these rows to lock
    | Accepted(res: SubmitResult)                // submit: the job is still to be enqueued
    | Ready(answer: Answer)                      // the body returned nil
    | Failing(error: Error)                      // the body returned an error

  /** Uncommitted writes, and the ids drawn for them. */
  datatype Overlay = Overlay(
    docs: map<DocId, Document>,
    tokens: map<TokenId, Token>,
    deleted: set<TokenId>,
    outbox: map<RowId, Job>,
    ids: seq<TokenId>,
    rows: seq<RowId>)

  const NOTHING: Overlay := Overlay(map[], map[], {}, map[], [], [])

  datatype Tx = Tx(prog: Prog, pc: Pc, now: Time, locks: set<Lock>, over: Overlay)

  /** The tables as the transaction sees them, and as its commit leaves them. */
  function View(db: Db, o: Overlay): Db {
    Db(db.docs + o.docs, (db.tokens + o.tokens) - o.deleted, db.outbox + o.outbox,
       db.usedTokens + Elements(o.ids), db.usedRows + Elements(o.rows))
  }

  /******* Single statements *******/

  function Locking(tx: Tx, lock: Lock, pc: Pc): Tx {
    tx.(locks := tx.locks + {lock}, pc := pc)
  }

  /** UPDATE documents ... WHERE id = d. */
  function PutDoc(tx: Tx, d: DocId, doc: Document, pc: Pc): Tx {
    tx.(over := tx.over.(docs := tx.over.docs[d := doc]), pc := pc)
  }

  /** INSERT INTO outbox. */
  function PutRow(tx: Tx, row: RowId, job: Job, pc: Pc): Tx {
    tx.(over := tx.over.(outbox := tx.over.outbox[row := job], rows := tx.over.rows + [row]), pc := pc)
  }

  /** INSERT INTO tokens ... ON CONFLICT DO NOTHING: the id is drawn even when the row conflicts. */
  function PutEntity(db: Db, tx: Tx, d: DocId, v: int, e: Entity, id: TokenId): Tx {
    var o := tx.over.(ids := tx.over.ids + [id]);
    if HasKey(View(db, tx.over).tokens, d, v, e) then tx.(over := o)
    else tx.(over := o.(tokens := tx.over.tokens[id := NewToken(d, v, e)]))
  }

  function Started(doc: Document, now: Time): Document {
    doc.(status := Extracting, extractionStarted := Some(now))
  }

  /******* The four bodies, statement by statement *******/

  function AfterClaim(db: Db, tx: Tx, d: DocId): Tx {
    var seen := View(db, tx.over);
    match tx.pc
    case Begun => if d in db.docs then Locking(tx, DocRow(d), HasDoc(db.docs[d])) else tx.(pc := Failing(Missing))
    case HasDoc(doc) =>
      if doc.status == Pending && d in seen.docs
      then PutDoc(tx, d, Started(seen.docs[d], tx.now), Ready(Claimed(doc.(status := Extracting))))
      else tx.(pc := Ready(Claimed(doc)))
    case _ => tx
  }

  ghost function AfterPersist(db: Db, tx: Tx, d: DocId, v: int, es: seq<Entity>, id: TokenId, row: RowId): Tx {
    var seen := View(db, tx.over);
    match tx.pc
    case Begun =>
      if d in db.docs
      then Locking(tx, DocRow(d), if db.docs[d].runVersion != v then Failing(Stale) else Inserting)
      else tx.(pc := Failing(Missing))
    case Inserting =>
      if |tx.over.ids| < |es| then PutEntity(db, tx, d, v, es[|tx.over.ids|], id)
      else tx.(pc := Counted(|RunTokens(seen.tokens, d, v)|))
    case Counted(total) =>
      if d !in seen.docs then tx
      else PutDoc(tx, d, Advanced(seen.docs[d], total, tx.now), if total == 0 then Ready(Persisted(0)) else Listing)
    case Listing => tx.(pc := Enqueuing(Ordered(PendingTokens(seen.tokens, d, v))))
    case Enqueuing(pending) =>
      var k := |tx.over.rows|;
      if k < |pending| then PutRow(tx, row, ClassifyJob(pending[k], d, v), tx.pc)
      else tx.(pc := Ready(Persisted(|RunTokens(seen.tokens, d, v)|)))
    case _ => tx
  }

  function AfterApply(db: Db, tx: Tx, id: TokenId, v: int, result: Classification): Tx {
    var seen := View(db, tx.over);
    match tx.pc
    case Begun =>
      if id !in db.tokens then tx.(pc := Failing(Missing))
      else
        var tok := db.tokens[id];
        Locking(tx, TokenRow(id),
                if tok.runVersion != v then Failing(Stale)
                else if tok.status == TokenClassified then Ready(Applied)
                else HasToken(tok))
    case HasToken(tok) =>
      if tok.docId !in db.docs then tx.(pc := Failing(Missing))
      else
        var doc := db.docs[tok.docId];
        Locking(tx, DocRow(tok.docId), if doc.runVersion != v then Failing(Stale) else Fenced(tok, doc))
    case Fenced(tok, doc) =>
      if id !in seen.tokens then tx
      else
        var row := seen.tokens[id].(status := TokenClassified, result := Some(result));
        tx.(over := tx.over.(tokens := tx.over.tokens[id := row]), pc := TokenSet(tok, doc))
    case TokenSet(tok, doc) =>
      if tok.docId !in seen.docs then tx
      else
        var n := seen.docs[tok.docId].classifiedCount + 1;
        PutDoc(tx, tok.docId, seen.docs[tok.docId].(classifiedCount := n), Bumped(tok, doc, n))
    case Bumped(tok, doc, n) =>
      if n >= doc.totalTokens && tok.docId in seen.docs
      then PutDoc(tx, tok.docId,
                  seen.docs[tok.docId].(status := Completed, classificationCompleted := Some(tx.now)), Ready(Applied))
      else tx.(pc := Ready(Applied))
    case _ => tx
  }

  function AfterSubmit(db: Db, tx: Tx, d: DocId, text: string, mode: RerunMode, pick: TokenId, row: RowId): Tx {
    var seen := View(db, tx.over);
    match tx.pc
    case Begun =>
      if d !in db.docs then tx.(pc := Absent)
      else
        var doc := db.docs[d];
        Locking(tx, DocRow(d),
                if mode == RerunFull then Resetting(doc)
                else if doc.status == Completed then Ready(Submitted(SubmitResult(doc, false, false)))
                else if doc.status == Failed then HasDoc(doc)
                else Accepted(SubmitResult(doc, true, false)))
    case Absent =>
      // The unique index makes an insert fail on a committed row and wait for an uncommitted one.
      if d in db.docs then tx.(pc := Failing(Conflict))
      else PutDoc(Locking(tx, DocRow(d), tx.pc), d, NewDocument(text),
                  Accepted(SubmitResult(NewDocument(text), true, false)))
    case HasDoc(doc) =>
      if d !in seen.docs then tx
      else PutDoc(tx, d, seen.docs[d].(status := Pending), Accepted(SubmitResult(doc.(status := Pending), true, false)))
    case Resetting(doc) => tx.(pc := Deleting(doc, set i | i in seen.tokens && seen.tokens[i].docId == d))
    case Deleting(doc, todo) =>
      if pick in todo
      then
        var o := tx.over.(deleted := tx.over.deleted + {pick});
        Locking(tx, TokenRow(pick), Deleting(doc, todo - {pick})).(over := o)
      else if todo == {} && d in seen.docs
      then PutDoc(tx, d, ResetDoc(seen.docs[d], text), Accepted(SubmitResult(ResetDoc(seen.docs[d], text), true, true)))
      else tx
    case Accepted(res) => PutRow(tx, row, ExtractJob(d, res.document.runVersion), Ready(Submitted(res)))
    case _ => tx
  }

  /** The transaction after its next statement; `id` and `row` are the next values of the two sequences, `pick` the
      row that a running DELETE reaches next. */
  ghost function After(db: Db, tx: Tx, pick: TokenId, id: TokenId, row: RowId): Tx {
    match tx.prog
    case ClaimTx(d) => AfterClaim(db, tx, d)
    case PersistTx(d, v, es) => AfterPersist(db, tx, d, v, es, id, row)
    case ApplyTx(i, v, result) => AfterApply(db, tx, i, v, result)
    case SubmitTx(d, text, mode) => AfterSubmit(db, tx, d, text, mode, pick, row)
  }

  /******* Waiting *******/

  /** The row locks that the next statement takes, or may take next. */
  ghost function Wants(db: Db, tx: Tx): set<Lock> {
    match tx.pc
    case Begun =>
      if tx.prog.ApplyTx? then (if tx.prog.id in db.tokens then {TokenRow(tx.prog.id)} else {})
      else if tx.prog.d in db.docs then {DocRow(tx.prog.d)} else {}
    case HasToken(tok) => if tok.docId in db.docs then {DocRow(tok.docId)} else {}
    case Absent => if tx.prog.SubmitTx? && tx.prog.d !in db.docs then {DocRow(tx.prog.d)} else {}
    case Deleting(doc, todo) => set i | i in todo :: TokenRow(i)
    case _ => {}
  }

  /** The one lock it takes now. */
  ghost function Takes(db: Db, tx: Tx, pick: TokenId): set<Lock> {
    if tx.pc.Deleting? then (if pick in tx.pc.todo then {TokenRow(pick)} else {}) else Wants(db, tx)
  }

  /******* The machine *******/

  datatype Machine = Machine(db: Db, txs: map<TxId, Tx>, nextToken: int, nextRow: int)

  datatype Move =
    | Begin(t: TxId, prog: Prog, now: Time)
    | Statement(t: TxId, pick: TokenId)
    | Commit(t: TxId)
    | Abort(t: TxId)             // an error, a crash, or the choice of a deadlock victim
    | Drain(gone: set<RowId>)    // a relay transaction commits its deletions

  ghost predicate Free(m: Machine, t: TxId, locks: set<Lock>) {
    forall u :: u in m.txs && u != t ==> m.txs[u].locks !! locks
  }

  predicate Finished(tx: Tx) {
    tx.pc.Ready? || tx.pc.Failing?
  }

  ghost predicate CanMove(m: Machine, move: Move) {
    match move
    case Begin(t, prog, now) => t !in m.txs
    case Statement(t, pick) =>
      && t in m.txs && !Finished(m.txs[t])
      && (m.txs[t].pc.Deleting? && m.txs[t].pc.todo != {} ==> pick in m.txs[t].pc.todo)
      && Free(m, t, Takes(m.db, m.txs[t], pick))
    case Commit(t) => t in m.txs && m.txs[t].pc.Ready?
    case Abort(t) => t in m.txs
    case Drain(gone) => true
  }

  ghost function Moved(m: Machine, move: Move): Machine
    requires CanMove(m, move)
  {
    match move
    case Begin(t, prog, now) => m.(txs := m.txs[t := Tx(prog, Begun, now, {}, NOTHING)])
    case Statement(t, pick) =>
      var tx := After(m.db, m.txs[t], pick, m.nextToken, m.nextRow);
      m.(txs := m.txs[t := tx],
         nextToken := if tx.over.ids == m.txs[t].over.ids then m.nextToken else m.nextToken + 1,
         nextRow := if tx.over.rows == m.txs[t].over.rows then m.nextRow else m.nextRow + 1)
    case Commit(t) => m.(db := View(m.db, m.txs[t].over), txs := m.txs - {t})
    case Abort(t) => m.(txs := m.txs - {t})
    case Drain(gone) => m.(db := m.db.(outbox := m.db.outbox - gone))
  }
}
