/** The durable tables and the effect of each transaction on them, as functions of the committed state.
    Ids come from database sequences, which are not transactional: concurrent transactions interleave
    their draws and a rolled-back or conflicting insert burns its id.  A transaction therefore takes the
    ids it drew as parameters, and all that is required of them is that they are fresh and ascending. */
module Store {
  import opened Domain
  import opened Collections

  datatype Db = Db(
    docs: map<DocId, Document>,
    tokens: map<TokenId, Token>,
    outbox: map<RowId, Job>,
    usedTokens: set<TokenId>,
    usedRows: set<RowId>)

  const EMPTY_DB: Db := Db(map[], map[], map[], {}, {})

  ghost predicate Fresh(ids: seq<int>, used: set<int>) {
    Increasing(ids) && forall k :: 0 <= k < |ids| ==> ids[k] !in used
  }

  /******* Reading the token table *******/

  predicate OfRun(t: Token, d: DocId, v: int) {
    t.docId == d && t.runVersion == v
  }

  function RunTokens(tokens: map<TokenId, Token>, d: DocId, v: int): set<TokenId> {
    set i | i in tokens && OfRun(tokens[i], d, v)
  }

  function ClassifiedTokens(tokens: map<TokenId, Token>, d: DocId, v: int): set<TokenId> {
    set i | i in tokens && OfRun(tokens[i], d, v) && tokens[i].status == TokenClassified
  }

  function PendingTokens(tokens: map<TokenId, Token>, d: DocId, v: int): set<TokenId> {
    set i | i in tokens && OfRun(tokens[i], d, v) && tokens[i].status == TokenPending
  }

  /** Two entities collide on the natural key of a run: sentence, character offset and text. */
  predicate SameKey(a: Entity, b: Entity) {
    && a.position.sentence == b.position.sentence
    && a.position.charOffset == b.position.charOffset
    && a.text == b.text
  }

  predicate HasKey(tokens: map<TokenId, Token>, d: DocId, v: int, e: Entity) {
    exists i | i in tokens :: OfRun(tokens[i], d, v) && SameKey(tokens[i].entity, e)
  }

  /******* UpsertTokens *******/

  function NewToken(d: DocId, v: int, e: Entity): Token {
    Token(d, v, e, TokenPending, None)
  }

  /** The rows that inserting `es` one by one adds to `tokens`; a colliding insert adds nothing. */
  function Added(tokens: map<TokenId, Token>, d: DocId, v: int, es: seq<Entity>, ids: seq<TokenId>): map<TokenId, Token>
    requires |ids| == |es|
  {
    if es == [] then map[] else
      var n := |es| - 1;
      var before := Added(tokens, d, v, es[..n], ids[..n]);
      if HasKey(tokens + before, d, v, es[n]) then before
      else before[ids[n] := NewToken(d, v, es[n])]
  }

  /******* The outbox *******/

  function ClassifyJobs(ids: seq<TokenId>, d: DocId, v: int): seq<Job> {
    seq(|ids|, k requires 0 <= k < |ids| => ClassifyJob(ids[k], d, v))
  }

  function Rows(rows: seq<RowId>, jobs: seq<Job>): map<RowId, Job>
    requires |rows| == |jobs|
  {
    if jobs == [] then map[] else
      var n := |jobs| - 1;
      Rows(rows[..n], jobs[..n])[rows[n] := jobs[n]]
  }

  function Enqueue(db: Db, rows: seq<RowId>, jobs: seq<Job>): Db
    requires |rows| == |jobs|
  {
    db.(outbox := db.outbox + Rows(rows, jobs), usedRows := db.usedRows + Elements(rows))
  }

  /******* ExtractionWorker.claim *******/

  function Claim(db: Db, d: DocId, now: Time): (Db, Outcome<Document>) {
    if d !in db.docs then (db, NotFound)
    else if db.docs[d].status == Pending then
      var doc := db.docs[d];
      (db.(docs := db.docs[d := doc.(status := Extracting, extractionStarted := Some(now))]),
       Ok(doc.(status := Extracting)))
    else (db, Ok(db.docs[d]))
  }

  /******* ExtractionWorker.persist *******/

  predicate Current(db: Db, d: DocId, v: int) {
    d in db.docs && db.docs[d].runVersion == v
  }

  function Upserted(db: Db, d: DocId, v: int, es: seq<Entity>, ids: seq<TokenId>): map<TokenId, Token>
    requires |ids| == |es|
  {
    db.tokens + Added(db.tokens, d, v, es, ids)
  }

  function Advanced(doc: Document, total: int, now: Time): Document {
    if total == 0 then
      doc.(status := Completed, totalTokens := 0, extractionCompleted := Some(now),
           classificationStarted := Some(now), classificationCompleted := Some(now))
    else
      doc.(status := Classifying, totalTokens := total, extractionCompleted := Some(now),
           classificationStarted := Some(now))
  }

  /** The classify jobs a persist writes to the outbox, in token id order; none when it is refused. */
  ghost function PersistJobs(db: Db, d: DocId, v: int, es: seq<Entity>, ids: seq<TokenId>): seq<Job>
    requires |ids| == |es|
  {
    if Current(db, d, v)
    then ClassifyJobs(Ordered(PendingTokens(Upserted(db, d, v, es, ids), d, v)), d, v)
    else []
  }

  ghost function Persist(db: Db, d: DocId, v: int, es: seq<Entity>, ids: seq<TokenId>, rows: seq<RowId>, now: Time)
      : (Db, Outcome<int>)
    requires |ids| == |es|
    requires |rows| == |PersistJobs(db, d, v, es, ids)|
  {
    if d !in db.docs then (db, NotFound)
    else if db.docs[d].runVersion != v then (db, StaleWrite)
    else
      var tokens := Upserted(db, d, v, es, ids);
      var total := |RunTokens(tokens, d, v)|;
      var db' := db.(tokens := tokens,
                     usedTokens := db.usedTokens + Elements(ids),
                     docs := db.docs[d := Advanced(db.docs[d], total, now)]);
      (Enqueue(db', rows, PersistJobs(db, d, v, es, ids)), Ok(total))
  }

  /******* ClassificationWorker.apply *******/

  function CountedOne(doc: Document, now: Time): Document {
    var bumped := doc.(classifiedCount := doc.classifiedCount + 1);
    if bumped.classifiedCount >= doc.totalTokens
    then bumped.(status := Completed, classificationCompleted := Some(now))
    else bumped
  }

  function Apply(db: Db, id: TokenId, v: int, result: Classification, now: Time): (Db, Outcome<()>) {
    if id !in db.tokens then (db, NotFound)
    else
      var tok := db.tokens[id];
      if tok.runVersion != v then (db, StaleWrite)
      else if tok.status == TokenClassified then (db, Ok(()))
      else if tok.docId !in db.docs then (db, NotFound)
      else if db.docs[tok.docId].runVersion != v then (db, StaleWrite)
      else
        (db.(tokens := db.tokens[id := tok.(status := TokenClassified, result := Some(result))],
             docs := db.docs[tok.docId := CountedOne(db.docs[tok.docId], now)]),
         Ok(()))
  }

  /******* DocumentService.Submit *******/

  datatype SubmitResult = SubmitResult(document: Document, accepted: bool, fullRerun: bool)

  function NewDocument(text: string): Document {
    Document(text, Pending, 1, 0, 0, None, None, None, None)
  }

  function ResetDoc(doc: Document, text: string): Document {
    Document(text, Pending, doc.runVersion + 1, 0, 0, None, None, None, None)
  }

  function WithoutDoc(tokens: map<TokenId, Token>, d: DocId): map<TokenId, Token> {
    map i | i in tokens && tokens[i].docId != d :: tokens[i]
  }

  /** The row a submit writes to `documents`, with the answer given to the caller. */
  function SubmitDecision(db: Db, d: DocId, text: string, mode: RerunMode): SubmitResult {
    if d !in db.docs then SubmitResult(NewDocument(text), true, false)
    else if mode == RerunFull then SubmitResult(ResetDoc(db.docs[d], text), true, true)
    else if db.docs[d].status == Completed then SubmitResult(db.docs[d], false, false)
    else if db.docs[d].status == Failed then SubmitResult(db.docs[d].(status := Pending), true, false)
    else SubmitResult(db.docs[d], true, false)
  }

  function Submit(db: Db, d: DocId, text: string, mode: RerunMode, row: RowId): (Db, SubmitResult) {
    var r := SubmitDecision(db, d, text, mode);
    if !r.accepted then (db, r)
    else
      var db' := db.(docs := db.docs[d := r.document],
                     tokens := if r.fullRerun then WithoutDoc(db.tokens, d) else db.tokens);
      (db'.(outbox := db'.outbox[row := ExtractJob(d, r.document.runVersion)],
            usedRows := db'.usedRows + {row}), r)
  }

  /** A full resubmit of an existing document: the only operation that starts a new run. */
  predicate Resets(db: Db, d: DocId, mode: RerunMode) {
    d in db.docs && mode == RerunFull
  }
}
