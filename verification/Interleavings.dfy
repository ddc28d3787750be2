/** All interleavings of statement-level transactions: what every reachable machine keeps, and the serial history
    that explains it. */
module Interleavings {
  import opened Domain
  import opened Collections
  import opened Store
  import opened TableInvariant
  import opened Statements
  import opened Serializable

  /******* The invariant *******/

  ghost predicate Exclusive(m: Machine) {
    forall t, u :: t in m.txs && u in m.txs && t != u ==> m.txs[t].locks !! m.txs[u].locks
  }

  ghost predicate AllOk(m: Machine) {
    forall t :: t in m.txs ==> TxOk(m.db, m.txs[t])
  }

  ghost predicate Below(ids: seq<int>, next: int) {
    forall k :: 0 <= k < |ids| ==> ids[k] < next
  }

  /** The ids a transaction drew are its own: below the sequence, in order, and in no committed row. */
  ghost predicate Drawn(m: Machine, o: Overlay) {
    && Fresh(o.ids, m.db.usedTokens) && Below(o.ids, m.nextToken)
    && Fresh(o.rows, m.db.usedRows) && Below(o.rows, m.nextRow)
  }

  ghost predicate AllDrawn(m: Machine) {
    forall t :: t in m.txs ==> Drawn(m, m.txs[t].over)
  }

  ghost predicate Unshared(a: Overlay, b: Overlay) {
    Elements(a.ids) !! Elements(b.ids) && Elements(a.rows) !! Elements(b.rows)
  }

  ghost predicate AllUnshared(m: Machine) {
    forall t, u :: t in m.txs && u in m.txs && t != u ==> Unshared(m.txs[t].over, m.txs[u].over)
  }

  ghost predicate Ahead(m: Machine) {
    (forall i :: i in m.db.usedTokens ==> i < m.nextToken) && (forall r :: r in m.db.usedRows ==> r < m.nextRow)
  }

  ghost predicate MachineInv(m: Machine) {
    DbInv(m.db) && Exclusive(m) && AllOk(m) && AllDrawn(m) && AllUnshared(m) && Ahead(m)
  }

  /******* Statements *******/

  /** A statement takes at most the lock it asked for and draws at most the next id of each sequence. */
  lemma {:induction false} StatementShape(db: Db, tx: Tx, pick: TokenId, id: TokenId, row: RowId)
    ensures var tx' := After(db, tx, pick, id, row);
            && tx'.locks <= tx.locks + Takes(db, tx, pick)
            && OneMore(tx.over.ids, tx'.over.ids, id) && OneMore(tx.over.rows, tx'.over.rows, row)
  {
    TakesWhatItAskedFor(db, tx, pick, id, row);
    DrawsTheNext(db, tx, pick, id, row);
  }

  lemma {:induction false} TakesWhatItAskedFor(db: Db, tx: Tx, pick: TokenId, id: TokenId, row: RowId)
    ensures After(db, tx, pick, id, row).locks <= tx.locks + Takes(db, tx, pick)
  {
  }

  ghost predicate OneMore(s: seq<int>, s': seq<int>, next: int) {
    s' == s || s' == s + [next]
  }

  lemma {:induction false} DrawsTheNext(db: Db, tx: Tx, pick: TokenId, id: TokenId, row: RowId)
    ensures var o, o' := tx.over, After(db, tx, pick, id, row).over;
            OneMore(o.ids, o'.ids, id) && OneMore(o.rows, o'.rows, row)
  {
    match tx.prog
    case ClaimTx(d) =>
    case PersistTx(d, v, es) => PersistDraws(db, tx, d, v, es, id, row);
    case ApplyTx(i, v, result) =>
    case SubmitTx(d, text, mode) => SubmitDraws(db, tx, d, text, mode, pick, row);
  }

  lemma {:induction false} SubmitDraws(db: Db, tx: Tx, d: DocId, text: string, mode: RerunMode, pick: TokenId,
                                       row: RowId)
    ensures var o, o' := tx.over, AfterSubmit(db, tx, d, text, mode, pick, row).over;
            o'.ids == o.ids && OneMore(o.rows, o'.rows, row)
  {
  }

  lemma {:induction false} PersistDraws(db: Db, tx: Tx, d: DocId, v: int, es: seq<Entity>, id: TokenId, row: RowId)
    ensures var o, o' := tx.over, AfterPersist(db, tx, d, v, es, id, row).over;
            OneMore(o.ids, o'.ids, id) && OneMore(o.rows, o'.rows, row)
  {
  }

  lemma {:induction false} DrawOne(ids: seq<int>, next: int, used: set<int>)
    requires Fresh(ids, used) && Below(ids, next) && forall i :: i in used ==> i < next
    ensures Fresh(ids + [next], used) && Below(ids + [next], next + 1)
    ensures ids + [next] != ids
  {
  }

  lemma {:induction false} StatementDraws(m: Machine, t: TxId, pick: TokenId)
    requires MachineInv(m) && CanMove(m, Statement(t, pick))
    ensures AllDrawn(Moved(m, Statement(t, pick)))
  {
    var m' := Moved(m, Statement(t, pick));
    var o := m.txs[t].over;
    StatementShape(m.db, m.txs[t], pick, m.nextToken, m.nextRow);
    assert Drawn(m, o);
    DrawOne(o.ids, m.nextToken, m.db.usedTokens);
    DrawOne(o.rows, m.nextRow, m.db.usedRows);
    forall u | u in m'.txs ensures Drawn(m', m'.txs[u].over) {
      if u != t {
        assert Drawn(m, m.txs[u].over);
      }
    }
  }

  lemma {:induction false} StillUnshared(m: Machine, a: Overlay, a': Overlay, b: Overlay)
    requires Drawn(m, b) && Unshared(a, b)
    requires OneMore(a.ids, a'.ids, m.nextToken) && OneMore(a.rows, a'.rows, m.nextRow)
    ensures Unshared(a', b) && Unshared(b, a')
  {
    assert m.nextToken !in b.ids && m.nextRow !in b.rows;
  }

  lemma {:induction false} StatementUnshared(m: Machine, t: TxId, pick: TokenId)
    requires MachineInv(m) && CanMove(m, Statement(t, pick))
    ensures AllUnshared(Moved(m, Statement(t, pick)))
  {
    var m' := Moved(m, Statement(t, pick));
    StatementShape(m.db, m.txs[t], pick, m.nextToken, m.nextRow);
    forall u | u in m.txs && u != t
      ensures Unshared(m'.txs[t].over, m.txs[u].over) && Unshared(m.txs[u].over, m'.txs[t].over)
    {
      assert Drawn(m, m.txs[u].over) && Unshared(m.txs[t].over, m.txs[u].over);
      StillUnshared(m, m.txs[t].over, m'.txs[t].over, m.txs[u].over);
    }
  }

  lemma {:induction false} StatementExclusive(m: Machine, t: TxId, pick: TokenId)
    requires Exclusive(m) && CanMove(m, Statement(t, pick))
    ensures Exclusive(Moved(m, Statement(t, pick)))
  {
    StatementShape(m.db, m.txs[t], pick, m.nextToken, m.nextRow);
  }

  lemma {:induction false} StatementKeeps(m: Machine, t: TxId, pick: TokenId)
    requires MachineInv(m) && CanMove(m, Statement(t, pick))
    ensures MachineInv(Moved(m, Statement(t, pick)))
  {
    StatementDraws(m, t, pick);
    StatementUnshared(m, t, pick);
    StatementExclusive(m, t, pick);
    assert TxOk(m.db, m.txs[t]);
    StatementKeepsOk(m.db, m.txs[t], pick, m.nextToken, m.nextRow);
  }

  /******* Commits *******/

  lemma {:induction false} LockedTokensExist(db: Db, tx: Tx)
    requires TxOk(db, tx) && !tx.pc.Failing?
    ensures forall i :: TokenRow(i) in tx.locks ==> i in db.tokens
  {
    if tx.prog.SubmitTx? {
      forall i | TokenRow(i) in tx.locks ensures i in db.tokens {
        assert i in Own(db.tokens, tx.prog.d);
      }
    }
  }

  lemma {:induction false} OthersStayOk(m: Machine, t: TxId, u: TxId)
    requires MachineInv(m) && t in m.txs && m.txs[t].pc.Ready? && u in m.txs && u != t
    ensures TxOk(View(m.db, m.txs[t].over), m.txs[u])
  {
    var tx, other := m.txs[t], m.txs[u];
    assert TxOk(m.db, tx) && TxOk(m.db, other) && Drawn(m, tx.over);
    if !other.pc.Failing? {
      assert Unused(m.db, tx.over.ids);
      WritesAreGuarded(m.db, tx);
      LockedTokensExist(m.db, other);
      CommitSparesOthers(m.db, tx, other.locks);
      LockedStaysOk(m.db, View(m.db, tx.over), other);
    } else {
      assert TxOk(View(m.db, tx.over), other);
    }
  }

  /** An atomic transaction is one of those whose effect on the tables is already known to be good. */
  lemma {:induction false} AtomicIsGood(db: Db, tx: Tx, db': Db)
    requires DbInv(db) && tx.pc.Ready? && Atomic(db, tx, db')
    requires Fresh(tx.over.ids, db.usedTokens) && Fresh(tx.over.rows, db.usedRows)
    ensures GoodTransition(db, db')
  {
    match tx.prog
    case ClaimTx(d) => ClaimKeepsTables(db, d, tx.now);
    case PersistTx(d, v, es) => PersistKeepsTables(db, d, v, es, tx.over.ids, tx.over.rows, tx.now);
    case ApplyTx(id, v, result) => ApplyKeepsTables(db, id, v, result, tx.now);
    case SubmitTx(d, text, mode) =>
      if tx.pc.answer.res.accepted {
        SubmitKeepsTables(db, d, text, mode, tx.over.rows[0]);
      } else {
        NoChangeIsGood(db);
      }
  }

  lemma {:induction false} CommitKeepsDrawn(m: Machine, t: TxId)
    requires MachineInv(m) && CanMove(m, Commit(t))
    ensures AllDrawn(Moved(m, Commit(t))) && Ahead(Moved(m, Commit(t)))
  {
    var m' := Moved(m, Commit(t));
    assert Drawn(m, m.txs[t].over);
    forall u | u in m'.txs ensures Drawn(m', m'.txs[u].over) {
      assert Drawn(m, m.txs[u].over) && Unshared(m.txs[t].over, m.txs[u].over);
      var b := m.txs[u].over;
      assert forall k :: 0 <= k < |b.ids| ==> b.ids[k] in Elements(b.ids);
      assert forall k :: 0 <= k < |b.rows| ==> b.rows[k] in Elements(b.rows);
    }
  }

  lemma {:induction false} CommitKeeps(m: Machine, t: TxId)
    requires MachineInv(m) && CanMove(m, Commit(t))
    ensures MachineInv(Moved(m, Commit(t)))
    ensures Atomic(m.db, m.txs[t], Moved(m, Commit(t)).db) && GoodTransition(m.db, Moved(m, Commit(t)).db)
  {
    var m' := Moved(m, Commit(t));
    assert TxOk(m.db, m.txs[t]) && Drawn(m, m.txs[t].over);
    CommitIsAtomic(m.db, m.txs[t]);
    AtomicIsGood(m.db, m.txs[t], m'.db);
    CommitKeepsDrawn(m, t);
    forall u | u in m'.txs ensures TxOk(m'.db, m'.txs[u]) {
      OthersStayOk(m, t, u);
    }
  }

  /******* The other moves *******/

  lemma {:induction false} DrainKeeps(m: Machine, gone: set<RowId>)
    requires MachineInv(m)
    ensures MachineInv(Moved(m, Drain(gone)))
  {
    var m' := Moved(m, Drain(gone));
    DrainedTables(m.db, gone);
    forall t | t in m'.txs ensures TxOk(m'.db, m'.txs[t]) && Drawn(m', m'.txs[t].over) {
      assert TxOk(m.db, m.txs[t]) && Drawn(m, m.txs[t].over);
      LockedStaysOk(m.db, m'.db, m.txs[t]);
    }
  }

  lemma {:induction false} DrainedTables(db: Db, gone: set<RowId>)
    requires DbInv(db)
    ensures DbInv(db.(outbox := db.outbox - gone))
  {
    var db' := db.(outbox := db.outbox - gone);
    forall d | d in db'.docs ensures DocRowOk(db', d) {
      assert DocRowOk(db, d);
    }
    assert forall i :: i in db'.tokens ==> TokenOk(db, db.tokens[i]);
  }

  lemma {:induction false} BeginKeeps(m: Machine, t: TxId, prog: Prog, now: Time)
    requires MachineInv(m) && t !in m.txs
    ensures MachineInv(Moved(m, Begin(t, prog, now)))
  {
    var m' := Moved(m, Begin(t, prog, now));
    forall u | u in m'.txs ensures TxOk(m'.db, m'.txs[u]) && Drawn(m', m'.txs[u].over) {
      if u != t {
        assert TxOk(m.db, m.txs[u]) && Drawn(m, m.txs[u].over);
      }
    }
  }

  lemma {:induction false} AbortKeeps(m: Machine, t: TxId)
    requires MachineInv(m) && t in m.txs
    ensures MachineInv(Moved(m, Abort(t)))
  {
    var m' := Moved(m, Abort(t));
    forall u | u in m'.txs ensures TxOk(m'.db, m'.txs[u]) && Drawn(m', m'.txs[u].over) {
      assert TxOk(m.db, m.txs[u]) && Drawn(m, m.txs[u].over);
    }
  }

  lemma {:induction false} MoveKeeps(m: Machine, move: Move)
    requires MachineInv(m) && CanMove(m, move)
    ensures MachineInv(Moved(m, move))
  {
    match move
    case Begin(t, prog, now) => BeginKeeps(m, t, prog, now);
    case Statement(t, pick) => StatementKeeps(m, t, pick);
    case Commit(t) => CommitKeeps(m, t);
    case Abort(t) => AbortKeeps(m, t);
    case Drain(gone) => DrainKeeps(m, gone);
  }

  /** What each move means to the atomic model: a commit is one transaction run at that moment with its answer; a
      refusal is what that transaction would answer at that moment; no other move touches the tables. */
  lemma {:induction false} MoveRefines(m: Machine, move: Move)
    requires MachineInv(m) && CanMove(m, move)
    ensures move.Commit? ==> Atomic(m.db, m.txs[move.t], Moved(m, move).db)
    ensures move.Statement? && Moved(m, move).txs[move.t].pc.Failing? ==>
              Refused(m.db, m.txs[move.t], Moved(m, move).txs[move.t].pc.error)
    ensures !move.Commit? && !move.Drain? ==> Moved(m, move).db == m.db
  {
    match move
    case Commit(t) => CommitKeeps(m, t);
    case Statement(t, pick) =>
      assert TxOk(m.db, m.txs[t]);
      if Moved(m, move).txs[t].pc.Failing? {
        RefusalIsAtomic(m.db, m.txs[t], pick, m.nextToken, m.nextRow);
      }
    case _ =>
  }

  /******* Whole schedules *******/

  const EMPTY: Machine := Machine(EMPTY_DB, map[], 0, 0)

  datatype Schedule = Start | Then(before: Schedule, move: Move)

  ghost predicate Possible(s: Schedule)
    decreases s, 0
  {
    s.Then? ==> Possible(s.before) && CanMove(Reached(s.before), s.move)
  }

  ghost function Reached(s: Schedule): Machine
    requires Possible(s)
    decreases s, 1
  {
    match s
    case Start => EMPTY
    case Then(before, move) => Moved(Reached(before), move)
  }

  lemma {:induction false} AlwaysMachineInv(s: Schedule)
    requires Possible(s)
    ensures MachineInv(Reached(s))
  {
    if s.Then? {
      AlwaysMachineInv(s.before);
      MoveKeeps(Reached(s.before), s.move);
    } else {
      assert DbInv(EMPTY_DB);
    }
  }

  /** An entry of the serial history. */
  datatype Step = Ran(tx: Tx) | Drained(gone: set<RowId>)

  /** The atomic transaction, or the relay's deletion, applied to the tables. */
  ghost function Perform(db: Db, step: Step): Db {
    match step
    case Drained(gone) => db.(outbox := db.outbox - gone)
    case Ran(tx) =>
      match tx.prog
      case ClaimTx(d) => Claim(db, d, tx.now).0
      case PersistTx(d, v, es) =>
        var o := tx.over;
        if |o.ids| == |es| && |o.rows| == |PersistJobs(db, d, v, es, o.ids)|
        then Persist(db, d, v, es, o.ids, o.rows, tx.now).0 else db
      case ApplyTx(id, v, result) => Apply(db, id, v, result, tx.now).0
      case SubmitTx(d, text, mode) => Submit(db, d, text, mode, if tx.over.rows == [] then 0 else tx.over.rows[0]).0
  }

  ghost function Replay(log: seq<Step>): Db {
    if log == [] then EMPTY_DB else Perform(Replay(log[..|log| - 1]), log[|log| - 1])
  }

  /** The commits of a schedule in the order they happened. */
  ghost function Log(s: Schedule): seq<Step>
    requires Possible(s)
  {
    match s
    case Start => []
    case Then(before, move) =>
      match move
      case Commit(t) => Log(before) + [Ran(Reached(before).txs[t])]
      case Drain(gone) => Log(before) + [Drained(gone)]
      case _ => Log(before)
  }

  /** Every interleaving is serializable in commit order: the tables it reaches are those of running its committed
      transactions one at a time, whole; and the invariant of the atomic model holds of them. */
  lemma {:induction false} Serial(s: Schedule)
    requires Possible(s)
    ensures Reached(s).db == Replay(Log(s))
    ensures DbInv(Reached(s).db)
  {
    AlwaysMachineInv(s);
    if s.Then? {
      var m := Reached(s.before);
      Serial(s.before);
      AlwaysMachineInv(s.before);
      MoveRefines(m, s.move);
      var log := Log(s);
      assert s.move.Commit? || s.move.Drain? ==> log[..|log| - 1] == Log(s.before);
    }
  }
}
