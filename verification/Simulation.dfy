/** The whole system at statement level: handlers, streams and relays of the protocol, but every transaction of a
    worker or of a submit runs one SQL statement at a time between all the others.  Each of its schedules is a run
    of the protocol, so everything proved of runs holds of it. */
module Simulation {
  import opened Domain
  import opened Collections
  import opened Store
  import opened Protocol
  import opened Safety
  import opened Statements
  import opened Serializable
  import opened Interleavings

  /** On whose behalf a transaction runs. */
  datatype Owner = Client | Worker(h: HandlerId)

  datatype System = System(
    machine: Machine,
    owners: map<TxId, Owner>,
    stream: map<MsgId, Entry>,
    handlers: map<HandlerId, Handler>,
    relays: map<RelayId, RelayTx>,
    clock: Time)

  /** What the protocol sees: the committed tables, and handlers that a transaction moves only when it ends. */
  function Abs(y: System): State {
    State(y.machine.db, y.stream, y.handlers, y.relays, y.clock)
  }

  datatype Act =
    | BeginSubmit(t: TxId, d: DocId, text: string, mode: RerunMode)
    | BeginWork(t: TxId, h: HandlerId)
    | Execute(t: TxId, pick: TokenId)
    | End(t: TxId)
    | Undo(t: TxId)
    | Other(e: Event)

  /** The transaction that a handler opens next, if it opens one. */
  function ProgOf(x: Handler): Option<Prog> {
    match x.job
    case ExtractJob(d, _) =>
      if x.phase.Started? then Some(ClaimTx(d))
      else if x.phase.Extracted? then Some(PersistTx(d, x.phase.snap.runVersion, x.phase.entities))
      else None
    case ClassifyJob(id, _, v) => if x.phase.Scored? then Some(ApplyTx(id, v, x.phase.result)) else None
  }

  /** The handler waits for a transaction of its own. */
  ghost predicate Engaged(y: System, h: HandlerId) {
    exists t :: t in y.machine.txs && Works(y, t, h)
  }

  ghost predicate Works(y: System, t: TxId, h: HandlerId)
    requires t in y.machine.txs
  {
    t in y.owners && y.owners[t] == Worker(h) && !y.machine.txs[t].pc.Failing?
  }

  /** Events that involve no transaction of a worker or a submit. */
  predicate Apart(e: Event) {
    !e.SubmitDoc? && !e.ClaimDoc? && !e.PersistDoc? && !e.ApplyToken?
  }

  predicate OfHandler(e: Event) {
    e.ExtractDoc? || e.CheckToken? || e.ScoreToken? || e.Ack? || e.Drop?
  }

  /** A crash with a transaction open is an undo, or an end whose reply is lost, followed by a drop. */
  ghost predicate CanAct(y: System, a: Act) {
    match a
    case BeginSubmit(t, d, text, mode) => t !in y.machine.txs
    case BeginWork(t, h) =>
      t !in y.machine.txs && h in y.handlers && ProgOf(y.handlers[h]).Some? && !Engaged(y, h)
    case Execute(t, pick) => CanMove(y.machine, Statement(t, pick))
    case End(t) => CanMove(y.machine, Commit(t))
    case Undo(t) => CanMove(y.machine, Abort(t))
    case Other(e) => Apart(e) && Enabled(Abs(y), e) && (OfHandler(e) ==> !Engaged(y, e.h))
  }

  function Told(x: Handler, phase: Phase, clock: Time): Handler {
    x.(phase := phase, since := clock)
  }

  /** What a worker does with the answer of its transaction. */
  function PhaseOf(answer: Answer): Phase {
    if answer.Claimed? then Protocol.AfterClaim(Ok(answer.doc)) else Done
  }

  ghost function Handed(y: System, t: TxId, phase: Phase): map<HandlerId, Handler> {
    if t in y.owners && y.owners[t].Worker? && y.owners[t].h in y.handlers
    then y.handlers[y.owners[t].h := Told(y.handlers[y.owners[t].h], phase, y.clock)]
    else y.handlers
  }

  ghost function Acted(y: System, a: Act): System
    requires CanAct(y, a)
  {
    match a
    case BeginSubmit(t, d, text, mode) =>
      y.(machine := Moved(y.machine, Begin(t, SubmitTx(d, text, mode), y.clock)), owners := y.owners[t := Client])
    case BeginWork(t, h) =>
      y.(machine := Moved(y.machine, Begin(t, ProgOf(y.handlers[h]).value, y.clock)),
         owners := y.owners[t := Worker(h)])
    case Execute(t, pick) =>
      var machine := Moved(y.machine, Statement(t, pick));
      // A refusal is final: the handler drops the job.
      y.(machine := machine, handlers := if machine.txs[t].pc.Failing? then Handed(y, t, Done) else y.handlers)
    case End(t) =>
      y.(machine := Moved(y.machine, Commit(t)), owners := y.owners - {t},
         handlers := Handed(y, t, PhaseOf(y.machine.txs[t].pc.answer)))
    case Undo(t) => y.(machine := Moved(y.machine, Abort(t)), owners := y.owners - {t})
    case Other(e) =>
      var gone := if e.RelayCommit? then Elements(y.relays[e.r].rows) else {};
      System(Moved(y.machine, Drain(gone)), y.owners, StreamAfter(Abs(y), e), HandlersAfter(Abs(y), e),
             RelaysAfter(Abs(y), e), if e.Tick? then e.to else y.clock)
  }

  /******* The protocol event that an act amounts to *******/

  ghost function Unborn(m: Machine, n: nat): seq<TokenId> {
    seq(n, k => m.nextToken + k)
  }

  /** None: the protocol does not notice. */
  ghost function EventOf(y: System, a: Act): Option<Event>
    requires CanAct(y, a)
  {
    match a
    case Execute(t, pick) =>
      var tx := y.machine.txs[t];
      if t !in y.owners || y.owners[t].Client? || !Moved(y.machine, Statement(t, pick)).txs[t].pc.Failing? then None
      else (match tx.prog
            case ClaimTx(d) => Some(ClaimDoc(y.owners[t].h, tx.now))
            case PersistTx(d, v, es) => Some(PersistDoc(y.owners[t].h, Unborn(y.machine, |es|), [], tx.now))
            case ApplyTx(id, v, result) => Some(ApplyToken(y.owners[t].h, tx.now))
            case SubmitTx(d, text, mode) => None)
    case End(t) =>
      var tx := y.machine.txs[t];
      if tx.prog.SubmitTx? then
        var row := if tx.over.rows == [] then y.machine.nextRow else tx.over.rows[0];
        Some(SubmitDoc(tx.prog.d, tx.prog.text, tx.prog.mode, row))
      else if t !in y.owners || y.owners[t].Client? then None
      else (match tx.prog
            case ClaimTx(d) => Some(ClaimDoc(y.owners[t].h, tx.now))
            case PersistTx(d, v, es) => Some(PersistDoc(y.owners[t].h, tx.over.ids, tx.over.rows, tx.now))
            case ApplyTx(id, v, result) => Some(ApplyToken(y.owners[t].h, tx.now)))
    case Other(e) => Some(e)
    case _ => None
  }

  /******* The invariant *******/

  /** A transaction still at work does what its owner asked for, and began after the owner's last action. */
  ghost predicate Assigned(y: System, t: TxId)
    requires t in y.machine.txs && t in y.owners
  {
    var tx := y.machine.txs[t];
    match y.owners[t]
    case Client => tx.prog.SubmitTx?
    case Worker(h) =>
      tx.pc.Failing?
      || (&& h in y.handlers && ProgOf(y.handlers[h]) == Some(tx.prog)
          && y.handlers[h].since <= tx.now <= y.clock)
  }

  ghost predicate SystemInv(y: System) {
    MachineInv(y.machine) && Linked(y)
  }

  ghost predicate Linked(y: System) {
    && y.owners.Keys == y.machine.txs.Keys
    && (forall t :: t in y.machine.txs ==> Assigned(y, t))
    && (forall t, u, h :: t in y.machine.txs && u in y.machine.txs && Works(y, t, h) && Works(y, u, h) ==> t == u)
    && (forall h :: h in y.handlers ==> y.handlers[h].since <= y.clock)
  }

  /******* Commits and refusals *******/

  /** The handler's next transaction is this one. */
  ghost predicate Due(s: State, h: HandlerId, tx: Tx) {
    && h in s.handlers && ProgOf(s.handlers[h]) == Some(tx.prog)
    && s.handlers[h].since <= tx.now <= s.clock
  }

  ghost function Advanced(s: State, h: HandlerId, db: Db, phase: Phase): State
    requires h in s.handlers
  {
    s.(db := db, handlers := s.handlers[h := Told(s.handlers[h], phase, s.clock)])
  }

  lemma {:induction false} ClaimEnds(s: State, h: HandlerId, tx: Tx, db': Db)
    requires Due(s, h, tx) && tx.prog.ClaimTx? && tx.pc.Ready? && Atomic(s.db, tx, db')
    ensures Enabled(s, ClaimDoc(h, tx.now))
    ensures Next(s, ClaimDoc(h, tx.now)) == Advanced(s, h, db', PhaseOf(tx.pc.answer))
  {
  }

  lemma {:induction false} PersistEnds(s: State, h: HandlerId, tx: Tx, db': Db)
    requires Due(s, h, tx) && tx.prog.PersistTx? && tx.pc.Ready? && Atomic(s.db, tx, db')
    requires Fresh(tx.over.ids, s.db.usedTokens) && Fresh(tx.over.rows, s.db.usedRows)
    ensures Enabled(s, PersistDoc(h, tx.over.ids, tx.over.rows, tx.now))
    ensures Next(s, PersistDoc(h, tx.over.ids, tx.over.rows, tx.now)) == Advanced(s, h, db', PhaseOf(tx.pc.answer))
  {
  }

  lemma {:induction false} ApplyEnds(s: State, h: HandlerId, tx: Tx, db': Db)
    requires Due(s, h, tx) && tx.prog.ApplyTx? && tx.pc.Ready? && Atomic(s.db, tx, db')
    ensures Enabled(s, ApplyToken(h, tx.now))
    ensures Next(s, ApplyToken(h, tx.now)) == Advanced(s, h, db', PhaseOf(tx.pc.answer))
  {
  }

  lemma {:induction false} ClaimRefused(s: State, h: HandlerId, tx: Tx, error: Error)
    requires Due(s, h, tx) && tx.prog.ClaimTx? && Refused(s.db, tx, error)
    ensures Enabled(s, ClaimDoc(h, tx.now)) && Next(s, ClaimDoc(h, tx.now)) == Advanced(s, h, s.db, Done)
  {
  }

  lemma {:induction false} PersistRefused(s: State, h: HandlerId, tx: Tx, error: Error, ids: seq<TokenId>)
    requires Due(s, h, tx) && tx.prog.PersistTx? && Refused(s.db, tx, error)
    requires |ids| == |tx.prog.es| && Fresh(ids, s.db.usedTokens)
    ensures Enabled(s, PersistDoc(h, ids, [], tx.now))
    ensures Next(s, PersistDoc(h, ids, [], tx.now)) == Advanced(s, h, s.db, Done)
  {
  }

  lemma {:induction false} ApplyRefused(s: State, h: HandlerId, tx: Tx, error: Error)
    requires Due(s, h, tx) && tx.prog.ApplyTx? && Refused(s.db, tx, error)
    ensures Enabled(s, ApplyToken(h, tx.now)) && Next(s, ApplyToken(h, tx.now)) == Advanced(s, h, s.db, Done)
  {
  }

  lemma {:induction false} SubmitEnds(s: State, tx: Tx, db': Db, row: RowId)
    requires tx.prog.SubmitTx? && tx.pc.Ready? && Atomic(s.db, tx, db') && row !in s.db.usedRows
    requires tx.over.rows != [] ==> row == tx.over.rows[0]
    ensures var e := SubmitDoc(tx.prog.d, tx.prog.text, tx.prog.mode, row);
            Enabled(s, e) && Next(s, e) == s.(db := db')
  {
  }

  /** Each act is the event given for it, or nothing, to the protocol. */
  ghost predicate Matches(y: System, a: Act)
    requires CanAct(y, a)
  {
    match EventOf(y, a)
    case None => Abs(Acted(y, a)) == Abs(y)
    case Some(e) => Enabled(Abs(y), e) && Next(Abs(y), e) == Abs(Acted(y, a))
  }

  /** What an owner knows of its transaction. */
  ghost predicate Entitled(y: System, t: TxId)
    requires t in y.machine.txs
  {
    && t in y.owners
    && match y.owners[t]
       case Client => y.machine.txs[t].prog.SubmitTx?
       case Worker(h) => Due(Abs(y), h, y.machine.txs[t])
  }

  lemma {:induction false} EndFacts(y: System, t: TxId)
    requires SystemInv(y) && CanAct(y, End(t))
    ensures Entitled(y, t) && y.machine.nextRow !in y.machine.db.usedRows
    ensures var db, tx := y.machine.db, y.machine.txs[t];
            && Atomic(db, tx, View(db, tx.over))
            && Fresh(tx.over.ids, db.usedTokens) && Fresh(tx.over.rows, db.usedRows)
  {
    var m, tx := y.machine, y.machine.txs[t];
    assert t in y.owners && Assigned(y, t) && TxOk(m.db, tx) && Drawn(m, tx.over);
    CommitIsAtomic(m.db, tx);
  }

  lemma {:induction false} SubmitAsEvent(y: System, t: TxId)
    requires CanAct(y, End(t)) && Entitled(y, t) && y.machine.txs[t].prog.SubmitTx?
    requires y.machine.nextRow !in y.machine.db.usedRows
    requires var db, tx := y.machine.db, y.machine.txs[t];
             Atomic(db, tx, View(db, tx.over)) && Fresh(tx.over.rows, db.usedRows)
    ensures Matches(y, End(t))
  {
    var tx := y.machine.txs[t];
    assert y.owners[t].Client?;
    SubmitEnds(Abs(y), tx, View(y.machine.db, tx.over),
               if tx.over.rows == [] then y.machine.nextRow else tx.over.rows[0]);
  }

  lemma {:induction false} EndAsEvent(y: System, t: TxId)
    requires CanAct(y, End(t)) && Entitled(y, t) && y.machine.nextRow !in y.machine.db.usedRows
    requires var db, tx := y.machine.db, y.machine.txs[t];
             && Atomic(db, tx, View(db, tx.over))
             && Fresh(tx.over.ids, db.usedTokens) && Fresh(tx.over.rows, db.usedRows)
    ensures Matches(y, End(t))
  {
    var s, tx := Abs(y), y.machine.txs[t];
    var db' := View(y.machine.db, tx.over);
    match tx.prog
    case SubmitTx(d, text, mode) => SubmitAsEvent(y, t);
    case ClaimTx(d) => ClaimEnds(s, y.owners[t].h, tx, db');
    case PersistTx(d, v, es) => PersistEnds(s, y.owners[t].h, tx, db');
    case ApplyTx(id, v, result) => ApplyEnds(s, y.owners[t].h, tx, db');
  }

  lemma {:induction false} EndMatches(y: System, t: TxId)
    requires SystemInv(y) && CanAct(y, End(t))
    ensures Matches(y, End(t))
  {
    EndFacts(y, t);
    EndAsEvent(y, t);
  }

  lemma {:induction false} UnbornAreFresh(m: Machine, n: nat)
    requires Ahead(m)
    ensures |Unborn(m, n)| == n && Fresh(Unborn(m, n), m.db.usedTokens)
  {
  }

  lemma {:induction false} RefusalFacts(y: System, t: TxId, pick: TokenId)
    requires SystemInv(y) && CanAct(y, Execute(t, pick))
    ensures Entitled(y, t) && Ahead(y.machine)
    ensures var after := Moved(y.machine, Statement(t, pick)).txs[t];
            after.pc.Failing? ==> Refused(y.machine.db, y.machine.txs[t], after.pc.error)
  {
    var m, tx := y.machine, y.machine.txs[t];
    assert t in y.owners && Assigned(y, t) && TxOk(m.db, tx);
    if Moved(m, Statement(t, pick)).txs[t].pc.Failing? {
      RefusalIsAtomic(m.db, tx, pick, m.nextToken, m.nextRow);
    }
  }

  lemma {:induction false} RefusalAsEvent(y: System, t: TxId, pick: TokenId)
    requires CanAct(y, Execute(t, pick)) && Entitled(y, t) && Ahead(y.machine)
    requires var after := Moved(y.machine, Statement(t, pick)).txs[t];
             after.pc.Failing? && Refused(y.machine.db, y.machine.txs[t], after.pc.error)
    ensures Matches(y, Execute(t, pick))
  {
    var s, m, tx := Abs(y), y.machine, y.machine.txs[t];
    var error := Moved(m, Statement(t, pick)).txs[t].pc.error;
    match tx.prog
    case SubmitTx(d, text, mode) =>
    case ClaimTx(d) => ClaimRefused(s, y.owners[t].h, tx, error);
    case PersistTx(d, v, es) =>
      UnbornAreFresh(m, |es|);
      PersistRefused(s, y.owners[t].h, tx, error, Unborn(m, |es|));
    case ApplyTx(id, v, result) => ApplyRefused(s, y.owners[t].h, tx, error);
  }

  lemma {:induction false} ActMatches(y: System, a: Act)
    requires SystemInv(y) && CanAct(y, a)
    ensures Matches(y, a)
  {
    match a
    case End(t) => EndMatches(y, t);
    case Execute(t, pick) =>
      if Moved(y.machine, Statement(t, pick)).txs[t].pc.Failing? {
        RefusalFacts(y, t, pick);
        RefusalAsEvent(y, t, pick);
      }
    case Other(e) => OtherMatches(y, e);
    case _ =>
  }

  lemma {:induction false} OtherMatches(y: System, e: Event)
    requires CanAct(y, Other(e))
    ensures Matches(y, Other(e))
  {
    if !e.RelayCommit? {
      assert y.machine.db.outbox - {} == y.machine.db.outbox;
    }
  }

  /******* The invariant is kept *******/

  lemma {:induction false} StatementKeepsProg(db: Db, tx: Tx, pick: TokenId, id: TokenId, row: RowId)
    ensures After(db, tx, pick, id, row).prog == tx.prog && After(db, tx, pick, id, row).now == tx.now
  {
  }

  lemma {:induction false} BeginLinked(y: System, a: Act)
    requires Linked(y) && CanAct(y, a) && (a.BeginSubmit? || a.BeginWork?)
    ensures Linked(Acted(y, a))
  {
    var y' := Acted(y, a);
    assert y'.owners.Keys == y.owners.Keys + {a.t} && y'.machine.txs.Keys == y.machine.txs.Keys + {a.t};
    forall t | t in y'.machine.txs ensures Assigned(y', t) {
      if t != a.t { assert Assigned(y, t); }
    }
    forall t, u, h | t in y'.machine.txs && u in y'.machine.txs && Works(y', t, h) && Works(y', u, h) ensures t == u {
      if t != a.t && u != a.t { assert Works(y, t, h) && Works(y, u, h); }
    }
  }

  /** Ending a transaction, or refusing it, moves its own handler and no other that still has one. */
  lemma {:induction false} OthersStayAssigned(y: System, y': System, t: TxId, u: TxId, phase: Phase)
    requires Linked(y) && t in y.machine.txs && u in y.machine.txs && u != t && !y.machine.txs[t].pc.Failing?
    requires u in y'.machine.txs && y'.machine.txs[u] == y.machine.txs[u] && u in y'.owners
    requires y'.owners[u] == y.owners[u] && y'.clock == y.clock && y'.handlers == Handed(y, t, phase)
    ensures Assigned(y', u)
  {
    assert Assigned(y, u) && t in y.owners;
    if y.owners[u].Worker? && !y.machine.txs[u].pc.Failing? {
      assert Works(y, u, y.owners[u].h);
      assert y.owners[t] == y.owners[u] ==> Works(y, t, y.owners[u].h);
    }
  }

  lemma {:induction false} ExecuteLinked(y: System, t: TxId, pick: TokenId)
    requires Linked(y) && CanAct(y, Execute(t, pick))
    ensures Linked(Acted(y, Execute(t, pick)))
  {
    var y' := Acted(y, Execute(t, pick));
    StatementKeepsProg(y.machine.db, y.machine.txs[t], pick, y.machine.nextToken, y.machine.nextRow);
    assert Assigned(y, t);
    forall u | u in y'.machine.txs ensures Assigned(y', u) {
      if y'.machine.txs[t].pc.Failing? && u != t {
        OthersStayAssigned(y, y', t, u, Done);
      } else {
        assert Assigned(y, u);
      }
    }
    forall u, w, h | u in y'.machine.txs && w in y'.machine.txs && Works(y', u, h) && Works(y', w, h) ensures u == w {
      assert Works(y, u, h) && Works(y, w, h);
    }
  }

  lemma {:induction false} EndLinked(y: System, a: Act)
    requires Linked(y) && CanAct(y, a) && (a.End? || a.Undo?)
    ensures Linked(Acted(y, a))
  {
    var y' := Acted(y, a);
    assert y'.owners.Keys == y.owners.Keys - {a.t} && y'.machine.txs.Keys == y.machine.txs.Keys - {a.t};
    forall u | u in y'.machine.txs ensures Assigned(y', u) {
      assert Assigned(y, u);
      if a.End? {
        OthersStayAssigned(y, y', a.t, u, PhaseOf(y.machine.txs[a.t].pc.answer));
      }
    }
    forall u, w, h | u in y'.machine.txs && w in y'.machine.txs && Works(y', u, h) && Works(y', w, h) ensures u == w {
      assert Works(y, u, h) && Works(y, w, h);
    }
  }

  /** A handler with a transaction open is left alone by every other event. */
  lemma {:induction false} EngagedUntouched(y: System, e: Event, h: HandlerId)
    requires CanAct(y, Other(e)) && h in y.handlers && Engaged(y, h)
    ensures h in Acted(y, Other(e)).handlers && Acted(y, Other(e)).handlers[h] == y.handlers[h]
  {
  }

  lemma {:induction false} ClockRises(y: System, e: Event)
    requires CanAct(y, Other(e)) && forall h :: h in y.handlers ==> y.handlers[h].since <= y.clock
    ensures y.clock <= Acted(y, Other(e)).clock
    ensures forall h :: h in Acted(y, Other(e)).handlers ==>
              Acted(y, Other(e)).handlers[h].since <= Acted(y, Other(e)).clock
  {
  }

  lemma {:induction false} OtherLinked(y: System, e: Event)
    requires Linked(y) && CanAct(y, Other(e))
    ensures Linked(Acted(y, Other(e)))
  {
    var y' := Acted(y, Other(e));
    ClockRises(y, e);
    forall u | u in y'.machine.txs ensures Assigned(y', u) {
      assert Assigned(y, u);
      if y.owners[u].Worker? && !y.machine.txs[u].pc.Failing? {
        assert Works(y, u, y.owners[u].h);
        EngagedUntouched(y, e, y.owners[u].h);
      }
    }
    forall u, w, h | u in y'.machine.txs && w in y'.machine.txs && Works(y', u, h) && Works(y', w, h) ensures u == w {
      assert Works(y, u, h) && Works(y, w, h);
    }
  }

  lemma {:induction false} ActKeeps(y: System, a: Act)
    requires SystemInv(y) && CanAct(y, a)
    ensures SystemInv(Acted(y, a))
  {
    match a
    case BeginSubmit(t, d, text, mode) =>
      BeginLinked(y, a);
      MoveKeeps(y.machine, Begin(t, SubmitTx(d, text, mode), y.clock));
    case BeginWork(t, h) =>
      BeginLinked(y, a);
      MoveKeeps(y.machine, Begin(t, ProgOf(y.handlers[h]).value, y.clock));
    case Execute(t, pick) =>
      ExecuteLinked(y, t, pick);
      MoveKeeps(y.machine, Statement(t, pick));
    case End(t) =>
      EndLinked(y, a);
      MoveKeeps(y.machine, Commit(t));
    case Undo(t) =>
      EndLinked(y, a);
      MoveKeeps(y.machine, Abort(t));
    case Other(e) =>
      OtherLinked(y, e);
      MoveKeeps(y.machine, Drain(if e.RelayCommit? then Elements(y.relays[e.r].rows) else {}));
  }

  /******* Whole schedules *******/

  const INITIALLY: System := System(EMPTY, map[], map[], map[], map[], 0)

  datatype Trace = Nothing | And(before: Trace, act: Act)

  ghost predicate Happens(trace: Trace)
    decreases trace, 0
  {
    trace.And? ==> Happens(trace.before) && CanAct(SystemAfter(trace.before), trace.act)
  }

  ghost function SystemAfter(trace: Trace): System
    requires Happens(trace)
    decreases trace, 1
  {
    match trace
    case Nothing => INITIALLY
    case And(before, act) => Acted(SystemAfter(before), act)
  }

  /** The run of the protocol that a statement-level schedule amounts to. */
  ghost function RunOf(trace: Trace): Run
    requires Happens(trace)
  {
    match trace
    case Nothing => Run.Empty
    case And(before, act) =>
      match EventOf(SystemAfter(before), act)
      case None => RunOf(before)
      case Some(e) => Run.Then(RunOf(before), e)
  }

  lemma {:induction false} AlwaysSystemInv(trace: Trace)
    requires Happens(trace)
    ensures SystemInv(SystemAfter(trace))
  {
    if trace.And? {
      AlwaysSystemInv(trace.before);
      ActKeeps(SystemAfter(trace.before), trace.act);
    } else {
      AlwaysMachineInv(Start);
    }
  }

  /** Every schedule of statements, with handlers, streams, relays and crashes, is a run of the protocol that ends
      in the same tables, streams, handlers and relays. */
  lemma {:induction false} EveryScheduleIsARun(trace: Trace)
    requires Happens(trace)
    ensures Valid(RunOf(trace)) && Last(RunOf(trace)) == Abs(SystemAfter(trace))
  {
    if trace.And? {
      EveryScheduleIsARun(trace.before);
      AlwaysSystemInv(trace.before);
      ActMatches(SystemAfter(trace.before), trace.act);
    }
  }

  /** So the invariant of the protocol, and with it every result about runs, holds between any two statements. */
  lemma {:induction false} InvariantBetweenStatements(trace: Trace)
    requires Happens(trace)
    ensures Inv(Abs(SystemAfter(trace)))
  {
    EveryScheduleIsARun(trace);
    AlwaysInv(RunOf(trace));
  }
}
