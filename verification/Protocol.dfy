/** The whole pipeline as one state machine: the committed tables, the two at-least-once streams,
    every handler in flight with what it holds in memory, and every open relay transaction.
    Each database transaction is one event here; Simulation.dfy justifies that granularity. */
module Protocol {
  import opened Domain
  import opened Collections
  import opened Store

  type MsgId = int
  type HandlerId = int
  type RelayId = int

  /** A stream entry.  Acking takes an entry out of the pending list but leaves it in the stream.
      `origin` records the outbox row it was published from; no handler reads it. */
  datatype Entry = Entry(job: Job, origin: RowId, delivered: bool, acked: bool)

  /** How far a handler has got, with the snapshot it holds. */
  datatype Phase =
    | Started
    | Claimed(snap: Document)
    | Extracted(snap: Document, entities: seq<Entity>)
    | Checked(tok: Token)
    | Scored(tok: Token, result: Classification)
    | Done  // the handler returned nil; the ack is still to come

  /** `since` is the time of the handler's last action: its next transaction starts no earlier. */
  datatype Handler = Handler(msg: MsgId, job: Job, phase: Phase, since: Time)

  /** An open drainBatch transaction: the rows it holds locked, and how many it has published. */
  datatype RelayTx = RelayTx(rows: seq<RowId>, sent: nat)

  datatype State = State(
    db: Db,
    stream: map<MsgId, Entry>,
    handlers: map<HandlerId, Handler>,
    relays: map<RelayId, RelayTx>,
    clock: Time)

  const INITIAL: State := State(EMPTY_DB, map[], map[], map[], 0)

  datatype Event =
    | SubmitDoc(d: DocId, text: string, mode: RerunMode, row: RowId)
    | RelayClaim(r: RelayId, rows: seq<RowId>)
    | RelayPublish(r: RelayId, m: MsgId)
    | RelayCommit(r: RelayId)
    | RelayAbort(r: RelayId)
    | Deliver(m: MsgId, h: HandlerId)
    | ClaimDoc(h: HandlerId, now: Time)
    | ExtractDoc(h: HandlerId, entities: seq<Entity>)
    | PersistDoc(h: HandlerId, ids: seq<TokenId>, rows: seq<RowId>, now: Time)
    | CheckToken(h: HandlerId)
    | ScoreToken(h: HandlerId, result: Classification)
    | ApplyToken(h: HandlerId, now: Time)
    | Ack(h: HandlerId)
    | Drop(h: HandlerId)
    | Tick(to: Time)

  /******* When an event can happen *******/

  predicate At(s: State, h: HandlerId, extract: bool) {
    h in s.handlers && s.handlers[h].job.ExtractJob? == extract
  }

  /** A transaction's now() is its start: after the handler's last action, not after its commit. */
  predicate Timely(s: State, h: HandlerId, now: Time)
    requires h in s.handlers
  {
    s.handlers[h].since <= now <= s.clock
  }

  predicate Locked(s: State, row: RowId) {
    exists r | r in s.relays :: row in s.relays[r].rows
  }

  ghost predicate CanPersist(s: State, h: HandlerId, ids: seq<TokenId>, rows: seq<RowId>) {
    && At(s, h, true) && s.handlers[h].phase.Extracted?
    && var p, d := s.handlers[h].phase, s.handlers[h].job.docId;
    && |ids| == |p.entities| && Fresh(ids, s.db.usedTokens)
    && Fresh(rows, s.db.usedRows)
    && |rows| == |PersistJobs(s.db, d, p.snap.runVersion, p.entities, ids)|
  }

  ghost predicate Enabled(s: State, e: Event) {
    match e
    case SubmitDoc(d, text, mode, row) => row !in s.db.usedRows
    case RelayClaim(r, rows) =>
      // Any ascending choice of unlocked rows: this covers every batch limit and every SKIP LOCKED outcome.
      && r !in s.relays && Increasing(rows)
      && forall k :: 0 <= k < |rows| ==> rows[k] in s.db.outbox && !Locked(s, rows[k])
    case RelayPublish(r, m) =>
      && r in s.relays && s.relays[r].sent < |s.relays[r].rows|
      && s.relays[r].rows[s.relays[r].sent] in s.db.outbox && m !in s.stream
    case RelayCommit(r) => r in s.relays && s.relays[r].sent == |s.relays[r].rows|
    case RelayAbort(r) => r in s.relays
    case Deliver(m, h) => m in s.stream && !s.stream[m].acked && h !in s.handlers
    case ClaimDoc(h, now) => At(s, h, true) && s.handlers[h].phase.Started? && Timely(s, h, now)
    case ExtractDoc(h, entities) => At(s, h, true) && s.handlers[h].phase.Claimed?
    case PersistDoc(h, ids, rows, now) => CanPersist(s, h, ids, rows) && Timely(s, h, now)
    case CheckToken(h) => At(s, h, false) && s.handlers[h].phase.Started?
    case ScoreToken(h, result) => At(s, h, false) && s.handlers[h].phase.Checked?
    case ApplyToken(h, now) => At(s, h, false) && s.handlers[h].phase.Scored? && Timely(s, h, now)
    case Ack(h) => h in s.handlers && s.handlers[h].phase.Done? && s.handlers[h].msg in s.stream
    case Drop(h) => h in s.handlers
    case Tick(to) => s.clock <= to
  }

  /******* What it does *******/

  /** handle and Process decide from the claimed document whether extraction is still to be done. */
  function AfterClaim(out: Outcome<Document>): Phase {
    if out.Ok? && out.value.status != Completed && out.value.status != Classifying then Claimed(out.value) else Done
  }

  function AfterCheck(db: Db, id: TokenId): Phase {
    if id in db.tokens && db.tokens[id].status != TokenClassified then Checked(db.tokens[id]) else Done
  }

  ghost function PersistOf(s: State, h: HandlerId, ids: seq<TokenId>, rows: seq<RowId>, now: Time): Db
    requires CanPersist(s, h, ids, rows)
  {
    var p, d := s.handlers[h].phase, s.handlers[h].job.docId;
    Persist(s.db, d, p.snap.runVersion, p.entities, ids, rows, now).0
  }

  function ApplyOf(s: State, h: HandlerId, now: Time): Db
    requires At(s, h, false) && s.handlers[h].phase.Scored?
  {
    var job := s.handlers[h].job;
    Apply(s.db, job.tokenId, job.runVersion, s.handlers[h].phase.result, now).0
  }

  /** The tables after an event. */
  ghost function DbAfter(s: State, e: Event): Db
    requires Enabled(s, e)
  {
    match e
    case SubmitDoc(d, text, mode, row) => Submit(s.db, d, text, mode, row).0
    case RelayCommit(r) => s.db.(outbox := s.db.outbox - Elements(s.relays[r].rows))
    case ClaimDoc(h, now) => Claim(s.db, s.handlers[h].job.docId, now).0
    case PersistDoc(h, ids, rows, now) => PersistOf(s, h, ids, rows, now)
    case ApplyToken(h, now) => ApplyOf(s, h, now)
    case _ => s.db
  }

  /** The streams after an event: publishing appends, acking only flips a flag. */
  ghost function StreamAfter(s: State, e: Event): map<MsgId, Entry>
    requires Enabled(s, e)
  {
    match e
    case RelayPublish(r, m) =>
      var row := s.relays[r].rows[s.relays[r].sent];
      s.stream[m := Entry(s.db.outbox[row], row, false, false)]
    case Deliver(m, h) => s.stream[m := s.stream[m].(delivered := true)]
    case Ack(h) => s.stream[s.handlers[h].msg := s.stream[s.handlers[h].msg].(acked := true)]
    case _ => s.stream
  }

  /** The phase a handler reaches by an event of its own. */
  ghost function PhaseAfter(s: State, e: Event): Phase
    requires Enabled(s, e)
  {
    match e
    case ClaimDoc(h, now) => AfterClaim(Claim(s.db, s.handlers[h].job.docId, now).1)
    case ExtractDoc(h, entities) => Extracted(s.handlers[h].phase.snap, entities)
    case CheckToken(h) => AfterCheck(s.db, s.handlers[h].job.tokenId)
    case ScoreToken(h, result) => Scored(s.handlers[h].phase.tok, result)
    case _ => Done
  }

  predicate HandlerStep(e: Event) {
    e.ClaimDoc? || e.ExtractDoc? || e.PersistDoc? || e.CheckToken? || e.ScoreToken? || e.ApplyToken?
  }

  ghost function HandlersAfter(s: State, e: Event): map<HandlerId, Handler>
    requires Enabled(s, e)
  {
    if HandlerStep(e) then s.handlers[e.h := s.handlers[e.h].(phase := PhaseAfter(s, e), since := s.clock)]
    else if e.Deliver? then s.handlers[e.h := Handler(e.m, s.stream[e.m].job, Started, s.clock)]
    else if e.Ack? || e.Drop? then s.handlers - {e.h}
    else s.handlers
  }

  ghost function RelaysAfter(s: State, e: Event): map<RelayId, RelayTx>
    requires Enabled(s, e)
  {
    match e
    case RelayClaim(r, rows) => s.relays[r := RelayTx(rows, 0)]
    case RelayPublish(r, m) => s.relays[r := s.relays[r].(sent := s.relays[r].sent + 1)]
    case RelayCommit(r) => s.relays - {r}
    case RelayAbort(r) => s.relays - {r}
    case _ => s.relays
  }

  ghost function Next(s: State, e: Event): State
    requires Enabled(s, e)
  {
    State(DbAfter(s, e), StreamAfter(s, e), HandlersAfter(s, e), RelaysAfter(s, e), if e.Tick? then e.to else s.clock)
  }

  /******* Runs *******/

  /** A run from the initial state, latest event last. */
  datatype Run = Empty | Then(before: Run, event: Event)

  ghost predicate Valid(run: Run)
    decreases run, 0
  {
    run.Then? ==> Valid(run.before) && Enabled(Last(run.before), run.event)
  }

  ghost function Last(run: Run): State
    requires Valid(run)
    decreases run, 1
  {
    match run
    case Empty => INITIAL
    case Then(before, event) => Next(Last(before), event)
  }

  /** `later` continues `run`. */
  ghost predicate Continues(run: Run, later: Run) {
    run == later || (later.Then? && Continues(run, later.before))
  }
}
