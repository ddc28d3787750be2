/** The inductive invariant of the protocol: it holds in every state of every run. */
module Safety {
  import opened Domain
  import opened Collections
  import opened Store
  import opened TableInvariant
  import opened Protocol

  /** A job is somewhere it will be (re)delivered from: the outbox, or a stream entry nobody has acked. */
  ghost predicate Outstanding(s: State, job: Job) {
    || (exists r :: r in s.db.outbox && s.db.outbox[r] == job)
    || (exists m :: m in s.stream && s.stream[m].job == job && !s.stream[m].acked)
  }

  /** No lost work. */
  ghost predicate WorkOk(s: State) {
    forall job :: Needed(s.db, job) ==> Outstanding(s, job)
  }

  ghost predicate EntryOk(db: Db, e: Entry) {
    && JobOk(db, e.job)
    && (e.acked ==> Obsolete(db, e.job))
    && e.origin in db.usedRows
    && (e.origin in db.outbox ==> db.outbox[e.origin] == e.job)
  }

  ghost predicate StreamOk(s: State) {
    forall m :: m in s.stream ==> EntryOk(s.db, s.stream[m])
  }

  ghost predicate OutboxOk(db: Db) {
    forall r :: r in db.outbox ==> JobOk(db, db.outbox[r])
  }

  /** A snapshot taken by claim: if its run is still current then so is its text. */
  ghost predicate SnapOk(db: Db, job: Job, snap: Document) {
    && job.ExtractJob? && job.docId in db.docs
    && job.runVersion <= snap.runVersion <= db.docs[job.docId].runVersion
    && (snap.runVersion == db.docs[job.docId].runVersion ==>
          snap.text == db.docs[job.docId].text && db.docs[job.docId].status != Pending)
  }

  ghost predicate TokSnapOk(db: Db, job: Job, tok: Token) {
    && job.ClassifyJob?
    && (job.tokenId in db.tokens ==> TokenEvolves(tok, db.tokens[job.tokenId]))
  }

  ghost predicate PhaseOk(db: Db, job: Job, p: Phase) {
    match p
    case Started => true
    case Claimed(snap) => SnapOk(db, job, snap)
    case Extracted(snap, _) => SnapOk(db, job, snap)
    case Checked(tok) => TokSnapOk(db, job, tok)
    case Scored(tok, _) => TokSnapOk(db, job, tok)
    case Done => Obsolete(db, job)
  }

  ghost predicate HandlerOk(s: State, h: Handler) {
    && h.msg in s.stream && s.stream[h.msg].job == h.job
    && PhaseOk(s.db, h.job, h.phase)
    && h.since <= s.clock
  }

  ghost predicate HandlersOk(s: State) {
    forall h :: h in s.handlers ==> HandlerOk(s, s.handlers[h])
  }

  ghost predicate Published(s: State, row: RowId) {
    exists m :: m in s.stream && s.stream[m].origin == row
  }

  ghost predicate RelayOk(s: State, tx: RelayTx) {
    && Increasing(tx.rows) && tx.sent <= |tx.rows|
    && (forall k :: 0 <= k < |tx.rows| ==> tx.rows[k] in s.db.outbox)
    && (forall k :: 0 <= k < tx.sent ==> Published(s, tx.rows[k]))
  }

  /** No row is claimed by two open relay transactions. */
  ghost predicate RelaysOk(s: State) {
    && (forall r :: r in s.relays ==> RelayOk(s, s.relays[r]))
    && (forall q, r, row ::
          q in s.relays && r in s.relays && row in s.relays[q].rows && row in s.relays[r].rows ==> q == r)
  }

  ghost predicate Inv(s: State) {
    DbInv(s.db) && OutboxOk(s.db) && StreamOk(s) && HandlersOk(s) && RelaysOk(s) && WorkOk(s)
  }

  /******* A table transaction keeps the rest of the state consistent *******/

  lemma {:induction false} PhaseOkStable(a: Db, b: Db, job: Job, p: Phase)
    requires Evolves(a, b) && PhaseOk(a, job, p) && JobOk(a, job)
    ensures PhaseOk(b, job, p)
  {
    assert DocEvolves(a.docs[job.docId], b.docs[job.docId]);
    if p.Done? { ObsoleteStable(a, b, job); }
  }

  lemma {:induction false} StreamStable(s: State, db: Db)
    requires Inv(s) && GoodTransition(s.db, db)
    ensures StreamOk(s.(db := db)) && OutboxOk(db)
  {
    forall m | m in s.stream ensures EntryOk(db, s.stream[m]) {
      var e := s.stream[m];
      assert EntryOk(s.db, e);
      JobOkStable(s.db, db, e.job);
      if e.acked { ObsoleteStable(s.db, db, e.job); }
    }
    forall r | r in db.outbox ensures JobOk(db, db.outbox[r]) {
      if r in s.db.outbox { JobOkStable(s.db, db, s.db.outbox[r]); }
    }
  }

  lemma {:induction false} HandlersStable(s: State, db: Db)
    requires Inv(s) && GoodTransition(s.db, db)
    ensures HandlersOk(s.(db := db))
  {
    var s' := s.(db := db);
    forall h | h in s.handlers ensures HandlerOk(s', s.handlers[h]) {
      assert HandlerOk(s, s.handlers[h]);
      assert EntryOk(s.db, s.stream[s.handlers[h].msg]);
      PhaseOkStable(s.db, db, s.handlers[h].job, s.handlers[h].phase);
    }
  }

  lemma {:induction false} RelaysStable(s: State, db: Db)
    requires Inv(s) && GoodTransition(s.db, db)
    ensures RelaysOk(s.(db := db))
  {
    var s' := s.(db := db);
    forall r | r in s.relays ensures RelayOk(s', s.relays[r]) {
      assert RelayOk(s, s.relays[r]);
      forall k | 0 <= k < s.relays[r].sent ensures Published(s', s.relays[r].rows[k]) {
        assert Published(s, s.relays[r].rows[k]);
      }
    }
  }

  lemma {:induction false} WorkStable(s: State, db: Db)
    requires Inv(s) && GoodTransition(s.db, db)
    ensures WorkOk(s.(db := db))
  {
    var s' := s.(db := db);
    forall job | Needed(db, job) ensures Outstanding(s', job) {
      if Needed(s.db, job) {
        assert Outstanding(s, job);
      }
    }
  }

  lemma {:induction false} TransactionKeepsInv(s: State, db: Db)
    requires Inv(s) && GoodTransition(s.db, db)
    ensures Inv(s.(db := db))
  {
    StreamStable(s, db);
    HandlersStable(s, db);
    RelaysStable(s, db);
    WorkStable(s, db);
  }

  /******* Steps of one handler *******/

  function Advance(s: State, h: HandlerId, db: Db, phase: Phase): State
    requires h in s.handlers
  {
    s.(db := db, handlers := s.handlers[h := s.handlers[h].(phase := phase, since := s.clock)])
  }

  lemma {:induction false} AdvanceKeepsInv(s: State, h: HandlerId, db: Db, phase: Phase)
    requires Inv(s) && h in s.handlers && GoodTransition(s.db, db)
    requires PhaseOk(db, s.handlers[h].job, phase)
    ensures Inv(Advance(s, h, db, phase))
  {
    var mid, s' := s.(db := db), Advance(s, h, db, phase);
    TransactionKeepsInv(s, db);
    HandlerChangeKeepsInv(mid, h, mid.handlers[h].(phase := phase, since := s.clock));
  }

  /** Replacing one handler by a consistent one disturbs nothing else. */
  lemma {:induction false} HandlerChangeKeepsInv(s: State, h: HandlerId, new': Handler)
    requires Inv(s) && HandlerOk(s, new')
    ensures Inv(s.(handlers := s.handlers[h := new']))
  {
    var s' := s.(handlers := s.handlers[h := new']);
    forall x | x in s'.handlers ensures HandlerOk(s', s'.handlers[x]) {
      assert x == h || HandlerOk(s, s.handlers[x]);
    }
    SameTablesAndStream(s, s');
  }

  lemma {:induction false} HandlerEndKeepsInv(s: State, h: HandlerId)
    requires Inv(s)
    ensures Inv(s.(handlers := s.handlers - {h}))
  {
    var s' := s.(handlers := s.handlers - {h});
    forall x | x in s'.handlers ensures HandlerOk(s', s'.handlers[x]) {
      assert HandlerOk(s, s.handlers[x]);
    }
    SameTablesAndStream(s, s');
  }

  lemma {:induction false} SameTablesAndStream(s: State, s': State)
    requires Inv(s) && s'.db == s.db && s'.stream == s.stream && s'.relays == s.relays
    ensures StreamOk(s') && RelaysOk(s') && WorkOk(s')
  {
    forall r | r in s'.relays ensures RelayOk(s', s'.relays[r]) {
      assert RelayOk(s, s.relays[r]);
      forall k | 0 <= k < s'.relays[r].sent ensures Published(s', s'.relays[r].rows[k]) {
        assert Published(s, s.relays[r].rows[k]);
      }
    }
    forall job | Needed(s'.db, job) ensures Outstanding(s', job) {
      assert Outstanding(s, job);
    }
  }

  lemma {:induction false} ClaimKeepsInv(s: State, h: HandlerId, now: Time)
    requires Inv(s) && Enabled(s, ClaimDoc(h, now))
    ensures Inv(Next(s, ClaimDoc(h, now)))
  {
    var job := s.handlers[h].job;
    var (db, out) := Claim(s.db, job.docId, now);
    assert HandlerOk(s, s.handlers[h]);
    assert EntryOk(s.db, s.stream[s.handlers[h].msg]);
    ClaimKeepsTables(s.db, job.docId, now);
    assert DocRowOk(s.db, job.docId);
    AdvanceKeepsInv(s, h, db, AfterClaim(out));
  }

  lemma {:induction false} PersistLeavesObsolete(db: Db, job: Job, v: int, es: seq<Entity>, ids: seq<TokenId>,
                                                 rows: seq<RowId>, now: Time)
    requires job.ExtractJob? && JobOk(db, job) && job.runVersion <= v <= db.docs[job.docId].runVersion
    requires |ids| == |es| && |rows| == |PersistJobs(db, job.docId, v, es, ids)|
    ensures Obsolete(Persist(db, job.docId, v, es, ids, rows, now).0, job)
  {
  }

  lemma {:induction false} PersistKeepsInv(s: State, h: HandlerId, ids: seq<TokenId>, rows: seq<RowId>, now: Time)
    requires Inv(s) && Enabled(s, PersistDoc(h, ids, rows, now))
    ensures Inv(Next(s, PersistDoc(h, ids, rows, now)))
  {
    var job, p := s.handlers[h].job, s.handlers[h].phase;
    assert HandlerOk(s, s.handlers[h]);
    assert EntryOk(s.db, s.stream[s.handlers[h].msg]);
    PersistKeepsTables(s.db, job.docId, p.snap.runVersion, p.entities, ids, rows, now);
    PersistLeavesObsolete(s.db, job, p.snap.runVersion, p.entities, ids, rows, now);
    AdvanceKeepsInv(s, h, PersistOf(s, h, ids, rows, now), Done);
  }

  lemma {:induction false} ApplyLeavesObsolete(db: Db, job: Job, result: Classification, now: Time)
    requires DbInv(db) && job.ClassifyJob? && JobOk(db, job)
    ensures Obsolete(Apply(db, job.tokenId, job.runVersion, result, now).0, job)
  {
    if job.tokenId in db.tokens {
      assert TokenOk(db, db.tokens[job.tokenId]);
    }
  }

  lemma {:induction false} ApplyKeepsSafe(s: State, h: HandlerId, now: Time)
    requires Inv(s) && Enabled(s, ApplyToken(h, now))
    ensures Inv(Next(s, ApplyToken(h, now)))
  {
    var job, p := s.handlers[h].job, s.handlers[h].phase;
    assert HandlerOk(s, s.handlers[h]);
    assert EntryOk(s.db, s.stream[s.handlers[h].msg]);
    ApplyKeepsTables(s.db, job.tokenId, job.runVersion, p.result, now);
    ApplyLeavesObsolete(s.db, job, p.result, now);
    AdvanceKeepsInv(s, h, ApplyOf(s, h, now), Done);
  }

  lemma {:induction false} LocalStepKeepsInv(s: State, e: Event)
    requires Inv(s) && Enabled(s, e) && (e.ExtractDoc? || e.CheckToken? || e.ScoreToken?)
    ensures Inv(Next(s, e))
  {
    NoChangeIsGood(s.db);
    assert HandlerOk(s, s.handlers[e.h]);
    assert EntryOk(s.db, s.stream[s.handlers[e.h].msg]);
    AdvanceKeepsInv(s, e.h, s.db, Next(s, e).handlers[e.h].phase);
  }

  /******* Delivery *******/

  lemma {:induction false} DeliverKeepsInv(s: State, m: MsgId, h: HandlerId)
    requires Inv(s) && Enabled(s, Deliver(m, h))
    ensures Inv(Next(s, Deliver(m, h)))
  {
    var mid := s.(stream := s.stream[m := s.stream[m].(delivered := true)]);
    EntryUpdateKeepsInv(s, m, s.stream[m].(delivered := true));
    HandlerChangeKeepsInv(mid, h, Handler(m, s.stream[m].job, Started, s.clock));
  }

  /** Flipping the flags of an entry keeps the invariant, provided an acked job is obsolete. */
  lemma {:induction false} EntryUpdateKeepsInv(s: State, m: MsgId, e: Entry)
    requires Inv(s) && m in s.stream && e.job == s.stream[m].job && e.origin == s.stream[m].origin
    requires e.acked ==> Obsolete(s.db, e.job)
    requires s.stream[m].acked ==> e.acked
    ensures Inv(s.(stream := s.stream[m := e]))
  {
    var s' := s.(stream := s.stream[m := e]);
    assert StreamOk(s') by {
      forall x | x in s'.stream ensures EntryOk(s'.db, s'.stream[x]) {
        assert EntryOk(s.db, s.stream[x]);
      }
    }
    assert HandlersOk(s') by {
      forall h | h in s'.handlers ensures HandlerOk(s', s'.handlers[h]) {
        assert HandlerOk(s, s.handlers[h]);
      }
    }
    SentStaysPublished(s, s');
    forall job | Needed(s'.db, job) ensures Outstanding(s', job) {
      assert Outstanding(s, job);
      if k :| k in s.stream && s.stream[k].job == job && !s.stream[k].acked {
        if k == m && e.acked { ObsoleteExcludesNeeded(s.db, job); }
        assert k in s'.stream && s'.stream[k].job == job && !s'.stream[k].acked;
      }
    }
  }

  lemma {:induction false} SentStaysPublished(s: State, s': State)
    requires RelaysOk(s) && s'.db == s.db && s'.relays == s.relays
    requires forall m :: m in s.stream ==> m in s'.stream && s'.stream[m].origin == s.stream[m].origin
    ensures RelaysOk(s')
  {
    forall r | r in s'.relays ensures RelayOk(s', s'.relays[r]) {
      assert RelayOk(s, s.relays[r]);
      forall k | 0 <= k < s'.relays[r].sent ensures Published(s', s'.relays[r].rows[k]) {
        assert Published(s, s.relays[r].rows[k]);
        var m :| m in s.stream && s.stream[m].origin == s.relays[r].rows[k];
        assert m in s'.stream && s'.stream[m].origin == s.relays[r].rows[k];
      }
    }
  }

  lemma {:induction false} AckKeepsInv(s: State, h: HandlerId)
    requires Inv(s) && Enabled(s, Ack(h))
    ensures Inv(Next(s, Ack(h)))
  {
    var m := s.handlers[h].msg;
    assert HandlerOk(s, s.handlers[h]);
    EntryUpdateKeepsInv(s, m, s.stream[m].(acked := true));
    HandlerEndKeepsInv(s.(stream := s.stream[m := s.stream[m].(acked := true)]), h);
  }

  /******* The relay *******/

  lemma {:induction false} RelayClaimKeepsInv(s: State, r: RelayId, rows: seq<RowId>)
    requires Inv(s) && Enabled(s, RelayClaim(r, rows))
    ensures Inv(Next(s, RelayClaim(r, rows)))
  {
    var s' := Next(s, RelayClaim(r, rows));
    assert RelaysOk(s') by {
      forall x | x in s'.relays ensures RelayOk(s', s'.relays[x]) {
        if x != r {
          assert RelayOk(s, s.relays[x]);
          forall k | 0 <= k < s'.relays[x].sent ensures Published(s', s'.relays[x].rows[k]) {
            assert Published(s, s.relays[x].rows[k]);
          }
        }
      }
    }
    RelayOnlyKeepsRest(s, s');
  }

  lemma {:induction false} RelayAbortKeepsInv(s: State, r: RelayId)
    requires Inv(s) && Enabled(s, RelayAbort(r))
    ensures Inv(Next(s, RelayAbort(r)))
  {
    var s' := Next(s, RelayAbort(r));
    assert RelaysOk(s') by {
      forall x | x in s'.relays ensures RelayOk(s', s'.relays[x]) {
        assert RelayOk(s, s.relays[x]);
        forall k | 0 <= k < s'.relays[x].sent ensures Published(s', s'.relays[x].rows[k]) {
          assert Published(s, s.relays[x].rows[k]);
        }
      }
    }
    RelayOnlyKeepsRest(s, s');
  }

  lemma {:induction false} RelayOnlyKeepsRest(s: State, s': State)
    requires Inv(s) && s'.db == s.db && s'.stream == s.stream && s'.handlers == s.handlers && s'.clock == s.clock
    ensures StreamOk(s') && HandlersOk(s') && WorkOk(s')
  {
    forall h | h in s'.handlers ensures HandlerOk(s', s'.handlers[h]) {
      assert HandlerOk(s, s.handlers[h]);
    }
    forall job | Needed(s'.db, job) ensures Outstanding(s', job) {
      assert Outstanding(s, job);
    }
  }

  lemma {:induction false} PublishKeepsRelays(s: State, r: RelayId, m: MsgId)
    requires Inv(s) && Enabled(s, RelayPublish(r, m))
    ensures RelaysOk(Next(s, RelayPublish(r, m)))
  {
    var s' := Next(s, RelayPublish(r, m));
    forall x | x in s'.relays ensures RelayOk(s', s'.relays[x]) {
      assert RelayOk(s, s.relays[x]);
      forall k | 0 <= k < s'.relays[x].sent ensures Published(s', s'.relays[x].rows[k]) {
        if x == r && k == s.relays[r].sent {
          assert s'.stream[m].origin == s'.relays[x].rows[k];
        } else {
          assert Published(s, s.relays[x].rows[k]);
          var n :| n in s.stream && s.stream[n].origin == s.relays[x].rows[k];
          assert s'.stream[n] == s.stream[n];
        }
      }
    }
  }

  lemma {:induction false} PublishKeepsInv(s: State, r: RelayId, m: MsgId)
    requires Inv(s) && Enabled(s, RelayPublish(r, m))
    ensures Inv(Next(s, RelayPublish(r, m)))
  {
    var s' := Next(s, RelayPublish(r, m));
    PublishKeepsRelays(s, r, m);
    var row := s.relays[r].rows[s.relays[r].sent];
    assert JobOk(s.db, s.db.outbox[row]);
    forall x | x in s'.stream ensures EntryOk(s'.db, s'.stream[x]) {
      assert x != m ==> EntryOk(s.db, s.stream[x]);
    }
    forall h | h in s'.handlers ensures HandlerOk(s', s'.handlers[h]) {
      assert HandlerOk(s, s.handlers[h]);
    }
    forall job | Needed(s'.db, job) ensures Outstanding(s', job) {
      assert Outstanding(s, job);
      if k :| k in s.stream && s.stream[k].job == job && !s.stream[k].acked {
        assert s'.stream[k] == s.stream[k];
      }
    }
  }

  /** Deleting published rows loses no work: a published job is un-acked, or was acked because it is obsolete. */
  lemma {:induction false} CommitKeepsWork(s: State, r: RelayId)
    requires Inv(s) && Enabled(s, RelayCommit(r))
    ensures WorkOk(Next(s, RelayCommit(r)))
  {
    var s', tx := Next(s, RelayCommit(r)), s.relays[r];
    assert RelayOk(s, tx);
    forall job | Needed(s'.db, job) ensures Outstanding(s', job) {
      assert Needed(s.db, job);
      assert Outstanding(s, job);
      if row :| row in s.db.outbox && s.db.outbox[row] == job {
        if row in tx.rows {
          var k :| 0 <= k < |tx.rows| && tx.rows[k] == row;
          assert Published(s, tx.rows[k]);
          var m :| m in s.stream && s.stream[m].origin == row;
          assert EntryOk(s.db, s.stream[m]);
          if s.stream[m].acked { ObsoleteExcludesNeeded(s.db, job); }
          assert m in s'.stream && s'.stream[m].job == job && !s'.stream[m].acked;
        } else {
          assert row in s'.db.outbox && s'.db.outbox[row] == job;
        }
      }
    }
  }

  lemma {:induction false} CommitKeepsRelays(s: State, r: RelayId)
    requires Inv(s) && Enabled(s, RelayCommit(r))
    ensures RelaysOk(Next(s, RelayCommit(r)))
  {
    var s' := Next(s, RelayCommit(r));
    forall x | x in s'.relays ensures RelayOk(s', s'.relays[x]) {
      assert RelayOk(s, s.relays[x]);
      forall k | 0 <= k < |s'.relays[x].rows| ensures s'.relays[x].rows[k] in s'.db.outbox {
        assert s'.relays[x].rows[k] in s.relays[x].rows;
      }
      forall k | 0 <= k < s'.relays[x].sent ensures Published(s', s'.relays[x].rows[k]) {
        assert Published(s, s.relays[x].rows[k]);
      }
    }
  }

  lemma {:induction false} CommitKeepsTables(s: State, r: RelayId)
    requires Inv(s) && Enabled(s, RelayCommit(r))
    ensures var s' := Next(s, RelayCommit(r)); DbInv(s'.db) && OutboxOk(s'.db) && StreamOk(s') && HandlersOk(s')
  {
    var s' := Next(s, RelayCommit(r));
    forall d | d in s'.db.docs ensures DocRowOk(s'.db, d) { assert DocRowOk(s.db, d); }
    forall i | i in s'.db.tokens ensures TokenOk(s'.db, s'.db.tokens[i]) { assert TokenOk(s.db, s.db.tokens[i]); }
    forall x | x in s'.db.outbox ensures JobOk(s'.db, s'.db.outbox[x]) { assert JobOk(s.db, s.db.outbox[x]); }
    forall m | m in s'.stream ensures EntryOk(s'.db, s'.stream[m]) { assert EntryOk(s.db, s.stream[m]); }
    forall h | h in s'.handlers ensures HandlerOk(s', s'.handlers[h]) { assert HandlerOk(s, s.handlers[h]); }
  }

  lemma {:induction false} TickKeepsInv(s: State, to: Time)
    requires Inv(s) && Enabled(s, Tick(to))
    ensures Inv(Next(s, Tick(to)))
  {
    var s' := Next(s, Tick(to));
    forall h | h in s'.handlers ensures HandlerOk(s', s'.handlers[h]) { assert HandlerOk(s, s.handlers[h]); }
    SameTablesAndStream(s, s');
  }

  /** Events that can change documents, tokens or outbox. */
  predicate Writes(e: Event) {
    e.SubmitDoc? || e.RelayCommit? || e.ClaimDoc? || e.PersistDoc? || e.ApplyToken?
  }

  lemma {:induction false} QuietKeepsDb(s: State, e: Event)
    requires Enabled(s, e) && !Writes(e)
    ensures Next(s, e).db == s.db
  {
  }

  /******* Every event, every run *******/

  lemma {:induction false} RelayKeepsInv(s: State, e: Event)
    requires Inv(s) && Enabled(s, e) && (e.RelayClaim? || e.RelayPublish? || e.RelayCommit? || e.RelayAbort?)
    ensures Inv(Next(s, e))
  {
    if e.RelayClaim? {
      RelayClaimKeepsInv(s, e.r, e.rows);
    } else if e.RelayPublish? {
      PublishKeepsInv(s, e.r, e.m);
    } else if e.RelayAbort? {
      RelayAbortKeepsInv(s, e.r);
    } else {
      CommitKeepsWork(s, e.r);
      CommitKeepsRelays(s, e.r);
      CommitKeepsTables(s, e.r);
    }
  }

  lemma {:induction false} HandlerStepKeepsInv(s: State, e: Event)
    requires Inv(s) && Enabled(s, e) && HandlerStep(e)
    ensures Inv(Next(s, e))
  {
    if e.ClaimDoc? {
      ClaimKeepsInv(s, e.h, e.now);
    } else if e.PersistDoc? {
      PersistKeepsInv(s, e.h, e.ids, e.rows, e.now);
    } else if e.ApplyToken? {
      ApplyKeepsSafe(s, e.h, e.now);
    } else {
      LocalStepKeepsInv(s, e);
    }
  }

  lemma {:induction false} StepKeepsInv(s: State, e: Event)
    requires Inv(s) && Enabled(s, e)
    ensures Inv(Next(s, e))
  {
    if HandlerStep(e) {
      HandlerStepKeepsInv(s, e);
    } else if e.SubmitDoc? {
      SubmitKeepsTables(s.db, e.d, e.text, e.mode, e.row);
      TransactionKeepsInv(s, Submit(s.db, e.d, e.text, e.mode, e.row).0);
    } else if e.Deliver? {
      DeliverKeepsInv(s, e.m, e.h);
    } else if e.Ack? {
      AckKeepsInv(s, e.h);
    } else if e.Drop? {
      HandlerEndKeepsInv(s, e.h);
    } else if e.Tick? {
      TickKeepsInv(s, e.to);
    } else {
      RelayKeepsInv(s, e);
    }
  }

  /** The invariant holds in every reachable state. */
  lemma {:induction false} AlwaysInv(run: Run)
    requires Valid(run)
    ensures Inv(Last(run))
  {
    if run.Then? {
      AlwaysInv(run.before);
      StepKeepsInv(Last(run.before), run.event);
    }
  }
}
