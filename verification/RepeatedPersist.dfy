/** A complete run showing that COMPLETED is not final and that durations can be negative: one extract job is
    redelivered while its first handler is still at work, and the slower handler persists after completion. */
module RepeatedPersist {
  import opened Domain
  import opened Collections
  import opened Store
  import opened Protocol
  import opened Determinism
  import opened Completion

  const NAME: Entity := Entity("x", "x", Position(1, 0, 0))
  const VERDICT: Classification := Classification(Unknown, 0.0, "")

  const FRESH: Document := NewDocument("x")
  const EXTRACTING: Document := FRESH.(status := Extracting, extractionStarted := Some(0))
  const CLASSIFYING: Document := Advanced(EXTRACTING, 1, 0)
  const COMPLETED: Document := CountedOne(CLASSIFYING, 0)
  const REOPENED: Document := Advanced(COMPLETED, 1, 1)

  const EXTRACT: Job := ExtractJob("d", 1)
  const CLASSIFY: Job := ClassifyJob(0, "d", 1)
  const TOKEN: Token := NewToken("d", 1, NAME)
  const TOKEN_DONE: Token := TOKEN.(status := TokenClassified, result := Some(VERDICT))

  function Tables(doc: Document, tokens: map<TokenId, Token>, outbox: map<RowId, Job>, used: set<TokenId>,
                  rows: set<RowId>): Db
  {
    Db(map["d" := doc], tokens, outbox, used, rows)
  }

  function Worker(phase: Phase): Handler { Handler(0, EXTRACT, phase, 0) }

  /** The handler that will persist too late. */
  const LATE: Handler := Worker(Extracted(EXTRACTING, [NAME]))

  const SENT: map<MsgId, Entry> := map[0 := Entry(EXTRACT, 0, true, false)]

  /** After both handlers of the one extract job have extracted. */
  const BOTH_EXTRACTED: State := State(
    Tables(EXTRACTING, map[], map[], {}, {0}), SENT,
    map[0 := Worker(Extracted(FRESH.(status := Extracting), [NAME])), 1 := LATE],
    map[], 0)

  /** After the first of them has persisted. */
  const FIRST_PERSISTED: State := BOTH_EXTRACTED.(
    db := Tables(CLASSIFYING, map[0 := TOKEN], map[1 := CLASSIFY], {0}, {0, 1}),
    handlers := map[0 := Worker(Done), 1 := LATE])

  /** After its token has been classified: the document is COMPLETED and every message is acked. */
  const FINISHED: State := State(
    Tables(COMPLETED, map[0 := TOKEN_DONE], map[], {0}, {0, 1}),
    map[0 := Entry(EXTRACT, 0, true, true), 1 := Entry(CLASSIFY, 1, true, true)],
    map[1 := LATE], map[], 1)

  /** `to` follows from `from` by one event. */
  ghost predicate Step(from: State, e: Event, to: State) {
    Enabled(from, e) && Next(from, e) == to
  }

  lemma {:induction false} Extend(run: Run, e: Event, to: State) returns (r: Run)
    requires Valid(run) && Step(Last(run), e, to)
    ensures Valid(r) && Last(r) == to && r == Then(run, e)
  {
    r := Then(run, e);
  }

  lemma {:induction false} OneRow(row: RowId, job: Job)
    ensures Rows([row], [job]) == map[row := job]
    ensures Ordered({row}) == [row]
    ensures Elements([row]) == {row}
  {
    assert Rows([row][..0], [job][..0]) == map[];
    assert Increasing([row]);
    assert Elements([row]) == {row};
    OrderedUnique([row]);
  }

  lemma {:induction false} Queued() returns (run: Run)
    ensures Valid(run) && Last(run) == INITIAL.(db := Tables(FRESH, map[], map[0 := EXTRACT], {}, {0}),
                                                relays := map[0 := RelayTx([0], 0)])
  {
    var s1 := INITIAL.(db := Tables(FRESH, map[], map[0 := EXTRACT], {}, {0}));
    run := Extend(Empty, SubmitDoc("d", "x", RerunPartial, 0), s1);
    run := Extend(run, RelayClaim(0, [0]), s1.(relays := map[0 := RelayTx([0], 0)]));
  }

  lemma {:induction false} Submitted() returns (run: Run)
    ensures Valid(run) && Last(run) == State(Tables(FRESH, map[], map[], {}, {0}),
                                             map[0 := Entry(EXTRACT, 0, false, false)], map[], map[], 0)
  {
    run := Queued();
    var s := Last(run).(stream := map[0 := Entry(EXTRACT, 0, false, false)], relays := map[0 := RelayTx([0], 1)]);
    run := Extend(run, RelayPublish(0, 0), s);
    assert Elements([0]) == {0};
    run := Extend(run, RelayCommit(0), s.(db := Tables(FRESH, map[], map[], {}, {0}), relays := map[]));
  }

  lemma {:induction false} Delivered() returns (run: Run)
    ensures Valid(run) && Last(run) == State(Tables(FRESH, map[], map[], {}, {0}), SENT,
                                             map[0 := Worker(Started), 1 := Worker(Started)], map[], 0)
  {
    run := Submitted();
    var s1 := State(Tables(FRESH, map[], map[], {}, {0}), SENT, map[0 := Worker(Started)], map[], 0);
    run := Extend(run, Deliver(0, 0), s1);
    run := Extend(run, Deliver(0, 1), s1.(handlers := map[0 := Worker(Started), 1 := Worker(Started)]));
  }

  lemma {:induction false} ClaimedTwice() returns (run: Run)
    ensures Valid(run)
    ensures Last(run) == BOTH_EXTRACTED.(handlers := map[0 := Worker(Claimed(FRESH.(status := Extracting))),
                                                         1 := Worker(Claimed(EXTRACTING))])
  {
    run := Delivered();
    var p0 := Claimed(FRESH.(status := Extracting));
    var s1 := BOTH_EXTRACTED.(handlers := map[0 := Worker(p0), 1 := Worker(Started)]);
    run := Extend(run, ClaimDoc(0, 0), s1);
    run := Extend(run, ClaimDoc(1, 0), s1.(handlers := map[0 := Worker(p0), 1 := Worker(Claimed(EXTRACTING))]));
  }

  lemma {:induction false} ExtractedTwice() returns (run: Run)
    ensures Valid(run) && Last(run) == BOTH_EXTRACTED
  {
    run := ClaimedTwice();
    var s := BOTH_EXTRACTED.(handlers := map[0 := Worker(Extracted(FRESH.(status := Extracting), [NAME])),
                                             1 := Worker(Claimed(EXTRACTING))]);
    run := Extend(run, ExtractDoc(0, [NAME]), s);
    run := Extend(run, ExtractDoc(1, [NAME]), BOTH_EXTRACTED);
  }

  lemma {:induction false} FirstUpsert()
    ensures var db := BOTH_EXTRACTED.db;
            Upserted(db, "d", 1, [NAME], [0]) == map[0 := TOKEN] && PersistJobs(db, "d", 1, [NAME], [0]) == [CLASSIFY]
  {
    var db := BOTH_EXTRACTED.db;
    assert [NAME][..0] == [] && !HasKey(map[], "d", 1, NAME);
    assert db.tokens + Added(db.tokens, "d", 1, [NAME][..0], [0][..0]) == map[];
    assert Added(db.tokens, "d", 1, [NAME], [0]) == map[0 := TOKEN];
    assert PendingTokens(map[0 := TOKEN], "d", 1) == {0};
    OneRow(0, CLASSIFY);
    assert ClassifyJobs([0], "d", 1) == [CLASSIFY];
  }

  lemma {:induction false} FirstPersistTables()
    ensures |PersistJobs(BOTH_EXTRACTED.db, "d", 1, [NAME], [0])| == 1
    ensures Persist(BOTH_EXTRACTED.db, "d", 1, [NAME], [0], [1], 0).0 == FIRST_PERSISTED.db
  {
    FirstUpsert();
    assert RunTokens(map[0 := TOKEN], "d", 1) == {0};
    OneRow(0, CLASSIFY);
    OneRow(1, CLASSIFY);
  }

  lemma {:induction false} FirstPersist()
    ensures Step(BOTH_EXTRACTED, PersistDoc(0, [0], [1], 0), FIRST_PERSISTED)
  {
    FirstPersistTables();
    assert Next(BOTH_EXTRACTED, PersistDoc(0, [0], [1], 0)).handlers == FIRST_PERSISTED.handlers;
  }

  /** The classify job has been published, and its outbox row deleted. */
  const RELAYED: State := State(
    Tables(CLASSIFYING, map[0 := TOKEN], map[], {0}, {0, 1}),
    map[0 := Entry(EXTRACT, 0, true, false), 1 := Entry(CLASSIFY, 1, false, false)],
    map[0 := Worker(Done), 1 := LATE], map[], 0)

  lemma {:induction false} FirstPersisted() returns (run: Run)
    ensures Valid(run) && Last(run) == FIRST_PERSISTED
  {
    run := ExtractedTwice();
    FirstPersist();
    run := Extend(run, PersistDoc(0, [0], [1], 0), FIRST_PERSISTED);
  }

  lemma {:induction false} Claimable() returns (run: Run)
    ensures Valid(run) && Last(run) == FIRST_PERSISTED.(relays := map[0 := RelayTx([1], 0)])
  {
    run := FirstPersisted();
    run := Extend(run, RelayClaim(0, [1]), FIRST_PERSISTED.(relays := map[0 := RelayTx([1], 0)]));
  }

  lemma {:induction false} Relayed() returns (run: Run)
    ensures Valid(run) && Last(run) == RELAYED
  {
    run := Claimable();
    var s1 := FIRST_PERSISTED.(relays := map[0 := RelayTx([1], 0)]);
    RelaySends(s1);
    var s2 := s1.(stream := RELAYED.stream, relays := map[0 := RelayTx([1], 1)]);
    run := Extend(run, RelayPublish(0, 1), s2);
    run := Extend(run, RelayCommit(0), RELAYED);
  }

  lemma {:induction false} RelaySends(s1: State)
    requires s1 == FIRST_PERSISTED.(relays := map[0 := RelayTx([1], 0)])
    ensures var s2 := s1.(stream := RELAYED.stream, relays := map[0 := RelayTx([1], 1)]);
            Step(s1, RelayPublish(0, 1), s2) && Step(s2, RelayCommit(0), RELAYED)
  {
    assert Elements([1]) == {1};
  }

  /** A third handler at work on the token. */
  function AtToken(db: Db, phase: Phase): State {
    State(db, map[0 := Entry(EXTRACT, 0, true, false), 1 := Entry(CLASSIFY, 1, true, false)],
          map[0 := Worker(Done), 1 := LATE, 2 := Handler(1, CLASSIFY, phase, 0)], map[], 0)
  }

  lemma {:induction false} TokenChecked() returns (run: Run)
    ensures Valid(run) && Last(run) == AtToken(RELAYED.db, Checked(TOKEN))
  {
    run := Relayed();
    run := Extend(run, Deliver(1, 2), AtToken(RELAYED.db, Started));
    run := Extend(run, CheckToken(2), AtToken(RELAYED.db, Checked(TOKEN)));
  }

  lemma {:induction false} TokenScored() returns (run: Run)
    ensures Valid(run) && Last(run) == AtToken(RELAYED.db, Scored(TOKEN, VERDICT))
  {
    run := TokenChecked();
    run := Extend(run, ScoreToken(2, VERDICT), AtToken(RELAYED.db, Scored(TOKEN, VERDICT)));
  }

  lemma {:induction false} ApplyTables()
    ensures Apply(RELAYED.db, 0, 1, VERDICT, 0).0 == FINISHED.db
  {
  }

  lemma {:induction false} TokenApplied() returns (run: Run)
    ensures Valid(run) && Last(run) == AtToken(FINISHED.db, Done)
  {
    run := TokenScored();
    ApplyTables();
    run := Extend(run, ApplyToken(2, 0), AtToken(FINISHED.db, Done));
  }

  lemma {:induction false} TokenAcked() returns (run: Run)
    ensures Valid(run)
    ensures Last(run) == State(FINISHED.db,
                               map[0 := Entry(EXTRACT, 0, true, false), 1 := Entry(CLASSIFY, 1, true, true)],
                               map[0 := Worker(Done), 1 := LATE], map[], 0)
  {
    run := TokenApplied();
    run := Extend(run, Ack(2), State(FINISHED.db,
                                     map[0 := Entry(EXTRACT, 0, true, false), 1 := Entry(CLASSIFY, 1, true, true)],
                                     map[0 := Worker(Done), 1 := LATE], map[], 0));
  }

  lemma {:induction false} BothAcked() returns (run: Run)
    ensures Valid(run) && Last(run) == FINISHED.(clock := 0)
  {
    run := TokenAcked();
    run := Extend(run, Ack(0), FINISHED.(clock := 0));
  }

  lemma {:induction false} Classified() returns (run: Run)
    ensures Valid(run) && Last(run) == FINISHED
  {
    run := BothAcked();
    run := Extend(run, Tick(1), FINISHED);
  }

  lemma {:induction false} SecondUpsert()
    ensures var db := FINISHED.db;
            Upserted(db, "d", 1, [NAME], [1]) == db.tokens && PersistJobs(db, "d", 1, [NAME], [1]) == []
  {
    var db := FINISHED.db;
    assert OfRun(db.tokens[0], "d", 1) && SameKey(db.tokens[0].entity, NAME);
    assert HasKey(db.tokens, "d", 1, NAME);
    UpsertOfKnownKeys(db.tokens, "d", 1, [NAME], [1]);
    assert PendingTokens(db.tokens, "d", 1) == {};
  }

  const STUCK: State := FINISHED.(
    db := Tables(REOPENED, map[0 := TOKEN_DONE], map[], {0, 1}, {0, 1}),
    handlers := map[1 := Worker(Done).(since := 1)])

  lemma {:induction false} SecondPersistTables()
    ensures PersistJobs(FINISHED.db, "d", 1, [NAME], [1]) == []
    ensures Persist(FINISHED.db, "d", 1, [NAME], [1], [], 1).0 == STUCK.db
  {
    SecondUpsert();
    OneRow(1, CLASSIFY);
    assert RunTokens(FINISHED.db.tokens, "d", 1) == {0};
  }

  lemma {:induction false} SecondPersist()
    ensures Step(FINISHED, PersistDoc(1, [1], [], 1), STUCK)
  {
    SecondPersistTables();
    assert Next(FINISHED, PersistDoc(1, [1], [], 1)).handlers == STUCK.handlers;
  }

  /** COMPLETED is left within a run; everything is acked and drained, yet the document stays CLASSIFYING,
      and its classification appears to have taken a negative time. */
  lemma {:induction false} CompletedIsNotFinal() returns (run: Run)
    ensures Valid(run) && run.Then?
    ensures "d" in Last(run.before).db.docs && Last(run.before).db.docs["d"].status == Completed
    ensures Stuck(Last(run).db, "d") && Quiescent(Last(run))
    ensures Durations(Last(run).db.docs["d"]).1 < 0
  {
    var before := Classified();
    SecondPersist();
    run := Extend(before, PersistDoc(1, [1], [], 1), STUCK);
    assert PendingTokens(Last(run).db.tokens, "d", 1) == {};
  }
}
