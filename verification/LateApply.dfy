/** A second way to a negative duration: the extract job's slower handler persists while its token is being
    classified, so the apply that completes the document began before the classification stage it completes. */
module LateApply {
  import opened Domain
  import opened Store
  import opened Protocol
  import opened Determinism
  import opened RepeatedPersist
  import opened Stamps

  const RESTAMPED: Document := Advanced(CLASSIFYING, 1, 1)

  const SCORED: State := AtToken(RELAYED.db, Scored(TOKEN, VERDICT))

  const PERSISTED_AGAIN: State := SCORED.(
    db := Tables(RESTAMPED, map[0 := TOKEN], map[2 := CLASSIFY], {0, 1}, {0, 1, 2}),
    handlers := SCORED.handlers[1 := Worker(Done).(since := 1)], clock := 1)

  const COMPLETED_BACKWARDS: State := PERSISTED_AGAIN.(
    db := Tables(CountedOne(RESTAMPED, 0), map[0 := TOKEN_DONE], map[2 := CLASSIFY], {0, 1}, {0, 1, 2}),
    handlers := PERSISTED_AGAIN.handlers[2 := Handler(1, CLASSIFY, Done, 1)])

  lemma {:induction false} UpsertWhilePending()
    ensures var db := RELAYED.db;
            Upserted(db, "d", 1, [NAME], [1]) == db.tokens && PersistJobs(db, "d", 1, [NAME], [1]) == [CLASSIFY]
  {
    var db := RELAYED.db;
    assert OfRun(db.tokens[0], "d", 1) && SameKey(db.tokens[0].entity, NAME);
    assert HasKey(db.tokens, "d", 1, NAME);
    UpsertOfKnownKeys(db.tokens, "d", 1, [NAME], [1]);
    assert PendingTokens(db.tokens, "d", 1) == {0};
    OneRow(0, CLASSIFY);
    assert ClassifyJobs([0], "d", 1) == [CLASSIFY];
  }

  lemma {:induction false} PersistTables()
    ensures PersistJobs(RELAYED.db, "d", 1, [NAME], [1]) == [CLASSIFY]
    ensures Persist(RELAYED.db, "d", 1, [NAME], [1], [2], 1).0 == PERSISTED_AGAIN.db
  {
    UpsertWhilePending();
    OneRow(1, CLASSIFY);
    OneRow(2, CLASSIFY);
    assert RunTokens(RELAYED.db.tokens, "d", 1) == {0};
  }

  lemma {:induction false} PersistAgain()
    ensures Step(SCORED.(clock := 1), PersistDoc(1, [1], [2], 1), PERSISTED_AGAIN)
  {
    PersistTables();
    assert Next(SCORED.(clock := 1), PersistDoc(1, [1], [2], 1)).handlers == PERSISTED_AGAIN.handlers;
  }

  lemma {:induction false} Restamped() returns (run: Run)
    ensures Valid(run) && Last(run) == PERSISTED_AGAIN
  {
    run := TokenScored();
    run := Extend(run, Tick(1), SCORED.(clock := 1));
    PersistAgain();
    run := Extend(run, PersistDoc(1, [1], [2], 1), PERSISTED_AGAIN);
  }

  lemma {:induction false} ApplyTablesLate()
    ensures Apply(PERSISTED_AGAIN.db, 0, 1, VERDICT, 0).0 == COMPLETED_BACKWARDS.db
  {
  }

  /** Up to the last event the stamps are in order; the completing apply stamps an end before the start. */
  lemma {:induction false} ApplyStampsBackwards() returns (run: Run)
    ensures Valid(run) && run.Then? && run.event.ApplyToken?
    ensures "d" in Last(run.before).db.docs && InOrder(Last(run.before).db.docs["d"])
    ensures StampsBackwards(Last(run.before), run.event, "d")
    ensures "d" in Last(run).db.docs && Last(run).db.docs["d"].status == Completed
    ensures !InOrder(Last(run).db.docs["d"]) && Durations(Last(run).db.docs["d"]).1 < 0
  {
    var before := Restamped();
    ApplyTablesLate();
    run := Extend(before, ApplyToken(2, 0), COMPLETED_BACKWARDS);
  }
}
