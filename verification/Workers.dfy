/** The two workers and the broker loop that feeds them, as one consumer runs them (internal/pipeline/extractor.go,
    internal/pipeline/classifier.go, internal/queue/redis.go). */
module Workers {
  import opened Domain
  import opened Store
  import opened TableInvariant
  import opened Safety
  import opened Tables
  import opened Work

  /** What the workers rely on and keep. */
  ghost predicate Sound(db: Database)
    reads db
  {
    db.Valid() && DbInv(db.Abs())
  }

  /** What can happen to one call to the database or the broker: it works, it fails without effect, or it takes
      effect and the reply is lost. */
  datatype Trouble = Fine | NoEffect | ReplyLost

  /** What the next persist of a document not yet extracted does, with the ids that the sequences are about to give. */
  ghost function NextPersist(a: Db, nextToken: nat, nextRow: nat, d: DocId, es: seq<Entity>, now: Time): Db
    requires d in a.docs
  {
    var v := a.docs[d].runVersion;
    var ids := Drawn(nextToken, |es|);
    Persist(a, d, v, es, ids, Drawn(nextRow, |PersistJobs(a, d, v, es, ids)|), now).0
  }

  lemma {:induction false} NextPersistWorks(extract: Extractor, classify: Classifier, a: Db, nextToken: nat,
                                            nextRow: nat, d: DocId, es: seq<Entity>, now: Time)
    requires DbInv(a) && Unextracted(a, d) && extract(a.docs[d].text) == Some(es)
    requires a.usedTokens == Below(nextToken) && a.usedRows == Below(nextRow)
    ensures var b := NextPersist(a, nextToken, nextRow, d, es, now);
            && DbInv(b) && Evolves(a, b) && Worked(extract, classify, a, b)
            && ExtractEffect(a, b, d) && Extracted(a, b, d, es)
  {
    var v := a.docs[d].runVersion;
    var ids := Drawn(nextToken, |es|);
    var rows := Drawn(nextRow, |PersistJobs(a, d, v, es, ids)|);
    DrawnIsFresh(nextToken, |es|);
    DrawnIsFresh(nextRow, |rows|);
    PersistKeepsTables(a, d, v, es, ids, rows, now);
    PersistWorks(extract, classify, a, d, es, ids, rows, now);
  }

  class Worker {
    const db: Database
    const extract: Extractor
    const classify: Classifier
    const trouble: nat -> Trouble
    var calls: nat

    constructor (db: Database, extract: Extractor, classify: Classifier, trouble: nat -> Trouble)
      ensures this.db == db && this.extract == extract && this.classify == classify && this.trouble == trouble
    {
      this.db, this.extract, this.classify, this.trouble := db, extract, classify, trouble;
      calls := 0;
    }

    /** Whether handling a message succeeds without trouble: it fails only where the extractor or the classifier is
        needed and fails. */
    ghost predicate Succeeds(payload: Option<Job>)
      reads db
    {
      match payload
      case None => true
      case Some(ExtractJob(d, v)) =>
        d in db.docs && !PastExtraction(db.docs[d]) ==> extract(db.docs[d].text).Some?
      case Some(ClassifyJob(i, d, v)) =>
        i in db.tokens && db.tokens[i].status == TokenPending ==> classify(db.tokens[i]).Some?
    }

    ghost predicate NoTrouble() {
      forall c :: trouble(c) == Fine
    }

    /** One of the calls from number `from` up to number `to` did not work. */
    ghost predicate Troubled(from: nat, to: nat) {
      exists c :: from <= c < to && trouble(c) != Fine
    }

    /** Nothing fails: neither the database nor the two services. */
    ghost predicate Healthy() {
      NoTrouble() && (forall text :: extract(text).Some?) && (forall tok :: classify(tok).Some?)
    }

    method Call() returns (t: Trouble)
      modifies this`calls
      ensures t == trouble(old(calls)) && calls == old(calls) + 1
    {
      t := trouble(calls);
      calls := calls + 1;
    }

    /** Persist the entities found in a document not yet extracted. */
    method PersistClaimed(d: DocId, es: seq<Entity>, now: Time)
      requires Sound(db) && Unextracted(db.Abs(), d) && extract(db.docs[d].text) == Some(es)
      modifies db
      ensures Sound(db) && Evolves(old(db.Abs()), db.Abs()) && Worked(extract, classify, old(db.Abs()), db.Abs())
      ensures ExtractEffect(old(db.Abs()), db.Abs(), d) && Extracted(old(db.Abs()), db.Abs(), d, es)
      ensures d in db.docs && db.docs[d].extractionCompleted == Some(now)
      ensures db.docs[d].extractionStarted == old(db.docs[d]).extractionStarted
    {
      ghost var after := NextPersist(db.Abs(), db.nextToken, db.nextRow, d, es, now);
      NextPersistWorks(extract, classify, db.Abs(), db.nextToken, db.nextRow, d, es, now);
      var _ := db.Persist(d, db.docs[d].runVersion, es, now);
      assert db.Abs() == after;
    }

    /** Extract a claimed document and persist what was found. */
    method ExtractClaimed(doc: Document, d: DocId, now: Time) returns (done: bool)
      requires Sound(db) && Unextracted(db.Abs(), d)
      requires doc.text == db.docs[d].text && doc.runVersion == db.docs[d].runVersion
      modifies this`calls, db
      ensures Sound(db) && Evolves(old(db.Abs()), db.Abs()) && Worked(extract, classify, old(db.Abs()), db.Abs())
      ensures ExtractEffect(old(db.Abs()), db.Abs(), d)
      ensures done ==> extract(doc.text).Some? && Extracted(old(db.Abs()), db.Abs(), d, extract(doc.text).value)
      ensures done ==> db.docs[d].extractionCompleted == Some(now)
      ensures d in db.docs && db.docs[d].extractionStarted == old(db.docs[d]).extractionStarted
      ensures calls >= old(calls) && (extract(doc.text).Some? && !done ==> Troubled(old(calls), calls))
    {
      EvolvesReflexive(db.Abs());
      WorkedReflexive(extract, classify, db.Abs());
      var entities := extract(doc.text);
      if entities.None? {
        return false;
      }
      var t := Call();
      if t == NoEffect {
        return false;
      }
      PersistClaimed(d, entities.value, now);
      done := t == Fine;
    }

    /** Returns whether the message is to be acked.  It is acked when the document is gone or past extraction, and
        then nothing is written; or when it has now been extracted, and then all that the extractor found is there.
        A failing call to the database leaves it pending, whether or not the transaction took effect. */
    method HandleExtract(job: Job, now: Time) returns (done: bool)
      requires Sound(db) && job.ExtractJob?
      modifies this`calls, db
      ensures Sound(db) && Evolves(old(db.Abs()), db.Abs()) && Worked(extract, classify, old(db.Abs()), db.Abs())
      ensures Effect(old(db.Abs()), db.Abs(), Some(job))
      ensures done ==> Achieved(extract, classify, old(db.Abs()), db.Abs(), Some(job), now)
      ensures done && JobOk(old(db.Abs()), job) ==> Obsolete(db.Abs(), job)
      ensures done ==> old(Succeeds(Some(job)))
      ensures calls >= old(calls) && (old(Succeeds(Some(job))) && !done ==> Troubled(old(calls), calls))
    {
      ghost var before := db.Abs();
      EvolvesReflexive(before);
      WorkedReflexive(extract, classify, before);
      var t := Call();
      if t == NoEffect {
        return false;
      }
      ClaimKeepsTables(before, job.docId, now);
      ClaimWorks(extract, classify, before, job.docId, now);
      var claimed := db.Claim(job.docId, now);
      if t == ReplyLost {
        return false;
      }
      if claimed == NotFound {
        return true;
      }
      ghost var middle := db.Abs();
      var doc := claimed.value;
      assert DocRowOk(before, job.docId);
      if doc.status == Completed || doc.status == Classifying {
        return true;
      }
      done := ExtractClaimed(doc, job.docId, now);
      EvolvesTransitive(before, middle, db.Abs());
      WorkedTransitive(extract, classify, before, middle, db.Abs());
      ClaimThenExtract(before, middle, db.Abs(), job.docId);
      if done {
        ClaimThenPersist(before, middle, db.Abs(), job.docId, extract(doc.text).value);
      }
    }

    /** As HandleExtract: nothing is written when the token is gone, classified or of another run than the job's;
        otherwise success means that what the classifier returned for this token is recorded on it. */
    method HandleClassify(job: Job, now: Time) returns (done: bool)
      requires Sound(db) && job.ClassifyJob?
      modifies this`calls, db
      ensures Sound(db) && Evolves(old(db.Abs()), db.Abs()) && Worked(extract, classify, old(db.Abs()), db.Abs())
      ensures Effect(old(db.Abs()), db.Abs(), Some(job))
      ensures done ==> Achieved(extract, classify, old(db.Abs()), db.Abs(), Some(job), now)
      ensures done && JobOk(old(db.Abs()), job) ==> Obsolete(db.Abs(), job)
      ensures done ==> old(Succeeds(Some(job)))
      ensures calls >= old(calls) && (old(Succeeds(Some(job))) && !done ==> Troubled(old(calls), calls))
    {
      ghost var before := db.Abs();
      EvolvesReflexive(before);
      WorkedReflexive(extract, classify, before);
      var t := Call();
      if t != Fine {
        return false;
      }
      var tok := db.GetToken(job.tokenId);
      if tok == NotFound || tok.value.status == TokenClassified {
        return true;
      }
      var result := classify(tok.value);
      if result.None? {
        return false;
      }
      t := Call();
      if t == NoEffect {
        return false;
      }
      ApplyKeepsTables(before, job.tokenId, job.runVersion, result.value, now);
      ApplyWorks(extract, classify, before, job.tokenId, job.runVersion, now);
      if JobOk(before, job) {
        ApplyLeavesObsolete(before, job, result.value, now);
      }
      var _ := db.Apply(job.tokenId, job.runVersion, result.value, now);
      done := t == Fine;
    }

    /** A payload that does not decode, None here, is dropped. */
    method Handle(payload: Option<Job>, now: Time) returns (done: bool)
      requires Sound(db)
      modifies this`calls, db
      ensures Sound(db) && Evolves(old(db.Abs()), db.Abs()) && Worked(extract, classify, old(db.Abs()), db.Abs())
      ensures Effect(old(db.Abs()), db.Abs(), payload)
      ensures done ==> Achieved(extract, classify, old(db.Abs()), db.Abs(), payload, now)
      ensures done && payload.Some? && JobOk(old(db.Abs()), payload.value) ==> Obsolete(db.Abs(), payload.value)
      ensures done ==> old(Succeeds(payload))
      ensures calls >= old(calls) && (old(Succeeds(payload)) && !done ==> Troubled(old(calls), calls))
    {
      EvolvesReflexive(db.Abs());
      WorkedReflexive(extract, classify, db.Abs());
      if payload.None? {
        return true;
      }
      if payload.value.ExtractJob? {
        done := HandleExtract(payload.value, now);
      } else {
        done := HandleClassify(payload.value, now);
      }
    }
  }

  /** A stream entry with the state of its consumer group: read but not acked means pending. */
  datatype Message = Message(payload: Option<Job>, delivered: bool, acked: bool)

  /** Every job in the stream is well-formed, and acked only once it is obsolete; nothing is acked unread. */
  ghost predicate Conserved(db: Db, stream: seq<Message>) {
    && (forall k :: 0 <= k < |stream| && stream[k].payload.Some? ==>
          JobOk(db, stream[k].payload.value) && (stream[k].acked ==> Obsolete(db, stream[k].payload.value)))
    && (forall k :: 0 <= k < |stream| && stream[k].acked ==> stream[k].delivered)
  }

  lemma {:induction false} ConservedStable(a: Db, b: Db, stream: seq<Message>)
    requires Conserved(a, stream) && Evolves(a, b)
    ensures Conserved(b, stream)
  {
    forall k | 0 <= k < |stream| && stream[k].payload.Some?
      ensures JobOk(b, stream[k].payload.value) && (stream[k].acked ==> Obsolete(b, stream[k].payload.value))
    {
      JobOkStable(a, b, stream[k].payload.value);
      if stream[k].acked {
        ObsoleteStable(a, b, stream[k].payload.value);
      }
    }
  }

  predicate Later(a: Message, b: Message) {
    b.payload == a.payload && (a.delivered ==> b.delivered) && (a.acked ==> b.acked)
  }

  /** Nothing leaves the stream, and no flag is taken back. */
  ghost predicate Follows(a: seq<Message>, b: seq<Message>) {
    |a| == |b| && forall k :: 0 <= k < |a| ==> Later(a[k], b[k])
  }

  lemma {:induction false} FollowsTransitive(a: seq<Message>, b: seq<Message>, c: seq<Message>)
    requires Follows(a, b) && Follows(b, c)
    ensures Follows(a, c)
  {
    forall k | 0 <= k < |a| ensures Later(a[k], c[k]) {
      assert Later(a[k], b[k]) && Later(b[k], c[k]);
    }
  }

  predicate IsPending(m: Message) {
    m.delivered && !m.acked
  }

  /******* Counting what is left *******/

  function Unread(stream: seq<Message>): nat {
    if stream == [] then 0 else Unread(stream[..|stream| - 1]) + if stream[|stream| - 1].delivered then 0 else 1
  }

  function Unacked(stream: seq<Message>): nat {
    if stream == [] then 0 else Unacked(stream[..|stream| - 1]) + if stream[|stream| - 1].acked then 0 else 1
  }

  lemma {:induction false} UnackedShrinks(a: seq<Message>, b: seq<Message>)
    requires Follows(a, b)
    ensures Unacked(b) <= Unacked(a) <= |a|
    ensures (exists k :: 0 <= k < |a| && !a[k].acked && b[k].acked) ==> Unacked(b) < Unacked(a)
  {
    if a != [] {
      var n := |a| - 1;
      assert Later(a[n], b[n]);
      UnackedShrinks(a[..n], b[..n]);
      if k :| 0 <= k < |a| && !a[k].acked && b[k].acked {
        if k < n {
          assert !a[..n][k].acked && b[..n][k].acked;
        }
      }
    }
  }

  lemma {:induction false} NoneUnread(stream: seq<Message>)
    ensures Unread(stream) == 0 <==> forall k :: 0 <= k < |stream| ==> stream[k].delivered
  {
    if stream != [] {
      var n := |stream| - 1;
      NoneUnread(stream[..n]);
      assert forall k :: 0 <= k < n ==> stream[..n][k] == stream[k];
    }
  }

  lemma {:induction false} NoneUnacked(stream: seq<Message>)
    ensures Unacked(stream) == 0 <==> forall k :: 0 <= k < |stream| ==> stream[k].acked
  {
    if stream != [] {
      var n := |stream| - 1;
      NoneUnacked(stream[..n]);
      assert forall k :: 0 <= k < n ==> stream[..n][k] == stream[k];
    }
  }

  /** Nothing has happened to the stream but acks within the batch. */
  ghost predicate OnlyAcks(a: seq<Message>, b: seq<Message>, batch: seq<nat>) {
    && Follows(a, b)
    && (forall k :: 0 <= k < |a| ==> b[k].delivered == a[k].delivered)
    && (forall k :: 0 <= k < |a| && k !in batch ==> b[k] == a[k])
  }

  ghost predicate AllAcked(stream: seq<Message>, batch: seq<nat>, n: nat) {
    n <= |batch| && forall j :: 0 <= j < n ==> batch[j] < |stream| && stream[batch[j]].acked
  }

  lemma {:induction false} OneMoreAck(a: seq<Message>, b: seq<Message>, c: seq<Message>, batch: seq<nat>, j: nat)
    requires j < |batch| && batch[j] < |b| && OnlyAcks(a, b, batch)
    requires c == b || c == b[batch[j] := b[batch[j]].(acked := true)]
    ensures OnlyAcks(a, c, batch)
    ensures AllAcked(b, batch, j) ==> AllAcked(c, batch, j)
    ensures AllAcked(b, batch, j) && c[batch[j]].acked ==> AllAcked(c, batch, j + 1)
  {
    assert batch[j] in batch;
  }

  /** The first unread messages, up to the count, have been read, and nothing else has changed: reading got to
      `upTo`. */
  ghost predicate ReadUpTo(a: seq<Message>, b: seq<Message>, count: nat, upTo: nat) {
    && |a| == |b| && upTo <= |a|
    && (forall k :: 0 <= k < |a| ==> b[k] == if k < upTo then a[k].(delivered := true) else a[k])
    && Unread(a[..upTo]) <= count && (Unread(a[..upTo]) == count || upTo == |a|)
  }

  class Broker {
    const worker: Worker
    const ackFails: nat -> bool
    var stream: seq<Message>
    var acks: nat

    constructor (worker: Worker, ackFails: nat -> bool)
      ensures this.worker == worker && this.ackFails == ackFails && stream == []
    {
      this.worker, this.ackFails := worker, ackFails;
      stream, acks := [], 0;
    }

    ghost predicate Ok()
      reads this, worker.db
    {
      Sound(worker.db) && Conserved(worker.db.Abs(), stream)
    }

    /** The tables now are `a` after some work by this consumer. */
    ghost predicate WorkedFrom(a: Db)
      reads worker.db
    {
      Evolves(a, worker.db.Abs()) && Worked(worker.extract, worker.classify, a, worker.db.Abs())
    }

    lemma {:induction false} MoreWork(a: Db, b: Db, c: Db)
      requires Evolves(a, b) && Worked(worker.extract, worker.classify, a, b)
      requires Evolves(b, c) && Worked(worker.extract, worker.classify, b, c)
      ensures Evolves(a, c) && Worked(worker.extract, worker.classify, a, c)
    {
      EvolvesTransitive(a, b, c);
      WorkedTransitive(worker.extract, worker.classify, a, b, c);
    }

    lemma {:induction false} NoWork()
      requires Ok()
      ensures WorkedFrom(worker.db.Abs())
    {
      EvolvesReflexive(worker.db.Abs());
      WorkedReflexive(worker.extract, worker.classify, worker.db.Abs());
    }

    ghost predicate Healthy() {
      worker.Healthy() && forall n :: !ackFails(n)
    }

    /** XADD: reports an error both when the message was not appended and when the reply is lost. */
    method Publish(payload: Option<Job>, t: Trouble) returns (ok: bool)
      requires Ok() && (payload.Some? ==> JobOk(worker.db.Abs(), payload.value))
      modifies this`stream
      ensures Ok() && ok == (t == Fine)
      ensures stream == if t == NoEffect then old(stream) else old(stream) + [Message(payload, false, false)]
    {
      if t != NoEffect {
        stream := stream + [Message(payload, false, false)];
      }
      ok := t == Fine;
    }

    /** Run the handler on the message; ack on success only, and a failed ack changes nothing. */
    method HandleOne(k: nat, now: Time)
      requires Ok() && k < |stream| && stream[k].delivered
      modifies this, worker, worker.db
      ensures Ok() && WorkedFrom(old(worker.db.Abs()))
      ensures Effect(old(worker.db.Abs()), worker.db.Abs(), old(stream)[k].payload)
      ensures stream == old(stream) || stream == old(stream)[k := old(stream)[k].(acked := true)]
      ensures stream != old(stream) ==>
                && old(worker.Succeeds(stream[k].payload)) && !ackFails(old(acks))
                && Achieved(worker.extract, worker.classify, old(worker.db.Abs()), worker.db.Abs(), stream[k].payload,
                            now)
      ensures old(worker.Succeeds(stream[k].payload)) && !stream[k].acked ==>
                worker.Troubled(old(worker.calls), worker.calls) || ackFails(old(acks))
    {
      ghost var before := worker.db.Abs();
      var done := worker.Handle(stream[k].payload, now);
      ConservedStable(before, worker.db.Abs(), stream);
      if !done {
        return;
      }
      var failed := ackFails(acks);
      acks := acks + 1;
      if !failed {
        stream := stream[k := stream[k].(acked := true)];
      }
    }

    /** Hand a batch of messages to the handler one after the other. */
    method HandleAll(batch: seq<nat>, now: Time)
      requires Ok() && forall j :: 0 <= j < |batch| ==> batch[j] < |stream| && stream[batch[j]].delivered
      modifies this, worker, worker.db
      ensures Ok() && WorkedFrom(old(worker.db.Abs()))
      ensures OnlyAcks(old(stream), stream, batch)
      ensures Healthy() ==> AllAcked(stream, batch, |batch|)
    {
      NoWork();
      for j := 0 to |batch|
        invariant Ok() && WorkedFrom(old(worker.db.Abs()))
        invariant OnlyAcks(old(stream), stream, batch)
        invariant Healthy() ==> AllAcked(stream, batch, j)
      {
        ghost var middle, soFar := worker.db.Abs(), stream;
        HandleOne(batch[j], now);
        MoreWork(old(worker.db.Abs()), middle, worker.db.Abs());
        OneMoreAck(old(stream), soFar, stream, batch, j);
      }
    }

    /** Up to `count` pending messages, oldest first: any of them may be idle long enough to be taken over. */
    method Claimable(count: nat, idle: nat -> bool) returns (batch: seq<nat>)
      ensures |batch| <= count
      ensures forall j :: 0 <= j < |batch| ==> batch[j] < |stream| && IsPending(stream[batch[j]]) && idle(batch[j])
      ensures forall i, j :: 0 <= i < j < |batch| ==> batch[i] < batch[j]
      ensures forall j, k: nat :: 0 <= j < |batch| && k < batch[j] && IsPending(stream[k]) && idle(k) ==> k in batch
      ensures |batch| < count ==>
                forall k :: 0 <= k < |stream| && IsPending(stream[k]) && idle(k) ==> k in batch
    {
      batch := [];
      var k := 0;
      while k < |stream| && |batch| < count
        invariant 0 <= k <= |stream| && |batch| <= count
        invariant forall j :: 0 <= j < |batch| ==> batch[j] < k && IsPending(stream[batch[j]]) && idle(batch[j])
        invariant forall i, j :: 0 <= i < j < |batch| ==> batch[i] < batch[j]
        invariant forall i :: 0 <= i < k && IsPending(stream[i]) && idle(i) ==> i in batch
      {
        if IsPending(stream[k]) && idle(k) {
          batch := batch + [k];
        }
        k := k + 1;
      }
    }

    /** XAUTOCLAIM and handle: an error counts as nothing reclaimed. */
    method Reclaim(count: nat, idle: nat -> bool, t: Trouble, now: Time) returns (handled: nat)
      requires Ok()
      modifies this, worker, worker.db
      ensures Ok() && Follows(old(stream), stream) && WorkedFrom(old(worker.db.Abs()))
      ensures forall k :: 0 <= k < |stream| ==> stream[k].delivered == old(stream)[k].delivered
      ensures forall k :: 0 <= k < |stream| && !(IsPending(old(stream)[k]) && idle(k)) ==> stream[k] == old(stream)[k]
      ensures handled <= count && (t != Fine ==> handled == 0)
      ensures handled == 0 ==> stream == old(stream)
      ensures t == Fine && count > 0 ==>
                (handled > 0 <==> exists k :: 0 <= k < |stream| && IsPending(old(stream)[k]) && idle(k))
      ensures Healthy() && t == Fine && handled < count ==>
                forall k :: 0 <= k < |stream| && IsPending(old(stream)[k]) && idle(k) ==> stream[k].acked
      ensures Healthy() && handled > 0 ==> Unacked(stream) < Unacked(old(stream))
    {
      NoWork();
      if t != Fine {
        return 0;
      }
      var batch := Claimable(count, idle);
      HandleAll(batch, now);
      handled := |batch|;
      UnackedShrinks(old(stream), stream);
      assert forall k: nat :: k in batch ==> k < |stream| && IsPending(old(stream)[k]) && idle(k);
      assert handled > 0 ==> batch[0] in batch;
    }

    /** XREADGROUP: the first `count` messages that no consumer has seen become pending. */
    method Take(count: nat) returns (batch: seq<nat>, ghost upTo: nat)
      requires Ok()
      modifies this`stream
      ensures Ok() && ReadUpTo(old(stream), stream, count, upTo)
      ensures forall k: nat :: k in batch <==> k < upTo && !old(stream)[k].delivered
    {
      batch := [];
      var k := 0;
      while k < |stream| && |batch| < count
        invariant 0 <= k <= |stream| == |old(stream)| && |batch| <= count && Ok()
        invariant |batch| == Unread(old(stream)[..k])
        invariant forall i :: 0 <= i < |stream| ==>
                    stream[i] == if i < k then old(stream)[i].(delivered := true) else old(stream)[i]
        invariant forall i: nat :: i in batch <==> i < k && !old(stream)[i].delivered
      {
        assert old(stream)[..k + 1][..k] == old(stream)[..k];
        if !stream[k].delivered {
          stream := stream[k := stream[k].(delivered := true)];
          batch := batch + [k];
        }
        k := k + 1;
      }
      upTo := k;
    }

    /** Read and handle; when the reply is lost the messages read stay pending, unhandled. */
    method ReadNew(count: nat, t: Trouble, now: Time) returns (ghost upTo: nat)
      requires Ok()
      modifies this, worker, worker.db
      ensures Ok() && Follows(old(stream), stream) && WorkedFrom(old(worker.db.Abs()))
      ensures upTo <= |stream|
      ensures t != NoEffect ==>
                Unread(old(stream)[..upTo]) <= count && (Unread(old(stream)[..upTo]) == count || upTo == |stream|)
      ensures t == NoEffect ==> upTo == 0
      ensures forall k :: 0 <= k < |stream| ==> stream[k].delivered == (old(stream)[k].delivered || k < upTo)
      ensures forall k :: 0 <= k < |stream| && old(stream)[k].delivered ==> stream[k] == old(stream)[k]
      ensures Healthy() && t == Fine ==>
                forall k :: 0 <= k < upTo && !old(stream)[k].delivered ==> stream[k].acked
    {
      NoWork();
      upTo := 0;
      if t == NoEffect {
        return;
      }
      var batch;
      batch, upTo := Take(count);
      if t == ReplyLost {
        return;
      }
      ghost var read := stream;
      assert forall j :: 0 <= j < |batch| ==> batch[j] in batch;
      HandleAll(batch, now);
      FollowsTransitive(old(stream), read, stream);
    }

    /** There is abandoned work that this turn takes over. */
    ghost predicate Abandoned(count: nat, idle: nat -> bool, t: Trouble)
      reads this
    {
      t == Fine && count > 0 && exists k :: 0 <= k < |stream| && IsPending(stream[k]) && idle(k)
    }

    /** One turn of the consumer loop: abandoned work first, new work exactly when there is none. */
    method ConsumeOnce(count: nat, idle: nat -> bool, reclaiming: Trouble, reading: Trouble, now: Time)
      returns (ghost upTo: nat)
      requires Ok()
      modifies this, worker, worker.db
      ensures Ok() && Follows(old(stream), stream) && WorkedFrom(old(worker.db.Abs()))
      ensures upTo <= |stream|
      ensures forall k :: 0 <= k < |stream| ==> stream[k].delivered == (old(stream)[k].delivered || k < upTo)
      ensures old(Abandoned(count, idle, reclaiming)) || reading == NoEffect ==> upTo == 0
      ensures !old(Abandoned(count, idle, reclaiming)) && reading != NoEffect ==>
                Unread(old(stream)[..upTo]) <= count && (Unread(old(stream)[..upTo]) == count || upTo == |stream|)
      ensures Healthy() && reclaiming == Fine && reading == Fine && count > 0 && (forall k :: idle(k)) ==>
                Unacked(stream) < Unacked(old(stream)) || forall k :: 0 <= k < |stream| ==> stream[k].acked
    {
      ghost var before, first := worker.db.Abs(), stream;
      upTo := 0;
      var reclaimed := Reclaim(count, idle, reclaiming, now);
      if reclaimed == 0 {
        ghost var middle := worker.db.Abs();
        upTo := ReadNew(count, reading, now);
        MoreWork(before, middle, worker.db.Abs());
        if Healthy() && reclaiming == Fine && reading == Fine && count > 0 && forall k :: idle(k) {
          ReadingAcks(first, stream, count, upTo);
        }
      }
    }

    /** The loop until the context is cancelled, which happens after any number of turns.  When nothing fails and there
        are enough turns, every message of the stream ends acked. */
    method Consume(turns: nat, count: nat, idle: nat -> nat -> bool, reclaiming: nat -> Trouble,
                   reading: nat -> Trouble, clock: nat -> Time, ghost quiet: nat)
      requires Ok()
      modifies this, worker, worker.db
      ensures Ok() && Follows(old(stream), stream) && WorkedFrom(old(worker.db.Abs()))
      ensures Healthy() && Steady(count, idle, reclaiming, reading, quiet) && quiet + |stream| <= turns ==>
                forall k :: 0 <= k < |stream| ==> stream[k].acked
    {
      NoWork();
      UnackedShrinks(stream, stream);
      for n := 0 to turns
        invariant Ok() && Follows(old(stream), stream) && WorkedFrom(old(worker.db.Abs()))
        invariant Healthy() && Steady(count, idle, reclaiming, reading, quiet) ==>
                    Unacked(stream) == 0 || Unacked(stream) <= |stream| - (if quiet < n then n - quiet else 0)
      {
        ghost var middle, soFar := worker.db.Abs(), stream;
        var _ := ConsumeOnce(count, idle(n), reclaiming(n), reading(n), clock(n));
        MoreWork(old(worker.db.Abs()), middle, worker.db.Abs());
        FollowsTransitive(old(stream), soFar, stream);
        UnackedShrinks(soFar, stream);
        NoneUnacked(stream);
      }
      NoneUnacked(stream);
    }
  }

  /** From turn `quiet` on everything pending counts as abandoned, and the broker answers every call. */
  ghost predicate Steady(count: nat, idle: nat -> nat -> bool, reclaiming: nat -> Trouble, reading: nat -> Trouble,
                         quiet: nat)
  {
    && count > 0 && (forall n :: reclaiming(n) == Fine && reading(n) == Fine)
    && (forall n: nat, k: nat :: quiet <= n ==> idle(n)(k))
  }

  /** A healthy read with nothing pending acks something, or everything is acked. */
  lemma {:induction false} ReadingAcks(a: seq<Message>, b: seq<Message>, count: nat, upTo: nat)
    requires Follows(a, b) && upTo <= |a| && count > 0
    requires Unread(a[..upTo]) == count || upTo == |a|
    requires forall k :: 0 <= k < upTo && !a[k].delivered ==> b[k].acked
    requires forall k :: 0 <= k < |a| ==> !IsPending(a[k]) && (a[k].acked ==> a[k].delivered)
    ensures Unacked(b) < Unacked(a) || forall k :: 0 <= k < |b| ==> b[k].acked
  {
    UnackedShrinks(a, b);
    NoneUnread(a[..upTo]);
    if Unread(a[..upTo]) == 0 {
      assert forall k :: 0 <= k < |a| ==> a[..upTo][k] == a[k] && Later(a[k], b[k]);
    } else {
      var k :| 0 <= k < upTo && !a[..upTo][k].delivered;
      assert !a[k].acked && b[k].acked;
    }
  }
}
