/** Without further submits, failures or reclaims of live handlers every schedule makes finitely many progress steps,
    however long it ticks and polls in between, and a fair one ends with everything classified. */
module Convergence {
  import opened Domain
  import opened Collections
  import opened Store
  import opened TableInvariant
  import opened Protocol
  import opened Safety
  import opened Runs
  import opened Determinism

  /******* Steps that count as progress *******/

  ghost predicate Live(s: State, m: MsgId) {
    exists h :: h in s.handlers && s.handlers[h].msg == m
  }

  /** What a live system does for ever: time passes, and the relay polls without finding a row. */
  ghost predicate Idle(s: State, e: Event) {
    || e.Tick?
    || (e.RelayClaim? && e.rows == [])
    || (e.RelayCommit? && e.r in s.relays && s.relays[e.r].rows == [])
  }

  /** Everything else but new submits, crashes, rollbacks, and handing out a message that a handler is still
      working on. */
  ghost predicate Progress(s: State, e: Event) {
    && !Idle(s, e) && !e.SubmitDoc? && !e.RelayAbort? && !e.Drop?
    && (e.Deliver? ==> !Live(s, e.m))
  }

  /******* The measure *******/

  ghost predicate Sent(s: State, row: RowId) {
    exists r, k :: r in s.relays && 0 <= k < s.relays[r].sent && k < |s.relays[r].rows| && s.relays[r].rows[k] == row
  }

  /** With `only`, just the extract jobs are weighed. */
  predicate Counts(only: bool, job: Job) {
    only ==> job.ExtractJob?
  }

  ghost function RowWeight(s: State, only: bool, row: RowId): nat {
    if row !in s.db.outbox || !Counts(only, s.db.outbox[row]) then 0
    else if Sent(s, row) then 1
    else if Locked(s, row) then 12
    else 14
  }

  ghost function MsgWeight(s: State, only: bool, m: MsgId): nat {
    if m !in s.stream || s.stream[m].acked || !Counts(only, s.stream[m].job) then 0
    else if Live(s, m) then 4
    else 10
  }

  function PhaseWeight(p: Phase): nat {
    match p
    case Started => 5
    case Claimed(_) => 4
    case Checked(_) => 4
    case Extracted(_, _) => 3
    case Scored(_, _) => 3
    case Done => 1
  }

  ghost function HandlerWeight(s: State, only: bool, h: HandlerId): nat {
    if h !in s.handlers || !Counts(only, s.handlers[h].job) then 0 else PhaseWeight(s.handlers[h].phase)
  }

  ghost function Rows'(s: State, only: bool): nat {
    Sum(s.db.outbox.Keys, row => RowWeight(s, only, row))
  }

  ghost function Msgs(s: State, only: bool): nat {
    Sum(s.stream.Keys, m => MsgWeight(s, only, m))
  }

  ghost function Hands(s: State, only: bool): nat {
    Sum(s.handlers.Keys, h => HandlerWeight(s, only, h))
  }

  /** Relay transactions that hold rows. */
  ghost function Busy(s: State): set<RelayId> {
    BusyIn(s.relays)
  }

  ghost function BusyIn(relays: map<RelayId, RelayTx>): set<RelayId> {
    set r | r in relays && relays[r].rows != []
  }

  /** Outstanding work: of extract jobs only, or of all jobs and busy relay transactions. */
  ghost function Work(s: State, only: bool): nat {
    Rows'(s, only) + Msgs(s, only) + Hands(s, only) + if only then 0 else |Busy(s)|
  }

  /** Lexicographic: a persist trades extract work for any amount of classify work. */
  ghost predicate Drops(s: State, s': State) {
    || Work(s', true) < Work(s, true)
    || (Work(s', true) == Work(s, true) && Work(s', false) < Work(s, false))
  }

  /******* How each sum reacts *******/

  lemma {:induction false} SumSubset<K(!new)>(small: set<K>, big: set<K>, w: K -> nat)
    requires small <= big
    ensures Sum(small, w) <= Sum(big, w)
  {
    if small != {} {
      var k :| k in small;
      SumSplit(small, w, k);
      SumSplit(big, w, k);
      SumSubset(small - {k}, big - {k}, w);
    }
  }

  lemma {:induction false} SumIgnoresZeros<K(!new)>(small: set<K>, big: set<K>, w: K -> nat)
    requires small <= big && forall k :: k in big && k !in small ==> w(k) == 0
    ensures Sum(small, w) == Sum(big, w)
    decreases big
  {
    if k :| k in big {
      SumSplit(big, w, k);
      if k in small { SumSplit(small, w, k); } else { assert small - {k} == small; }
      SumIgnoresZeros(small - {k}, big - {k}, w);
    }
  }

  /** Rows weigh no more when no row of `s'` is new and none has gone back a stage. */
  lemma {:induction false} RowsShrink(s: State, s': State, only: bool)
    requires s'.db.outbox.Keys <= s.db.outbox.Keys
    requires forall r :: r in s'.db.outbox ==> RowWeight(s', only, r) <= RowWeight(s, only, r)
    ensures Rows'(s', only) <= Rows'(s, only)
  {
    SumMonotone(s'.db.outbox.Keys, row => RowWeight(s', only, row), row => RowWeight(s, only, row));
    SumSubset(s'.db.outbox.Keys, s.db.outbox.Keys, row => RowWeight(s, only, row));
  }

  lemma {:induction false} RowDrops(s: State, s': State, only: bool, row: RowId, drop: nat)
    requires s'.db.outbox.Keys == s.db.outbox.Keys && row in s.db.outbox
    requires forall r :: r in s'.db.outbox ==> RowWeight(s', only, r) <= RowWeight(s, only, r)
    requires RowWeight(s', only, row) + drop <= RowWeight(s, only, row)
    ensures Rows'(s', only) + drop <= Rows'(s, only)
  {
    SumDrop(s.db.outbox.Keys, r => RowWeight(s', only, r), r => RowWeight(s, only, r), row, drop);
  }

  lemma {:induction false} MsgsShrink(s: State, s': State, only: bool)
    requires s'.stream.Keys == s.stream.Keys
    requires forall m :: m in s.stream ==> MsgWeight(s', only, m) <= MsgWeight(s, only, m)
    ensures Msgs(s', only) <= Msgs(s, only)
  {
    SumMonotone(s.stream.Keys, m => MsgWeight(s', only, m), m => MsgWeight(s, only, m));
  }

  lemma {:induction false} SameMsgs(s: State, s': State, only: bool)
    requires s'.stream == s.stream
    requires forall h :: h in s'.handlers <==> h in s.handlers
    requires forall h :: h in s'.handlers ==> s'.handlers[h].msg == s.handlers[h].msg
    ensures Msgs(s', only) <= Msgs(s, only)
  {
    forall m | m in s.stream ensures MsgWeight(s', only, m) <= MsgWeight(s, only, m) {
      if Live(s, m) {
        var h :| h in s.handlers && s.handlers[h].msg == m;
        assert h in s'.handlers && s'.handlers[h].msg == m;
      }
    }
    MsgsShrink(s, s', only);
  }

  lemma {:induction false} SameRows(s: State, s': State, only: bool)
    requires s'.db.outbox == s.db.outbox && s'.relays == s.relays
    ensures Rows'(s', only) <= Rows'(s, only)
  {
    forall r | r in s.db.outbox ensures RowWeight(s', only, r) <= RowWeight(s, only, r) {
      assert Sent(s', r) <==> Sent(s, r);
      assert Locked(s', r) <==> Locked(s, r);
    }
    RowsShrink(s, s', only);
  }

  lemma {:induction false} SameHands(s: State, s': State, only: bool)
    requires s'.handlers == s.handlers
    ensures Hands(s', only) <= Hands(s, only)
  {
    SumMonotone(s.handlers.Keys, h => HandlerWeight(s', only, h), h => HandlerWeight(s, only, h));
  }

  /******* Each kind of progress *******/

  /** What an event other than a persist must do: nothing gets heavier, and the whole gets lighter. */
  ghost predicate Lighter(s: State, s': State) {
    Work(s', true) <= Work(s, true) && Work(s', false) < Work(s, false)
  }

  ghost predicate NoHeavier(s: State, s': State) {
    Work(s', true) <= Work(s, true) && Work(s', false) <= Work(s, false)
  }

  lemma {:induction false} RelayClaimRows(s: State, r: RelayId, rows: seq<RowId>, only: bool)
    requires Inv(s) && Enabled(s, RelayClaim(r, rows)) && rows != []
    ensures Rows'(Next(s, RelayClaim(r, rows)), only) + (if only then 0 else 2) <= Rows'(s, only)
  {
    var s' := Next(s, RelayClaim(r, rows));
    forall x | x in s.db.outbox
      ensures RowWeight(s', only, x) + (if x == rows[0] && Counts(only, s.db.outbox[x]) then 2 else 0)
              <= RowWeight(s, only, x)
    {
      ClaimLocks(s, r, rows, x);
    }
    RowDrops(s, s', only, rows[0], if only then 0 else 2);
  }

  lemma {:induction false} ClaimLocks(s: State, r: RelayId, rows: seq<RowId>, x: RowId)
    requires Inv(s) && Enabled(s, RelayClaim(r, rows))
    ensures var s' := Next(s, RelayClaim(r, rows));
            && (Sent(s', x) <==> Sent(s, x))
            && (Locked(s', x) <==> Locked(s, x) || x in rows)
            && (Sent(s, x) ==> Locked(s, x))
  {
    var s' := Next(s, RelayClaim(r, rows));
    if Sent(s, x) {
      var q, k :| q in s.relays && 0 <= k < s.relays[q].sent && k < |s.relays[q].rows| && s.relays[q].rows[k] == x;
      assert q in s'.relays && s'.relays[q] == s.relays[q];
      assert x in s.relays[q].rows;
    }
    if Sent(s', x) {
      var q, k :| q in s'.relays && 0 <= k < s'.relays[q].sent && k < |s'.relays[q].rows| && s'.relays[q].rows[k] == x;
      assert q in s.relays && s'.relays[q] == s.relays[q];
    }
    if Locked(s, x) {
      var q :| q in s.relays && x in s.relays[q].rows;
      assert q in s'.relays && x in s'.relays[q].rows;
    }
    if x in rows { assert r in s'.relays && x in s'.relays[r].rows; }
  }

  lemma {:induction false} BusyAdds(relays: map<RelayId, RelayTx>, r: RelayId, tx: RelayTx)
    requires r !in relays
    ensures |BusyIn(relays[r := tx])| == |BusyIn(relays)| + if tx.rows == [] then 0 else 1
  {
    if tx.rows == [] {
      assert BusyIn(relays[r := tx]) == BusyIn(relays);
    } else {
      assert BusyIn(relays[r := tx]) == BusyIn(relays) + {r};
    }
  }

  lemma {:induction false} RelayClaimProgress(s: State, r: RelayId, rows: seq<RowId>)
    requires Inv(s) && Enabled(s, RelayClaim(r, rows)) && rows != []
    ensures Lighter(s, Next(s, RelayClaim(r, rows)))
  {
    var s' := Next(s, RelayClaim(r, rows));
    BusyAdds(s.relays, r, RelayTx(rows, 0));
    RelayClaimRows(s, r, rows, true);
    RelayClaimRows(s, r, rows, false);
    SameMsgs(s, s', true);
    SameMsgs(s, s', false);
    SameHands(s, s', true);
    SameHands(s, s', false);
  }

  lemma {:induction false} EmptyPollRows(s: State, r: RelayId, only: bool)
    requires Inv(s) && Enabled(s, RelayClaim(r, []))
    ensures Rows'(Next(s, RelayClaim(r, [])), only) <= Rows'(s, only)
  {
    var s' := Next(s, RelayClaim(r, []));
    forall x | x in s'.db.outbox ensures RowWeight(s', only, x) <= RowWeight(s, only, x) {
      ClaimLocks(s, r, [], x);
    }
    RowsShrink(s, s', only);
  }

  lemma {:induction false} EmptyPoll(s: State, r: RelayId)
    requires Inv(s) && Enabled(s, RelayClaim(r, []))
    ensures NoHeavier(s, Next(s, RelayClaim(r, [])))
  {
    var s' := Next(s, RelayClaim(r, []));
    BusyAdds(s.relays, r, RelayTx([], 0));
    EmptyPollRows(s, r, true);
    EmptyPollRows(s, r, false);
    SameMsgs(s, s', true);
    SameMsgs(s, s', false);
    SameHands(s, s', true);
    SameHands(s, s', false);
  }

  lemma {:induction false} TimePasses(s: State, to: Time)
    requires Inv(s) && Enabled(s, Tick(to))
    ensures NoHeavier(s, Next(s, Tick(to)))
  {
    var s' := Next(s, Tick(to));
    assert Busy(s') == Busy(s);
    SameRows(s, s', true);
    SameRows(s, s', false);
    SameMsgs(s, s', true);
    SameMsgs(s, s', false);
    SameHands(s, s', true);
    SameHands(s, s', false);
  }

  /** The row about to be published is locked and not yet sent. */
  lemma {:induction false} NextRowUnsent(s: State, r: RelayId)
    requires RelaysOk(s) && r in s.relays && s.relays[r].sent < |s.relays[r].rows|
    ensures var row := s.relays[r].rows[s.relays[r].sent]; Locked(s, row) && !Sent(s, row)
  {
    var row := s.relays[r].rows[s.relays[r].sent];
    assert RelayOk(s, s.relays[r]) && row in s.relays[r].rows;
    forall q, k | q in s.relays && 0 <= k < s.relays[q].sent && k < |s.relays[q].rows|
      ensures s.relays[q].rows[k] != row
    {
      assert s.relays[q].rows[k] in s.relays[q].rows;
    }
  }

  lemma {:induction false} PublishLocksSame(s: State, r: RelayId, m: MsgId, x: RowId)
    requires Enabled(s, RelayPublish(r, m))
    ensures Locked(Next(s, RelayPublish(r, m)), x) <==> Locked(s, x)
  {
    var s' := Next(s, RelayPublish(r, m));
    if Locked(s, x) {
      var q :| q in s.relays && x in s.relays[q].rows;
      assert q in s'.relays && x in s'.relays[q].rows;
    }
  }

  lemma {:induction false} PublishMarks(s: State, r: RelayId, m: MsgId, x: RowId)
    requires Enabled(s, RelayPublish(r, m))
    ensures Sent(s, x) || x == s.relays[r].rows[s.relays[r].sent] ==> Sent(Next(s, RelayPublish(r, m)), x)
  {
    var s' := Next(s, RelayPublish(r, m));
    if Sent(s, x) {
      var q, k :| q in s.relays && 0 <= k < s.relays[q].sent && k < |s.relays[q].rows| && s.relays[q].rows[k] == x;
      assert q in s'.relays && 0 <= k < s'.relays[q].sent && s'.relays[q].rows[k] == x;
    } else if x == s.relays[r].rows[s.relays[r].sent] {
      assert r in s'.relays && s'.relays[r].rows[s.relays[r].sent] == x;
    }
  }

  lemma {:induction false} PublishMsgWeight(s: State, r: RelayId, m: MsgId, only: bool, x: MsgId)
    requires Enabled(s, RelayPublish(r, m)) && x in Next(s, RelayPublish(r, m)).stream
    ensures var s' := Next(s, RelayPublish(r, m));
            MsgWeight(s', only, x) <= if x == m then (if Counts(only, s'.stream[m].job) then 10 else 0)
            else MsgWeight(s, only, x)
  {
    var s' := Next(s, RelayPublish(r, m));
    if x != m { assert s'.stream[x] == s.stream[x]; }
  }

  lemma {:induction false} PublishMsgs(s: State, r: RelayId, m: MsgId, only: bool)
    requires Enabled(s, RelayPublish(r, m))
    ensures var s' := Next(s, RelayPublish(r, m));
            Msgs(s', only) <= Msgs(s, only) + if Counts(only, s'.stream[m].job) then 10 else 0
  {
    var s' := Next(s, RelayPublish(r, m));
    var w' := (x: MsgId) => MsgWeight(s', only, x);
    forall x | x in s'.stream.Keys
      ensures w'(x) <= if x == m then (if Counts(only, s'.stream[m].job) then 10 else 0) else MsgWeight(s, only, x)
    {
      PublishMsgWeight(s, r, m, only, x);
    }
    SumSplit(s'.stream.Keys, w', m);
    assert s'.stream.Keys - {m} == s.stream.Keys;
    SumMonotone(s.stream.Keys, w', x => MsgWeight(s, only, x));
  }

  lemma {:induction false} PublishProgress(s: State, r: RelayId, m: MsgId)
    requires Inv(s) && Enabled(s, RelayPublish(r, m))
    ensures Lighter(s, Next(s, RelayPublish(r, m)))
  {
    var s', row := Next(s, RelayPublish(r, m)), s.relays[r].rows[s.relays[r].sent];
    PublishRows(s, r, m, true);
    PublishRows(s, r, m, false);
    PublishMsgs(s, r, m, true);
    PublishMsgs(s, r, m, false);
    SameHands(s, s', true);
    SameHands(s, s', false);
    assert Busy(s') == Busy(s);
  }

  lemma {:induction false} PublishRows(s: State, r: RelayId, m: MsgId, only: bool)
    requires Inv(s) && Enabled(s, RelayPublish(r, m))
    ensures var s' := Next(s, RelayPublish(r, m));
            Rows'(s', only) + (if Counts(only, s'.stream[m].job) then 11 else 0) <= Rows'(s, only)
  {
    var s', row := Next(s, RelayPublish(r, m)), s.relays[r].rows[s.relays[r].sent];
    NextRowUnsent(s, r);
    PublishMarks(s, r, m, row);
    forall x | x in s.db.outbox ensures RowWeight(s', only, x) <= RowWeight(s, only, x) {
      PublishMarks(s, r, m, x);
      PublishLocksSame(s, r, m, x);
    }
    RowDrops(s, s', only, row, if Counts(only, s'.stream[m].job) then 11 else 0);
  }

  lemma {:induction false} CommitProgress(s: State, r: RelayId)
    requires Inv(s) && Enabled(s, RelayCommit(r))
    ensures NoHeavier(s, Next(s, RelayCommit(r)))
    ensures s.relays[r].rows != [] ==> Lighter(s, Next(s, RelayCommit(r)))
  {
    var s' := Next(s, RelayCommit(r));
    forall only: bool, x | x in s'.db.outbox ensures RowWeight(s', only, x) <= RowWeight(s, only, x) {
      CommitUnlocks(s, r, x);
    }
    RowsShrink(s, s', true);
    RowsShrink(s, s', false);
    SameMsgs(s, s', true);
    SameMsgs(s, s', false);
    SameHands(s, s', true);
    SameHands(s, s', false);
    assert Busy(s') == Busy(s) - {r};
  }

  lemma {:induction false} CommitUnlocks(s: State, r: RelayId, x: RowId)
    requires Enabled(s, RelayCommit(r)) && x in Next(s, RelayCommit(r)).db.outbox
    ensures var s' := Next(s, RelayCommit(r)); (Sent(s', x) <==> Sent(s, x)) && (Locked(s', x) <==> Locked(s, x))
  {
    var s' := Next(s, RelayCommit(r));
    if Sent(s, x) {
      var q, k :| q in s.relays && 0 <= k < s.relays[q].sent && k < |s.relays[q].rows| && s.relays[q].rows[k] == x;
      assert x in s.relays[q].rows;
      assert q in s'.relays && s'.relays[q] == s.relays[q];
    }
    if Locked(s, x) {
      var q :| q in s.relays && x in s.relays[q].rows;
      assert q in s'.relays && x in s'.relays[q].rows;
    }
    if Sent(s', x) {
      var q, k :| q in s'.relays && 0 <= k < s'.relays[q].sent && k < |s'.relays[q].rows| && s'.relays[q].rows[k] == x;
      assert q in s.relays && s.relays[q] == s'.relays[q];
    }
  }

  lemma {:induction false} DeliverMsgs(s: State, m: MsgId, h: HandlerId, only: bool)
    requires Inv(s) && Enabled(s, Deliver(m, h)) && !Live(s, m)
    ensures Msgs(Next(s, Deliver(m, h)), only) + (if Counts(only, s.stream[m].job) then 6 else 0) <= Msgs(s, only)
  {
    var s' := Next(s, Deliver(m, h));
    assert s'.stream.Keys == s.stream.Keys;
    forall x | x in s.stream
      ensures MsgWeight(s', only, x) + (if x == m && Counts(only, s.stream[m].job) then 6 else 0)
              <= MsgWeight(s, only, x)
    {
      if x == m {
        assert h in s'.handlers && s'.handlers[h].msg == m;
      } else if Live(s, x) {
        var g :| g in s.handlers && s.handlers[g].msg == x;
        assert g in s'.handlers && s'.handlers[g].msg == x;
      }
    }
    SumDrop(s.stream.Keys, x => MsgWeight(s', only, x), x => MsgWeight(s, only, x), m,
            if Counts(only, s.stream[m].job) then 6 else 0);
  }

  lemma {:induction false} DeliverHands(s: State, m: MsgId, h: HandlerId, only: bool)
    requires Enabled(s, Deliver(m, h))
    ensures Hands(Next(s, Deliver(m, h)), only) <= Hands(s, only) + if Counts(only, s.stream[m].job) then 5 else 0
  {
    var s' := Next(s, Deliver(m, h));
    var w' := (x: HandlerId) => HandlerWeight(s', only, x);
    SumSplit(s'.handlers.Keys, w', h);
    assert s'.handlers.Keys - {h} == s.handlers.Keys;
    SumMonotone(s.handlers.Keys, w', x => HandlerWeight(s, only, x));
  }

  lemma {:induction false} DeliverProgress(s: State, m: MsgId, h: HandlerId)
    requires Inv(s) && Enabled(s, Deliver(m, h)) && !Live(s, m)
    ensures Lighter(s, Next(s, Deliver(m, h)))
  {
    var s' := Next(s, Deliver(m, h));
    DeliverMsgs(s, m, h, true);
    DeliverMsgs(s, m, h, false);
    DeliverHands(s, m, h, true);
    DeliverHands(s, m, h, false);
    SameRows(s, s', true);
    SameRows(s, s', false);
  }

  lemma {:induction false} AckHands(s: State, h: HandlerId, only: bool)
    requires Enabled(s, Ack(h))
    ensures Hands(Next(s, Ack(h)), only) + (if only then 0 else 1) <= Hands(s, only)
  {
    var s' := Next(s, Ack(h));
    SumSplit(s.handlers.Keys, x => HandlerWeight(s, only, x), h);
    assert s'.handlers.Keys == s.handlers.Keys - {h};
    SumMonotone(s'.handlers.Keys, x => HandlerWeight(s', only, x), x => HandlerWeight(s, only, x));
  }

  lemma {:induction false} AckMsgs(s: State, h: HandlerId, only: bool)
    requires Enabled(s, Ack(h))
    ensures Msgs(Next(s, Ack(h)), only) <= Msgs(s, only)
  {
    var s' := Next(s, Ack(h));
    assert s'.stream.Keys == s.stream.Keys;
    forall x | x in s.stream ensures MsgWeight(s', only, x) <= MsgWeight(s, only, x) {
      if Live(s, x) && x != s.handlers[h].msg {
        var g :| g in s.handlers && s.handlers[g].msg == x;
        assert g in s'.handlers && s'.handlers[g].msg == x;
      }
    }
    MsgsShrink(s, s', only);
  }

  lemma {:induction false} AckProgress(s: State, h: HandlerId)
    requires Enabled(s, Ack(h))
    ensures Lighter(s, Next(s, Ack(h)))
  {
    var s' := Next(s, Ack(h));
    AckHands(s, h, true);
    AckHands(s, h, false);
    AckMsgs(s, h, true);
    AckMsgs(s, h, false);
    SameRows(s, s', true);
    SameRows(s, s', false);
  }

  /** A handler's own step lowers its phase weight and leaves every message alone. */
  lemma {:induction false} HandlerStepShape(s: State, e: Event)
    requires Enabled(s, e) && HandlerStep(e)
    ensures var s', h := Next(s, e), e.h;
            && s'.stream == s.stream && s'.relays == s.relays
            && h in s.handlers && s'.handlers == s.handlers[h := s'.handlers[h]]
            && s'.handlers[h].job == s.handlers[h].job && s'.handlers[h].msg == s.handlers[h].msg
            && PhaseWeight(s'.handlers[h].phase) < PhaseWeight(s.handlers[h].phase)
  {
  }

  lemma {:induction false} HandsDrop(s: State, s': State, h: HandlerId, only: bool)
    requires h in s.handlers && h in s'.handlers && s'.handlers == s.handlers[h := s'.handlers[h]]
    requires s'.handlers[h].job == s.handlers[h].job
    requires PhaseWeight(s'.handlers[h].phase) < PhaseWeight(s.handlers[h].phase)
    ensures Hands(s', only) + (if Counts(only, s.handlers[h].job) then 1 else 0) <= Hands(s, only)
  {
    assert s'.handlers.Keys == s.handlers.Keys;
    SumDrop(s.handlers.Keys, x => HandlerWeight(s', only, x), x => HandlerWeight(s, only, x), h,
            if Counts(only, s.handlers[h].job) then 1 else 0);
  }

  lemma {:induction false} HandlerStepHands(s: State, e: Event, only: bool)
    requires Enabled(s, e) && HandlerStep(e)
    ensures var s' := Next(s, e);
            && Hands(s', only) + (if Counts(only, s.handlers[e.h].job) then 1 else 0) <= Hands(s, only)
            && Msgs(s', only) <= Msgs(s, only)
  {
    HandlerStepShape(s, e);
    HandsDrop(s, Next(s, e), e.h, only);
    SameMsgs(s, Next(s, e), only);
  }

  lemma {:induction false} HandlerProgress(s: State, e: Event)
    requires Enabled(s, e) && HandlerStep(e) && !e.PersistDoc?
    ensures Lighter(s, Next(s, e))
  {
    var s' := Next(s, e);
    HandlerStepHands(s, e, true);
    HandlerStepHands(s, e, false);
    assert s'.db.outbox == s.db.outbox;
    SameRows(s, s', true);
    SameRows(s, s', false);
  }

  /** A persist adds classify rows only, so the extract work drops. */
  lemma {:induction false} PersistProgress(s: State, e: Event)
    requires Inv(s) && Enabled(s, e) && e.PersistDoc?
    ensures Work(Next(s, e), true) < Work(s, true)
  {
    var s' := Next(s, e);
    HandlerStepHands(s, e, true);
    PersistRows(s, e);
  }

  lemma {:induction false} PersistRows(s: State, e: Event)
    requires Inv(s) && Enabled(s, e) && e.PersistDoc?
    ensures Rows'(Next(s, e), true) <= Rows'(s, true)
  {
    var s' := Next(s, e);
    PersistAddsClassifyRows(s, e);
    var w' := (r: RowId) => RowWeight(s', true, r);
    SumIgnoresZeros(s.db.outbox.Keys, s'.db.outbox.Keys, w');
    forall r | r in s.db.outbox ensures RowWeight(s', true, r) <= RowWeight(s, true, r) {
      assert Sent(s', r) <==> Sent(s, r);
      assert Locked(s', r) <==> Locked(s, r);
    }
    SumMonotone(s.db.outbox.Keys, w', r => RowWeight(s, true, r));
  }

  lemma {:induction false} PersistAddsClassifyRows(s: State, e: Event)
    requires Inv(s) && Enabled(s, e) && e.PersistDoc?
    ensures forall r :: r in s.db.outbox ==> r in Next(s, e).db.outbox && Next(s, e).db.outbox[r] == s.db.outbox[r]
    ensures forall r :: r in Next(s, e).db.outbox && r !in s.db.outbox ==> Next(s, e).db.outbox[r].ClassifyJob?
  {
    var p, d := s.handlers[e.h].phase, s.handlers[e.h].job.docId;
    var jobs := PersistJobs(s.db, d, p.snap.runVersion, p.entities, e.ids);
    StepIsGood(s, e);
    RowsHold(e.rows, jobs);
    forall r | r in Next(s, e).db.outbox && r !in s.db.outbox ensures Next(s, e).db.outbox[r].ClassifyJob? {
      assert r in Rows(e.rows, jobs);
      assert r in Elements(e.rows);
      var k :| 0 <= k < |e.rows| && e.rows[k] == r;
    }
  }

  lemma {:induction false} ProgressDrops(s: State, e: Event)
    requires Inv(s) && Enabled(s, e) && Progress(s, e)
    ensures Drops(s, Next(s, e))
  {
    if e.PersistDoc? {
      PersistProgress(s, e);
    } else if HandlerStep(e) {
      HandlerProgress(s, e);
    } else if e.Deliver? {
      DeliverProgress(s, e.m, e.h);
    } else if e.Ack? {
      AckProgress(s, e.h);
    } else if e.RelayClaim? {
      RelayClaimProgress(s, e.r, e.rows);
    } else if e.RelayPublish? {
      PublishProgress(s, e.r, e.m);
    } else {
      CommitProgress(s, e.r);
    }
  }

  lemma {:induction false} IdleAddsNothing(s: State, e: Event)
    requires Inv(s) && Enabled(s, e) && Idle(s, e)
    ensures NoHeavier(s, Next(s, e))
  {
    match e
    case Tick(to) => TimePasses(s, to);
    case RelayClaim(r, rows) => EmptyPoll(s, r);
    case RelayCommit(r) => CommitProgress(s, r);
  }

  /******* Every schedule makes finitely many progress steps *******/

  /** A run continued by the first n events of a schedule. */
  ghost function Played(run: Run, schedule: nat -> Event, n: nat): Run {
    if n == 0 then run else Then(Played(run, schedule, n - 1), schedule(n - 1))
  }

  ghost predicate IdleAt(run: Run, schedule: nat -> Event, n: nat) {
    Valid(Played(run, schedule, n)) && Idle(Last(Played(run, schedule, n)), schedule(n))
  }

  /** The n-th event of the schedule can happen, and is a progress step or an idle one. */
  ghost predicate CalmAt(run: Run, schedule: nat -> Event, n: nat) {
    && Valid(Played(run, schedule, n + 1))
    && (Progress(Last(Played(run, schedule, n)), schedule(n)) || IdleAt(run, schedule, n))
  }

  ghost predicate Calm(run: Run, schedule: nat -> Event) {
    forall n: nat :: CalmAt(run, schedule, n)
  }

  /** The work left after n events. */
  ghost predicate Left(run: Run, schedule: nat -> Event, n: nat, a: nat, b: nat) {
    && Valid(Played(run, schedule, n))
    && a == Work(Last(Played(run, schedule, n)), true) && b == Work(Last(Played(run, schedule, n)), false)
  }

  lemma {:induction false} CalmDescends(run: Run, schedule: nat -> Event, n: nat, a: nat, b: nat)
    returns (a': nat, b': nat)
    requires CalmAt(run, schedule, n) && Left(run, schedule, n, a, b)
    ensures Left(run, schedule, n + 1, a', b')
    ensures if IdleAt(run, schedule, n) then a' <= a && b' <= b else a' < a || (a' == a && b' < b)
  {
    var before, after := Played(run, schedule, n), Played(run, schedule, n + 1);
    assert after == Then(before, schedule(n));
    AlwaysInv(before);
    if IdleAt(run, schedule, n) {
      IdleAddsNothing(Last(before), schedule(n));
    } else {
      ProgressDrops(Last(before), schedule(n));
    }
    a', b' := Work(Last(after), true), Work(Last(after), false);
  }

  /** Idle steps in between do not bring work back. */
  lemma {:induction false} CalmNeverClimbs(run: Run, schedule: nat -> Event, i: nat, k: nat, a: nat, b: nat)
    returns (a': nat, b': nat)
    requires i <= k && Calm(run, schedule) && Left(run, schedule, i, a, b)
    ensures Left(run, schedule, k, a', b')
    ensures a' < a || (a' == a && b' <= b)
    decreases k - i
  {
    if i == k {
      a', b' := a, b;
    } else {
      assert CalmAt(run, schedule, i);
      a', b' := CalmDescends(run, schedule, i, a, b);
      a', b' := CalmNeverClimbs(run, schedule, i + 1, k, a', b');
    }
  }

  lemma {:induction false} NextProgress(run: Run, schedule: nat -> Event, i: nat, k: nat, a: nat, b: nat)
    returns (a': nat, b': nat)
    requires Calm(run, schedule) && Left(run, schedule, i, a, b) && i <= k && !IdleAt(run, schedule, k)
    ensures Left(run, schedule, k + 1, a', b')
    ensures a' < a || (a' == a && b' < b)
  {
    a', b' := CalmNeverClimbs(run, schedule, i, k, a, b);
    assert CalmAt(run, schedule, k);
    a', b' := CalmDescends(run, schedule, k, a', b');
  }

  ghost predicate IdleFrom(run: Run, schedule: nat -> Event, n: nat) {
    forall k: nat :: n <= k ==> IdleAt(run, schedule, k)
  }

  lemma {:induction false} ProgressEndsAfter(run: Run, schedule: nat -> Event, i: nat, a: nat, b: nat)
    returns (n: nat)
    requires Calm(run, schedule) && Left(run, schedule, i, a, b)
    ensures i <= n && IdleFrom(run, schedule, n)
    decreases a, b
  {
    n := i;
    if k: nat :| i <= k && !IdleAt(run, schedule, k) {
      var a', b' := NextProgress(run, schedule, i, k, a, b);
      n := ProgressEndsAfter(run, schedule, k + 1, a', b');
    }
  }

  /** An endless schedule without submits, faults or duplicates of live work makes finitely many progress steps: from
      some point on it only ticks and polls an empty outbox. */
  lemma {:induction false} EveryScheduleIsFinite(run: Run, schedule: nat -> Event) returns (n: nat)
    requires Valid(run) && Calm(run, schedule)
    ensures IdleFrom(run, schedule, n)
  {
    n := ProgressEndsAfter(run, schedule, 0, Work(Last(run), true), Work(Last(run), false));
  }

  /******* Progress is possible until everything is done *******/

  lemma {:induction false} Bounded(s: set<int>) returns (b: int)
    ensures forall x :: x in s ==> x < b
  {
    if s == {} {
      b := 0;
    } else {
      var x := Pick(s);
      b := Bounded(s - {x});
      b := if x < b then b else x + 1;
      assert forall y :: y in s ==> y == x || y in s - {x};
    }
  }

  lemma {:induction false} FreshSeq(used: set<int>, n: nat) returns (ids: seq<int>)
    ensures |ids| == n && Fresh(ids, used)
  {
    var b := Bounded(used);
    ids := seq(n, k => b + k);
  }

  lemma {:induction false} HandlerCanStep(o: Oracles, s: State, h: HandlerId) returns (e: Event)
    requires Inv(s) && h in s.handlers
    ensures Enabled(s, e) && Progress(s, e) && Obeys(o, s, e)
  {
    var x := s.handlers[h];
    assert HandlerOk(s, x);
    match x.phase
    case Started => e := if x.job.ExtractJob? then ClaimDoc(h, s.clock) else CheckToken(h);
    case Claimed(snap) => e := ExtractDoc(h, o.extract(snap.text));
    case Extracted(snap, entities) =>
      var ids := FreshSeq(s.db.usedTokens, |entities|);
      var rows := FreshSeq(s.db.usedRows, |PersistJobs(s.db, x.job.docId, snap.runVersion, entities, ids)|);
      e := PersistDoc(h, ids, rows, s.clock);
    case Checked(tok) => e := ScoreToken(h, o.classify(tok.entity));
    case Scored(_, _) => e := ApplyToken(h, s.clock);
    case Done => e := Ack(h);
  }

  lemma {:induction false} RelayCanStep(o: Oracles, s: State, r: RelayId) returns (e: Event)
    requires Inv(s) && r in Busy(s)
    ensures Enabled(s, e) && Progress(s, e) && Obeys(o, s, e)
  {
    assert RelayOk(s, s.relays[r]);
    if s.relays[r].sent == |s.relays[r].rows| {
      e := RelayCommit(r);
    } else {
      var m := Bounded(s.stream.Keys);
      e := RelayPublish(r, m);
      assert m !in s.stream.Keys;
    }
  }

  /** Nothing left anywhere: no row, no un-acked message, no handler, no relay transaction that holds a row. */
  ghost predicate Settled(s: State) {
    Quiescent(s) && s.handlers == map[] && Busy(s) == {}
  }

  lemma {:induction false} NoneLocked(s: State, row: RowId)
    requires Busy(s) == {}
    ensures !Locked(s, row)
  {
    forall r | r in s.relays ensures row !in s.relays[r].rows {
      assert r !in Busy(s);
    }
  }

  lemma {:induction false} SomethingCanStep(o: Oracles, s: State) returns (e: Event)
    requires Inv(s) && !Settled(s)
    ensures Enabled(s, e) && Progress(s, e) && Obeys(o, s, e)
  {
    if s.handlers.Keys != {} {
      e := HandlerCanStep(o, s, Pick(s.handlers.Keys));
    } else if Busy(s) != {} {
      e := RelayCanStep(o, s, Pick(Busy(s)));
    } else if s.db.outbox.Keys != {} {
      var r := Bounded(s.relays.Keys);
      assert r !in s.relays.Keys;
      var row := Pick(s.db.outbox.Keys);
      NoneLocked(s, row);
      e := RelayClaim(r, [row]);
    } else {
      assert s.handlers == map[] && s.db.outbox == map[];
      var m :| m in s.stream && !s.stream[m].acked;
      e := Deliver(m, 0);
    }
  }

  /** Where no progress step is possible, every document is extracted and every token classified. */
  lemma {:induction false} StopsOnlyWhenFinished(o: Oracles, run: Run)
    requires Valid(run) && forall e :: Enabled(Last(run), e) ==> !Progress(Last(run), e)
    ensures Settled(Last(run))
    ensures var db := Last(run).db;
            && (forall d :: d in db.docs ==>
                  PastExtraction(db.docs[d]) && db.docs[d].classifiedCount == db.docs[d].totalTokens)
            && (forall i :: i in db.tokens ==> db.tokens[i].status == TokenClassified)
  {
    AlwaysInv(run);
    if !Settled(Last(run)) { var e := SomethingCanStep(o, Last(run)); }
    QuiescentIsFinished(run);
  }

  /** At this point the schedule makes progress if it can. */
  ghost predicate TakesItsChance(run: Run, schedule: nat -> Event, k: nat)
    requires Valid(Played(run, schedule, k))
  {
    var s := Last(Played(run, schedule, k));
    (exists e :: Enabled(s, e) && Progress(s, e)) ==> Progress(s, schedule(k))
  }

  /** Liveness: an endless schedule that again and again takes its chance to make progress comes to an end of all
      work.  `chance(i)` is a point from i on at which it does. */
  lemma {:induction false} FairSchedulesFinish(o: Oracles, run: Run, schedule: nat -> Event, chance: nat -> nat)
    returns (n: nat)
    requires Valid(run) && Calm(run, schedule)
    requires forall i: nat :: i <= chance(i) && Valid(Played(run, schedule, chance(i)))
                              && TakesItsChance(run, schedule, chance(i))
    ensures Valid(Played(run, schedule, n)) && Settled(Last(Played(run, schedule, n)))
    ensures IdleFrom(run, schedule, n)
    ensures var later := Played(run, schedule, n);
            ObeysRun(o, later) ==>
              forall d :: d in Last(later).db.docs ==> Table(Last(later).db, d) == Spec(o, LastText(later, d))
  {
    var quiet := EveryScheduleIsFinite(run, schedule);
    n := chance(quiet);
    var later := Played(run, schedule, n);
    assert IdleAt(run, schedule, n);
    assert forall e :: Enabled(Last(later), e) ==> !Progress(Last(later), e);
    StopsOnlyWhenFinished(o, later);
    if ObeysRun(o, later) {
      forall d | d in Last(later).db.docs ensures Table(Last(later).db, d) == Spec(o, LastText(later, d)) {
        ScheduleIndependence(o, later, d);
      }
    }
  }

  /** Every reachable state can be driven to the sequential specification by progress steps alone. */
  lemma {:induction false} CanAlwaysFinish(o: Oracles, run: Run) returns (later: Run)
    requires Valid(run) && ObeysRun(o, run)
    ensures Valid(later) && ObeysRun(o, later) && Continues(run, later) && Settled(Last(later))
    ensures forall d :: d in Last(later).db.docs ==> Table(Last(later).db, d) == Spec(o, LastText(later, d))
    decreases Work(Last(run), true), Work(Last(run), false)
  {
    AlwaysInv(run);
    if Settled(Last(run)) {
      later := run;
      forall d | d in Last(later).db.docs ensures Table(Last(later).db, d) == Spec(o, LastText(later, d)) {
        ScheduleIndependence(o, later, d);
      }
    } else {
      var e := SomethingCanStep(o, Last(run));
      ProgressDrops(Last(run), e);
      later := CanAlwaysFinish(o, Then(run, e));
      ContinuesTransitive(run, Then(run, e), later);
    }
  }

  lemma {:induction false} ContinuesTransitive(a: Run, b: Run, c: Run)
    requires Continues(a, b) && Continues(b, c)
    ensures Continues(a, c)
    decreases c
  {
    if b != c { ContinuesTransitive(a, b, c.before); }
  }
}
