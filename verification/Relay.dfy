/** The outbox relay as it is written (internal/outbox/relay.go): publish, then delete, in one transaction. */
module Relay {
  import opened Domain
  import opened Collections
  import opened Tables

  /** What can go wrong at one broker or database call: before the message lands, or after it has landed
      (the delete, the commit or the reply is lost). */
  datatype Fault = NoFault | BeforePublish | AfterPublish

  /** The rows of the outbox in id order, each with its job. */
  ghost function InOrder(outbox: map<RowId, Job>): (q: seq<(RowId, Job)>)
    ensures |q| == |outbox|
    decreases |outbox|
  {
    if outbox.Keys == {} then
      assert outbox == map[];
      []
    else
      var first := Min(outbox.Keys);
      assert (outbox - {first}).Keys == outbox.Keys - {first};
      [(first, outbox[first])] + InOrder(outbox - {first})
  }

  /** InOrder lists the rows as ORDER BY id does. */
  lemma {:induction false} InOrderIsOrdered(outbox: map<RowId, Job>)
    ensures |Ordered(outbox.Keys)| == |outbox|
    ensures forall k :: 0 <= k < |outbox| ==>
              InOrder(outbox)[k].0 == Ordered(outbox.Keys)[k] && InOrder(outbox)[k].0 in outbox
              && InOrder(outbox)[k].1 == outbox[InOrder(outbox)[k].0]
    decreases |outbox|
  {
    if outbox.Keys == {} {
      assert outbox == map[];
    } else {
      var first := Min(outbox.Keys);
      var rest := outbox - {first};
      assert rest.Keys == outbox.Keys - {first};
      InOrderIsOrdered(rest);
      forall k | 0 <= k < |outbox|
        ensures InOrder(outbox)[k].0 == Ordered(outbox.Keys)[k] && InOrder(outbox)[k].0 in outbox
                && InOrder(outbox)[k].1 == outbox[InOrder(outbox)[k].0]
      {
        if k > 0 {
          assert InOrder(outbox)[k] == InOrder(rest)[k - 1];
          assert Ordered(outbox.Keys)[k] == Ordered(rest.Keys)[k - 1];
        }
      }
    }
  }

  /** Deleting the row with the lowest id takes the head off the listing. */
  lemma {:induction false} DeleteFirst(outbox: map<RowId, Job>, row: RowId)
    requires |outbox| > 0 && InOrder(outbox)[0].0 == row
    ensures row in outbox && InOrder(outbox) == [(row, outbox[row])] + InOrder(outbox - {row})
  {
    assert outbox.Keys != {};
  }

  /** A claimed batch is the head of the listing. */
  lemma {:induction false} BatchLeads(outbox: map<RowId, Job>, limit: nat)
    ensures var rows := FirstRows(outbox, limit);
            && |rows| <= |outbox| && |rows| <= limit && (|rows| == limit || |rows| == |outbox|)
            && forall k :: 0 <= k < |rows| ==> rows[k] in outbox && InOrder(outbox)[k] == (rows[k], outbox[rows[k]])
  {
    InOrderIsOrdered(outbox);
  }

  class Relay {
    const db: Database
    const batch: nat
    const fault: nat -> Fault
    var log: seq<(RowId, Job)>
    var calls: nat

    constructor (db: Database, batch: nat, fault: nat -> Fault)
      ensures this.db == db && this.batch == batch && this.fault == fault && log == [] && calls == 0
    {
      this.db, this.batch, this.fault := db, batch, fault;
      log, calls := [], 0;
    }

    /** One of the calls from number `from` up to number `to` did not work; the last is the commit. */
    ghost predicate Faulted(from: nat, to: nat) {
      exists c :: from <= c < to && fault(c) != NoFault
    }

    lemma {:induction false} FaultSince(earlier: nat, from: nat, to: nat)
      requires earlier <= from
      ensures Faulted(from, to) ==> Faulted(earlier, to)
    {
    }

    method Publish(row: RowId, job: Job) returns (f: Fault)
      modifies this`log, this`calls
      ensures f == fault(old(calls)) && calls == old(calls) + 1
      ensures log == if f == BeforePublish then old(log) else old(log) + [(row, job)]
    {
      f := fault(calls);
      calls := calls + 1;
      if f != BeforePublish { log := log + [(row, job)]; }
    }

    /** Publish one row, and delete it if nothing failed. */
    method PublishOne(row: RowId, job: Job) returns (f: Fault)
      requires db.Valid()
      modifies this`log, this`calls, db`outbox
      ensures db.Valid() && f == fault(old(calls)) && calls == old(calls) + 1
      ensures log == if f == BeforePublish then old(log) else old(log) + [(row, job)]
      ensures db.outbox == if f == NoFault then old(db.outbox) - {row} else old(db.outbox)
    {
      f := Publish(row, job);
      if f == NoFault { db.DeleteOutbox(row); }
    }

    /** The loop over one batch, inside its transaction: stops at the first failure. */
    method PublishRows(rows: seq<RowId>, undo: map<RowId, Job>)
      returns (failed: bool, ghost published: seq<(RowId, Job)>)
      requires db.Valid() && db.outbox == undo && |rows| <= |undo|
      requires forall k :: 0 <= k < |rows| ==> rows[k] in undo && InOrder(undo)[k] == (rows[k], undo[rows[k]])
      modifies this`log, this`calls, db`outbox
      ensures db.Valid()
      ensures log == old(log) + published && published <= InOrder(undo)
      ensures calls >= old(calls) && (failed ==> Faulted(old(calls), calls))
      ensures !failed ==> |published| == |rows| && InOrder(undo) == published + InOrder(db.outbox)
    {
      var n := 0;
      published := [];
      assert undo - Elements(rows[..0]) == undo;
      while n < |rows|
        invariant 0 <= n <= |rows| && db.Valid()
        invariant PartWay(undo, db.outbox, rows, n, published)
        invariant log == old(log) + published && calls >= old(calls)
      {
        ghost var next := (rows[n], undo[rows[n]]);
        HeadIsNext(undo, db.outbox, rows, n, published);
        Assoc(old(log), published, [next]);
        var f := PublishOne(rows[n], undo[rows[n]]);
        if f != BeforePublish { published := published + [next]; }
        if f != NoFault { return true, published; }
        n := n + 1;
      }
      failed := false;
    }

    /** Claim a batch, publish each row and delete it, all in one transaction.  Returns the number of rows, or
        None when anything failed: then nothing is deleted, though a prefix of the batch may have been published. */
    method DrainBatch() returns (r: Option<nat>, ghost published: seq<(RowId, Job)>)
      requires db.Valid() && batch > 0
      modifies this`log, this`calls, db`outbox
      ensures db.Valid()
      ensures log == old(log) + published && published <= InOrder(old(db.outbox))
      ensures r.Some? ==>
                && r.value == |published| <= batch && (r.value == batch || db.outbox == map[])
                && InOrder(old(db.outbox)) == published + InOrder(db.outbox)
      ensures r.None? ==> db.outbox == old(db.outbox) && Faulted(old(calls), calls + 1)
      ensures calls >= old(calls)
    {
      var undo := db.outbox;
      var rows := db.ClaimOutboxBatch(batch, {});
      assert undo - {} == undo;
      BatchLeads(undo, batch);
      var failed;
      failed, published := PublishRows(rows, undo);
      if failed || fault(calls) != NoFault {
        db.outbox := undo;
        r := None;
      } else {
        EmptyWhenAllSent(undo, db.outbox, published);
        r := Some(|rows|);
      }
    }

    /** Batches until one is not full, or one fails, or the context is cancelled after a full one.  What has been
        published is always a prefix of the outbox in id order, and what has been deleted a prefix of that; without
        faults or cancellation both are everything, and the number of batches is the outbox length divided by the
        batch size, plus one. */
    method DrainAll(cancelled: nat -> bool)
      returns (ok: bool, batches: nat, ghost deleted: seq<(RowId, Job)>, ghost published: seq<(RowId, Job)>)
      requires db.Valid() && batch > 0
      modifies this`log, this`calls, db`outbox
      ensures db.Valid() && log == old(log) + published
      ensures deleted <= published <= InOrder(old(db.outbox)) == deleted + InOrder(db.outbox)
      ensures ok ==> published == InOrder(old(db.outbox)) && BatchCount(|published|, batches, batch)
      ensures ok ==> db.outbox == map[]
      ensures !ok ==> Faulted(old(calls), calls + 1) || cancelled(batches)
    {
      ghost var all := InOrder(db.outbox);
      batches, deleted, published := 0, [], [];
      while true
        invariant db.Valid() && |deleted| == Full(batches, batch)
        invariant all == deleted + InOrder(db.outbox)
        invariant log == old(log) + deleted && calls >= old(calls)
        decreases |db.outbox|
      {
        ghost var rest, since := db.outbox, calls;
        var r, sent := DrainBatch();
        FaultSince(old(calls), since, calls + 1);
        published := deleted + sent;
        Assoc(old(log), deleted, sent);
        PrefixOfRest(deleted, sent, InOrder(rest));
        if r.None? {
          ok := false;
          return;
        }
        BatchAdds(all, deleted, rest, sent, db.outbox);
        batches, deleted := batches + 1, published;
        if r.value < batch {
          ok := true;
          return;
        }
        if cancelled(batches) {
          ok := false;
          return;
        }
      }
    }
  }

  /** The number of batches is the number of rows divided by the batch size, plus one. */
  ghost predicate BatchCount(rows: nat, batches: nat, batch: nat) {
    batches > 0 && Full(batches - 1, batch) <= rows < Full(batches, batch)
  }

  /** n rows of the batch have been published and deleted; the rest of the outbox is still to come. */
  ghost predicate PartWay(undo: map<RowId, Job>, outbox: map<RowId, Job>, rows: seq<RowId>, n: nat,
                          published: seq<(RowId, Job)>)
  {
    && n == |published| && n <= |rows| && outbox == undo - Elements(rows[..n])
    && InOrder(undo) == published + InOrder(outbox)
  }

  /** Part way through a batch the next row to publish heads what is left. */
  lemma {:induction false} HeadIsNext(undo: map<RowId, Job>, outbox: map<RowId, Job>, rows: seq<RowId>, n: nat,
                                      published: seq<(RowId, Job)>)
    requires n < |rows| <= |undo| && PartWay(undo, outbox, rows, n, published)
    requires forall k :: 0 <= k < |rows| ==> rows[k] in undo && InOrder(undo)[k] == (rows[k], undo[rows[k]])
    ensures PartWay(undo, outbox - {rows[n]}, rows, n + 1, published + [(rows[n], undo[rows[n]])])
    ensures published + [(rows[n], undo[rows[n]])] <= InOrder(undo)
  {
    assert InOrder(outbox)[0] == InOrder(undo)[n];
    DeleteFirst(outbox, rows[n]);
    Assoc(published, [(rows[n], undo[rows[n]])], InOrder(outbox - {rows[n]}));
    OneLess(undo, rows, n);
  }

  lemma {:induction false} OneLess(undo: map<RowId, Job>, rows: seq<RowId>, n: nat)
    requires n < |rows|
    ensures undo - Elements(rows[..n + 1]) == (undo - Elements(rows[..n])) - {rows[n]}
  {
    assert rows[..n + 1] == rows[..n] + [rows[n]];
  }

  lemma {:induction false} EmptyWhenAllSent(undo: map<RowId, Job>, outbox: map<RowId, Job>,
                                            published: seq<(RowId, Job)>)
    requires InOrder(undo) == published + InOrder(outbox)
    ensures |published| == |undo| ==> outbox == map[]
  {
    assert |InOrder(undo)| == |undo| && |InOrder(outbox)| == |outbox|;
  }

  lemma {:induction false} BatchAdds(all: seq<(RowId, Job)>, deleted: seq<(RowId, Job)>, rest: map<RowId, Job>,
                                     sent: seq<(RowId, Job)>, left: map<RowId, Job>)
    requires all == deleted + InOrder(rest) && InOrder(rest) == sent + InOrder(left)
    ensures all == (deleted + sent) + InOrder(left) && deleted + sent <= all && |left| + |sent| == |rest|
    ensures left == map[] ==> deleted + sent == all
  {
    Assoc(deleted, sent, InOrder(left));
  }

  /** Rows in n full batches. */
  ghost function Full(n: nat, batch: nat): nat {
    if n == 0 then 0 else Full(n - 1, batch) + batch
  }

  lemma {:induction false} FullIsProduct(n: nat, batch: nat)
    ensures Full(n, batch) == n * batch
  {
    if n > 0 { FullIsProduct(n - 1, batch); }
  }

  /** So drainAll takes the number of rows divided by the batch size, plus one, batches. */
  lemma {:induction false} BatchCountIsQuotient(rows: nat, batches: nat, batch: nat)
    ensures BatchCount(rows, batches, batch) <==> batches > 0 && (batches - 1) * batch <= rows < batches * batch
  {
    FullIsProduct(batches, batch);
    if batches > 0 { FullIsProduct(batches - 1, batch); }
  }

  lemma {:induction false} PrefixOfRest<T>(a: seq<T>, b: seq<T>, c: seq<T>)
    requires b <= c
    ensures a <= a + b <= a + c
  {
  }
}
