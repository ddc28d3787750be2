/** Which transactions can wait for each other in a circle. */
module Deadlock {
  import opened Domain
  import opened Collections
  import opened Store
  import opened TableInvariant
  import opened Statements
  import opened Serializable
  import opened Interleavings

  /** The next statement of `a` needs, or may come to need, a row that `b` has locked. */
  ghost predicate Waits(m: Machine, a: TxId, b: TxId) {
    a in m.txs && b in m.txs && a != b && !(Wants(m.db, m.txs[a]) !! m.txs[b].locks)
  }

  /** An apply that has locked a token of document d and not yet the document. */
  ghost predicate AppliesTo(m: Machine, t: TxId, d: DocId) {
    t in m.txs && m.txs[t].prog.ApplyTx? && m.txs[t].pc.HasToken? && m.txs[t].pc.tok.docId == d
  }

  /** A full rerun that has locked document d and is deleting its tokens. */
  ghost predicate Resets(m: Machine, t: TxId, d: DocId) {
    && t in m.txs && m.txs[t].prog.SubmitTx? && m.txs[t].pc.Deleting?
    && m.txs[t].prog.d == d && m.txs[t].prog.mode == RerunFull
  }

  ghost predicate Contends(m: Machine, t: TxId, d: DocId) {
    AppliesTo(m, t, d) || Resets(m, t, d)
  }

  /** Only these two kinds wait while holding a lock. */
  lemma {:induction false} WaitersHoldingLocks(m: Machine, x: TxId, y: TxId, z: TxId)
    requires MachineInv(m) && Waits(m, x, y) && Waits(m, y, z)
    ensures exists d :: Contends(m, y, d)
  {
    var tx := m.txs[y];
    assert TxOk(m.db, tx);
    if tx.prog.ApplyTx? {
      assert Contends(m, y, tx.pc.tok.docId);
    } else {
      assert Contends(m, y, tx.prog.d);
    }
  }

  lemma {:induction false} ResetIsAlone(m: Machine, x: TxId, y: TxId, d: DocId)
    requires MachineInv(m) && Resets(m, x, d) && Resets(m, y, d)
    ensures x == y
  {
    assert TxOk(m.db, m.txs[x]) && TxOk(m.db, m.txs[y]);
    assert DocRow(d) in m.txs[x].locks && DocRow(d) in m.txs[y].locks;
  }

  lemma {:induction false} ApplyWaitsForReset(m: Machine, x: TxId, y: TxId, d: DocId)
    requires MachineInv(m) && Waits(m, x, y) && AppliesTo(m, x, d)
    requires exists e :: Contends(m, y, e)
    ensures Resets(m, y, d)
  {
    assert TxOk(m.db, m.txs[x]) && TxOk(m.db, m.txs[y]);
    assert DocRow(d) in m.txs[y].locks;
  }

  lemma {:induction false} OneOwner(db: Db, i: TokenId, d: DocId, e: DocId)
    requires i in Own(db.tokens, d) && i in Own(db.tokens, e)
    ensures d == e
  {
  }

  lemma {:induction false} ResetWaitsForApply(m: Machine, x: TxId, y: TxId, d: DocId)
    requires MachineInv(m) && Waits(m, x, y) && Resets(m, x, d)
    requires exists e :: Contends(m, y, e)
    ensures AppliesTo(m, y, d)
  {
    assert TxOk(m.db, m.txs[x]) && TxOk(m.db, m.txs[y]);
    var i :| i in m.txs[x].pc.todo && TokenRow(i) in m.txs[y].locks;
    assert i in Own(m.db.tokens, d);
    var e :| Contends(m, y, e);
    if Resets(m, y, e) {
      OneOwner(m.db, i, d, e);
      ResetIsAlone(m, x, y, d);
    }
  }

  /** The pair that waits for each other. */
  ghost predicate Clash(m: Machine, apply: TxId, reset: TxId, d: DocId) {
    AppliesTo(m, apply, d) && Resets(m, reset, d)
  }

  lemma {:induction false} NotDeleted(reset: Tx, d: DocId, i: TokenId)
    requires Holding(reset, d) && TokenRow(i) !in reset.locks
    ensures i !in reset.over.deleted
  {
  }

  /** Such a pair of one document always does wait for each other. */
  lemma {:induction false} ClashIsMutual(m: Machine, apply: TxId, reset: TxId, d: DocId)
    requires MachineInv(m) && Clash(m, apply, reset, d)
    ensures Waits(m, apply, reset) && Waits(m, reset, apply)
  {
    var a, r := m.txs[apply], m.txs[reset];
    assert TxOk(m.db, a) && TxOk(m.db, r);
    var i := a.prog.id;
    assert i in Own(m.db.tokens, d) && TokenRow(i) in a.locks;
    NotDeleted(r, d, i);
    assert TokenRow(i) in Wants(m.db, r);
    assert DocRow(d) in Wants(m.db, a) && DocRow(d) in r.locks;
  }

  ghost predicate Cycle(m: Machine, c: seq<TxId>) {
    && c != []
    && (forall i, j :: 0 <= i < j < |c| ==> c[i] != c[j])
    && (forall k :: 0 <= k < |c| - 1 ==> Waits(m, c[k], c[k + 1]))
    && Waits(m, c[|c| - 1], c[0])
  }

  /** The place after k, going round. */
  ghost function Turn(c: seq<TxId>, k: nat): (j: nat)
    requires k < |c|
    ensures j < |c|
  {
    if k + 1 < |c| then k + 1 else 0
  }

  lemma {:induction false} CycleEdge(m: Machine, c: seq<TxId>, k: nat)
    requires Cycle(m, c) && k < |c|
    ensures Waits(m, c[k], c[Turn(c, k)])
  {
  }

  lemma {:induction false} CycleContends(m: Machine, c: seq<TxId>, k: nat)
    requires MachineInv(m) && Cycle(m, c) && k < |c|
    ensures exists d :: Contends(m, c[Turn(c, k)], d)
  {
    CycleEdge(m, c, k);
    CycleEdge(m, c, Turn(c, k));
    WaitersHoldingLocks(m, c[k], c[Turn(c, k)], c[Turn(c, Turn(c, k))]);
  }

  /** One step round the cycle: an apply is followed by the reset of its document, and the reset by an apply. */
  lemma {:induction false} CycleTurns(m: Machine, c: seq<TxId>, k: nat, d: DocId)
    requires MachineInv(m) && Cycle(m, c) && k < |c| && Contends(m, c[k], d)
    ensures AppliesTo(m, c[k], d) ==> Resets(m, c[Turn(c, k)], d)
    ensures Resets(m, c[k], d) ==> AppliesTo(m, c[Turn(c, k)], d)
  {
    CycleEdge(m, c, k);
    CycleContends(m, c, k);
    if AppliesTo(m, c[k], d) {
      ApplyWaitsForReset(m, c[k], c[Turn(c, k)], d);
    } else {
      ResetWaitsForApply(m, c[k], c[Turn(c, k)], d);
    }
  }

  /** From a reset, two steps lead back to it. */
  lemma {:induction false} ResetComesRound(m: Machine, c: seq<TxId>, k: nat, d: DocId)
    requires MachineInv(m) && Cycle(m, c) && k < |c| && Resets(m, c[k], d)
    ensures |c| == 2 && AppliesTo(m, c[1 - k], d)
  {
    CycleTurns(m, c, k, d);
    CycleTurns(m, c, Turn(c, k), d);
    var j := Turn(c, Turn(c, k));
    ResetIsAlone(m, c[k], c[j], d);
    assert j == k;
    assert |c| != 1;
  }

  /** The only wait cycle there can be: an apply and a full rerun of the same document, facing each other. */
  lemma {:induction false} OnlyApplyAgainstReset(m: Machine, c: seq<TxId>)
    requires MachineInv(m) && Cycle(m, c)
    ensures |c| == 2
    ensures exists d :: Clash(m, c[0], c[1], d) || Clash(m, c[1], c[0], d)
  {
    CycleContends(m, c, |c| - 1);
    var d :| Contends(m, c[0], d);
    if AppliesTo(m, c[0], d) {
      CycleTurns(m, c, 0, d);
      ResetComesRound(m, c, Turn(c, 0), d);
      assert Clash(m, c[0], c[1], d);
    } else {
      ResetComesRound(m, c, 0, d);
      assert Clash(m, c[1], c[0], d);
    }
  }

  /** No statement of the transaction can run and it has not finished either. */
  ghost predicate Stuck(m: Machine, t: TxId) {
    t in m.txs && !Finished(m.txs[t]) && forall pick :: !CanMove(m, Statement(t, pick))
  }

  lemma {:induction false} StuckWaits(m: Machine, t: TxId) returns (u: TxId)
    requires Stuck(m, t)
    ensures Waits(m, t, u)
  {
    var tx := m.txs[t];
    var pick := 0;
    if tx.pc.Deleting? && tx.pc.todo != {} {
      pick := Pick(tx.pc.todo);
    }
    assert !CanMove(m, Statement(t, pick));
    u :| u in m.txs && u != t && !(m.txs[u].locks !! Takes(m.db, tx, pick));
    assert Takes(m.db, tx, pick) <= Wants(m.db, tx);
  }

  /** If no open transaction can go on, such a pair is among them: nothing else stops the whole system. */
  lemma {:induction false} NothingElseBlocks(m: Machine, t: TxId)
    requires MachineInv(m) && t in m.txs && forall u :: u in m.txs ==> Stuck(m, u)
    ensures exists apply, reset, d :: Clash(m, apply, reset, d)
  {
    var x := StuckWaits(m, t);
    var y := StuckWaits(m, x);
    var z := StuckWaits(m, y);
    WaitersHoldingLocks(m, t, x, y);
    WaitersHoldingLocks(m, x, y, z);
    var d :| Contends(m, x, d);
    if AppliesTo(m, x, d) {
      ApplyWaitsForReset(m, x, y, d);
      assert Clash(m, x, y, d);
    } else {
      ResetWaitsForApply(m, x, y, d);
      assert Clash(m, y, x, d);
    }
  }

  /** Aborting either one changes no table and lets the other take the row it waited for. */
  lemma {:induction false} AbortResolves(m: Machine, apply: TxId, reset: TxId, d: DocId)
    requires MachineInv(m) && Clash(m, apply, reset, d)
    ensures var m' := Moved(m, Abort(reset)); m'.db == m.db && CanMove(m', Statement(apply, 0))
    ensures var m' := Moved(m, Abort(apply)); m'.db == m.db && CanMove(m', Statement(reset, m.txs[apply].prog.id))
  {
    ClashIsMutual(m, apply, reset, d);
    var a, r := m.txs[apply], m.txs[reset];
    assert TxOk(m.db, a) && TxOk(m.db, r);
    var i := a.prog.id;
    assert DocRow(d) in r.locks && TokenRow(i) in a.locks;
    assert i in Own(m.db.tokens, d);
    NotDeleted(r, d, i);
  }

  lemma {:induction false} DocumentExists(m: Machine, apply: TxId, d: DocId)
    requires MachineInv(m) && AppliesTo(m, apply, d)
    ensures d in m.db.docs
  {
    assert TxOk(m.db, m.txs[apply]);
    assert TokenOk(m.db, m.db.tokens[m.txs[apply].prog.id]);
  }

  lemma {:induction false} DeletingClashes(m: Machine, apply: TxId, reset: TxId, d: DocId)
    requires MachineInv(m) && AppliesTo(m, apply, d) && apply != reset
    requires reset in m.txs && m.txs[reset].prog.SubmitTx? && m.txs[reset].pc.Resetting?
    requires m.txs[reset].prog.d == d && m.txs[reset].prog.mode == RerunFull
    ensures CanMove(m, Statement(reset, 0)) && Cycle(Moved(m, Statement(reset, 0)), [apply, reset])
  {
    MoveKeeps(m, Statement(reset, 0));
    ClashIsMutual(Moved(m, Statement(reset, 0)), apply, reset, d);
  }

  /** The cycle does arise: whenever a full rerun locks the document between an apply's two locks. */
  lemma {:induction false} DeadlockArises(m: Machine, apply: TxId, reset: TxId, d: DocId)
    requires MachineInv(m) && AppliesTo(m, apply, d) && apply != reset
    requires reset in m.txs && m.txs[reset].prog.SubmitTx? && m.txs[reset].pc.Begun?
    requires m.txs[reset].prog.d == d && m.txs[reset].prog.mode == RerunFull
    requires Free(m, reset, {DocRow(d)})
    ensures CanMove(m, Statement(reset, 0)) && CanMove(Moved(m, Statement(reset, 0)), Statement(reset, 0))
    ensures Cycle(Moved(Moved(m, Statement(reset, 0)), Statement(reset, 0)), [apply, reset])
  {
    DocumentExists(m, apply, d);
    MoveKeeps(m, Statement(reset, 0));
    DeletingClashes(Moved(m, Statement(reset, 0)), apply, reset, d);
  }
}
