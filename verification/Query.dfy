/** The token query builder (ListTokens in internal/store/tokens.go): a statement with numbered placeholders and
    the argument list they refer to, grown side by side. */
module Query {
  import opened Domain
  import opened Collections
  import opened Store

  datatype Filter = Filter(
    classification: Option<Category>, status: Option<TokenStatus>, page: Option<int>, limit: int, offset: int)

  datatype Value = DocValue(d: DocId) | CategoryValue(c: Category) | StatusValue(s: TokenStatus) | IntValue(n: int)

  /** A condition of the WHERE list; `arg` is its placeholder number, counted from 1. */
  datatype Clause =
    | DocumentIs(arg: nat)
    | RunIsCurrentFor(arg: nat)
    | ClassificationIs(arg: nat)
    | StatusIs(arg: nat)
    | PageIs(arg: nat)

  datatype Statement = Statement(conditions: seq<Clause>, limit: Option<nat>, offset: Option<nat>)

  /******* What a statement means *******/

  predicate Bound(args: seq<Value>, arg: nat) {
    1 <= arg <= |args|
  }

  /** SQL truth of one condition on one row.  A placeholder that is unbound or bound to a value of another
      type, and a comparison with NULL, is not true. */
  predicate Holds(c: Clause, args: seq<Value>, db: Db, t: Token) {
    && Bound(args, c.arg)
    && var v := args[c.arg - 1];
    match c
    case DocumentIs(_) => v == DocValue(t.docId)
    case RunIsCurrentFor(_) => v.DocValue? && v.d in db.docs && t.runVersion == db.docs[v.d].runVersion
    case ClassificationIs(_) => t.result.Some? && v == CategoryValue(t.result.value.category)
    case StatusIs(_) => v == StatusValue(t.status)
    case PageIs(_) => v == IntValue(t.entity.position.page)
  }

  ghost predicate AllHold(cs: seq<Clause>, args: seq<Value>, db: Db, t: Token) {
    forall k :: 0 <= k < |cs| ==> Holds(cs[k], args, db, t)
  }

  /** OFFSET o LIMIT l; an absent bound does nothing. */
  function Slice(ids: seq<TokenId>, limit: Option<int>, offset: Option<int>): seq<TokenId> {
    var skip := if offset.Some? && offset.value > 0 then offset.value else 0;
    var rest := if skip < |ids| then ids[skip..] else [];
    if limit.Some? && 0 <= limit.value < |rest| then rest[..limit.value] else rest
  }

  function IntArg(args: seq<Value>, arg: Option<nat>): Option<int> {
    if arg.Some? && Bound(args, arg.value) && args[arg.value - 1].IntValue? then Some(args[arg.value - 1].n) else None
  }

  ghost function Matching(db: Db, cs: seq<Clause>, args: seq<Value>): set<TokenId> {
    set i | i in db.tokens && AllHold(cs, args, db, db.tokens[i])
  }

  ghost function Eval(q: Statement, args: seq<Value>, db: Db): seq<TokenId> {
    Slice(Ordered(Matching(db, q.conditions, args)), IntArg(args, q.limit), IntArg(args, q.offset))
  }

  /******* What the caller asked for *******/

  predicate Wanted(db: Db, d: DocId, f: Filter, t: Token) {
    && t.docId == d && d in db.docs && t.runVersion == db.docs[d].runVersion
    && (f.classification.Some? ==> t.result.Some? && t.result.value.category == f.classification.value)
    && (f.status.Some? ==> t.status == f.status.value)
    && (f.page.Some? ==> t.entity.position.page == f.page.value)
  }

  function WantedIds(db: Db, d: DocId, f: Filter): set<TokenId> {
    set i | i in db.tokens && Wanted(db, d, f, db.tokens[i])
  }

  /** The rows of the current run that pass the filter, in id order. */
  ghost function Selected(db: Db, d: DocId, f: Filter): seq<TokenId> {
    Ordered(WantedIds(db, d, f))
  }

  /** A page of them; a limit or offset that is not positive means none. */
  ghost function PageOf(db: Db, d: DocId, f: Filter): seq<TokenId> {
    Slice(Selected(db, d, f), if f.limit > 0 then Some(f.limit) else None,
          if f.offset > 0 then Some(f.offset) else None)
  }

  /******* The builder *******/

  /** Appending an argument leaves the meaning of earlier conditions alone. */
  lemma {:induction false} MoreArgs(c: Clause, args: seq<Value>, v: Value, db: Db, t: Token)
    requires Bound(args, c.arg)
    ensures Holds(c, args + [v], db, t) == Holds(c, args, db, t)
  {
  }

  /** Every condition so far refers to an argument so far. */
  ghost predicate AllBound(cs: seq<Clause>, args: seq<Value>) {
    forall k :: 0 <= k < |cs| ==> Bound(args, cs[k].arg)
  }

  lemma {:induction false} AddClause(cs: seq<Clause>, args: seq<Value>, c: Clause, v: Value, db: Db, t: Token)
    requires AllBound(cs, args) && c.arg == |args| + 1
    ensures AllHold(cs + [c], args + [v], db, t) <==> AllHold(cs, args, db, t) && Holds(c, args + [v], db, t)
  {
    forall k | 0 <= k < |cs| ensures Holds(cs[k], args + [v], db, t) == Holds(cs[k], args, db, t) {
      MoreArgs(cs[k], args, v, db, t);
    }
    assert (cs + [c])[|cs|] == c;
    assert forall k :: 0 <= k < |cs| ==> (cs + [c])[k] == cs[k];
  }

  /** The conditions and arguments built so far select exactly the rows wanted by the filter `f`. */
  ghost predicate Selects(cs: seq<Clause>, args: seq<Value>, d: DocId, f: Filter) {
    && AllBound(cs, args)
    && forall db, t :: AllHold(cs, args, db, t) <==> Wanted(db, d, f, t)
  }

  const ANY: Filter := Filter(None, None, None, 0, 0)

  lemma {:induction false} BaseSelects(d: DocId)
    ensures Selects([DocumentIs(1), RunIsCurrentFor(1)], [DocValue(d)], d, ANY)
  {
    var cs, args := [DocumentIs(1), RunIsCurrentFor(1)], [DocValue(d)];
    forall db, t ensures AllHold(cs, args, db, t) <==> Wanted(db, d, ANY, t) {
      assert AllHold(cs, args, db, t) <==> Holds(cs[0], args, db, t) && Holds(cs[1], args, db, t);
    }
  }

  lemma {:induction false} AddSelects(cs: seq<Clause>, args: seq<Value>, d: DocId, f: Filter, c: Clause, v: Value,
                                      g: Filter)
    requires Selects(cs, args, d, f) && c.arg == |args| + 1
    requires forall db, t :: Wanted(db, d, g, t) <==> Wanted(db, d, f, t) && Holds(c, args + [v], db, t)
    ensures Selects(cs + [c], args + [v], d, g)
  {
    forall db, t ensures AllHold(cs + [c], args + [v], db, t) <==> Wanted(db, d, g, t) {
      AddClause(cs, args, c, v, db, t);
    }
  }

  /** Grows the conditions and the arguments together, as the `add` closure does. */
  method BuildConditions(d: DocId, f: Filter) returns (cs: seq<Clause>, args: seq<Value>)
    ensures Selects(cs, args, d, f.(limit := 0, offset := 0))
  {
    args := [DocValue(d)];
    cs := [DocumentIs(1), RunIsCurrentFor(1)];
    BaseSelects(d);
    ghost var g := ANY;
    if f.classification.Some? {
      AddSelects(cs, args, d, g, ClassificationIs(|args| + 1), CategoryValue(f.classification.value),
                 g.(classification := f.classification));
      g := g.(classification := f.classification);
      args := args + [CategoryValue(f.classification.value)];
      cs := cs + [ClassificationIs(|args|)];
    }
    if f.status.Some? {
      AddSelects(cs, args, d, g, StatusIs(|args| + 1), StatusValue(f.status.value), g.(status := f.status));
      g := g.(status := f.status);
      args := args + [StatusValue(f.status.value)];
      cs := cs + [StatusIs(|args|)];
    }
    if f.page.Some? {
      AddSelects(cs, args, d, g, PageIs(|args| + 1), IntValue(f.page.value), g.(page := f.page));
      g := g.(page := f.page);
      args := args + [IntValue(f.page.value)];
      cs := cs + [PageIs(|args|)];
    }
  }

  /** Whatever the store holds, running the built statement gives the page that the filter asks for. */
  method BuildQuery(d: DocId, f: Filter) returns (q: Statement, args: seq<Value>)
    ensures forall db :: Eval(q, args, db) == PageOf(db, d, f)
    ensures AllBound(q.conditions, args)
    ensures q.limit.Some? <==> f.limit > 0
    ensures q.offset.Some? <==> f.offset > 0
  {
    var cs, base := BuildConditions(d, f);
    args := base;
    q := Statement(cs, None, None);
    if f.limit > 0 {
      args := args + [IntValue(f.limit)];
      q := q.(limit := Some(|args|));
    }
    if f.offset > 0 {
      args := args + [IntValue(f.offset)];
      q := q.(offset := Some(|args|));
    }
    forall db ensures Eval(q, args, db) == PageOf(db, d, f) {
      SameRows(db, d, f, cs, base, args);
    }
  }

  /** Arguments appended after the conditions do not change what they select. */
  lemma {:induction false} SameRows(db: Db, d: DocId, f: Filter, cs: seq<Clause>, base: seq<Value>, args: seq<Value>)
    requires Selects(cs, base, d, f.(limit := 0, offset := 0)) && base <= args
    ensures Ordered(Matching(db, cs, args)) == Selected(db, d, f)
  {
    forall i | i in db.tokens ensures AllHold(cs, args, db, db.tokens[i]) <==> Wanted(db, d, f, db.tokens[i]) {
      PrefixHolds(cs, base, args, db, db.tokens[i]);
    }
    assert forall i :: i in Matching(db, cs, args) <==> i in WantedIds(db, d, f);
    assert Matching(db, cs, args) == WantedIds(db, d, f);
  }

  lemma {:induction false} PrefixHolds(cs: seq<Clause>, base: seq<Value>, args: seq<Value>, db: Db, t: Token)
    requires AllBound(cs, base) && base <= args
    ensures AllHold(cs, args, db, t) <==> AllHold(cs, base, db, t)
  {
    forall k | 0 <= k < |cs| ensures Holds(cs[k], args, db, t) == Holds(cs[k], base, db, t) {
      assert args[cs[k].arg - 1] == base[cs[k].arg - 1];
    }
  }

  /******* The answer, row by row *******/

  /** Which rows are listed, and in which order: those of the document's current run with the classification, the
      status and the page asked for, by ascending id. */
  lemma {:induction false} RowsListed(db: Db, d: DocId, f: Filter, i: TokenId)
    ensures Increasing(Selected(db, d, f))
    ensures i in Selected(db, d, f) <==>
              && i in db.tokens && d in db.docs
              && db.tokens[i].docId == d && db.tokens[i].runVersion == db.docs[d].runVersion
              && (f.classification == None ||
                  (db.tokens[i].result.Some? && Some(db.tokens[i].result.value.category) == f.classification))
              && (f.status == None || f.status == Some(db.tokens[i].status))
              && (f.page == None || f.page == Some(db.tokens[i].entity.position.page))
  {
    OrderedListsAll(WantedIds(db, d, f));
    assert i in Selected(db, d, f) <==> i in Elements(Selected(db, d, f));
  }

  /** Which part of the list is the page: as many rows as the limit allows from the offset on. */
  lemma {:induction false} PageListed(db: Db, d: DocId, f: Filter)
    ensures var all, page := Selected(db, d, f), PageOf(db, d, f);
            var skip := if f.offset <= 0 then 0 else if f.offset <= |all| then f.offset else |all|;
            && |page| == (if 0 < f.limit < |all| - skip then f.limit else |all| - skip)
            && forall k :: 0 <= k < |page| ==> page[k] == all[skip + k]
  {
  }

  /******* Paging *******/

  /** The first n pages of size `size`, one after another. */
  ghost function Pages(db: Db, d: DocId, f: Filter, size: int, n: nat): seq<TokenId> {
    if n == 0 then [] else
      Pages(db, d, f, size, n - 1) + PageOf(db, d, f.(limit := size, offset := (n - 1) * size))
  }

  lemma {:induction false} SliceIsPage(ids: seq<TokenId>, size: int, start: int)
    requires size > 0 && 0 <= start
    ensures Slice(ids, Some(size), if start > 0 then Some(start) else None) ==
              if start >= |ids| then [] else if start + size >= |ids| then ids[start..] else ids[start..start + size]
  {
  }

  lemma {:induction false} PagesArePrefix(db: Db, d: DocId, f: Filter, size: int, n: nat)
    requires size > 0
    ensures var all := Selected(db, d, f);
            Pages(db, d, f, size, n) == if n * size >= |all| then all else all[..n * size]
  {
    var all := Selected(db, d, f);
    if n > 0 {
      var start := (n - 1) * size;
      PagesArePrefix(db, d, f, size, n - 1);
      assert start + size == n * size;
      SamePagesSelected(db, d, f, size, start);
      SliceIsPage(all, size, start);
      if start < |all| {
        if n * size >= |all| { assert all[..start] + all[start..] == all; }
        else { assert all[..start] + all[start..n * size] == all[..n * size]; }
      }
    }
  }

  lemma {:induction false} SamePagesSelected(db: Db, d: DocId, f: Filter, size: int, start: int)
    ensures Selected(db, d, f.(limit := size, offset := start)) == Selected(db, d, f)
  {
    var g := f.(limit := size, offset := start);
    assert forall i :: i in WantedIds(db, d, g) <==> i in WantedIds(db, d, f);
    assert WantedIds(db, d, g) == WantedIds(db, d, f);
  }

  /** On an unchanged store, consecutive pages of any positive size concatenate to the unpaged result. */
  lemma {:induction false} PagesConcatenate(db: Db, d: DocId, f: Filter, size: int, n: nat)
    requires size > 0 && n * size >= |Selected(db, d, f)|
    ensures Pages(db, d, f, size, n) == PageOf(db, d, f.(limit := 0, offset := 0))
  {
    PagesArePrefix(db, d, f, size, n);
    SamePagesSelected(db, d, f, 0, 0);
  }
}
