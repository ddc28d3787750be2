/** Choosing non-overlapping candidate spans of a sentence by rule priority (internal/nlp/mock.go,
    extractSentence). */
module Spans {
  import opened Text
  import opened Sentences
  import opened Collections

  /** A pattern; the name-like one is also subject to a filter that tells titles and headlines from names. */
  datatype Rule = Rule(nameLike: bool, find: string -> seq<Span>, isTitle: string -> bool)

  datatype Found = Found(start: int, end: int, text: string)

  ghost predicate Searches(rules: seq<Rule>, s: string) {
    forall i :: 0 <= i < |rules| ==> LeftToRight(rules[i].find(s))
  }

  predicate Overlaps(f: Found, m: Span) {
    m.start < f.end && m.end > f.start
  }

  ghost predicate Taken(spans: seq<Found>, m: Span) {
    exists f :: f in spans && Overlaps(f, m)
  }

  /** The span a match would become. */
  function Candidate(s: string, m: Span): Found {
    Found(m.start, m.end, Clean(Cut(s, m.start, m.end)))
  }

  /** The filters on a match's own text. */
  predicate Passes(r: Rule, text: string) {
    text != "" && !(r.nameLike && r.isTitle(text))
  }

  /** The match passes its rule's filters and is free. */
  ghost predicate Granted(s: string, held: seq<Found>, r: Rule, m: Span) {
    Passes(r, Candidate(s, m).text) && !Taken(held, m)
  }

  /** What a rule proposes for a match: the text it would carry, and whether that passes. */
  datatype Proposal = Proposal(text: string, passes: bool)

  function Proposer(s: string, r: Rule): Span -> Proposal {
    (m: Span) => Proposal(Candidate(s, m).text, Passes(r, Candidate(s, m).text))
  }

  function Proposed(p: Span -> Proposal, m: Span): Found {
    Found(m.start, m.end, p(m).text)
  }

  ghost predicate Wins(p: Span -> Proposal, held: seq<Found>, m: Span) {
    p(m).passes && !Taken(held, m)
  }

  ghost function Offer(p: Span -> Proposal, held: seq<Found>, m: Span): seq<Found> {
    if Wins(p, held, m) then [Proposed(p, m)] else []
  }

  /** The spans held after the first n matches of a rule. */
  ghost function Accepted(p: Span -> Proposal, spans: seq<Found>, ms: seq<Span>, n: nat): seq<Found>
    requires n <= |ms|
  {
    if n == 0 then spans
    else
      var before := Accepted(p, spans, ms, n - 1);
      before + Offer(p, before, ms[n - 1])
  }

  /** The spans held after the first n rules. */
  ghost function Selected(s: string, rules: seq<Rule>, n: nat): seq<Found>
    requires n <= |rules|
  {
    if n == 0 then []
    else
      var r := rules[n - 1];
      Accepted(Proposer(s, r), Selected(s, rules, n - 1), r.find(s), |r.find(s)|)
  }

  method Occupied(spans: seq<Found>, m: Span) returns (b: bool)
    ensures b <==> Taken(spans, m)
  {
    for i := 0 to |spans|
      invariant forall k :: 0 <= k < i ==> !Overlaps(spans[k], m)
    {
      if Overlaps(spans[i], m) {
        return true;
      }
    }
    return false;
  }

  /** What one match adds to the spans held. */
  method TryMatch(s: string, held: seq<Found>, r: Rule, m: Span) returns (more: seq<Found>)
    ensures more == Offer(Proposer(s, r), held, m)
  {
    var taken := Occupied(held, m);
    if taken {
      return [];
    }
    var text := Clean(Cut(s, m.start, m.end));
    if text == "" {
      return [];
    }
    if r.nameLike && r.isTitle(text) {
      return [];
    }
    more := [Found(m.start, m.end, text)];
  }

  /** One rule's turn. */
  method AcceptMatches(s: string, spans: seq<Found>, r: Rule) returns (out: seq<Found>)
    ensures out == Accepted(Proposer(s, r), spans, r.find(s), |r.find(s)|)
  {
    var ms := r.find(s);
    out := spans;
    for j := 0 to |ms|
      invariant out == Accepted(Proposer(s, r), spans, ms, j)
    {
      var more := TryMatch(s, out, r, ms[j]);
      out := out + more;
    }
  }

  method SelectSpans(s: string, rules: seq<Rule>) returns (spans: seq<Found>)
    ensures spans == Selected(s, rules, |rules|)
  {
    spans := [];
    for i := 0 to |rules|
      invariant spans == Selected(s, rules, i)
    {
      spans := AcceptMatches(s, spans, rules[i]);
    }
  }

  /******* The greedy choice *******/

  /** The plain form of one rule's contribution: its own matches that pass, tested against earlier rules only. */
  ghost function Layer(p: Span -> Proposal, earlier: seq<Found>, ms: seq<Span>, n: nat): seq<Found>
    requires n <= |ms|
  {
    if n == 0 then []
    else Layer(p, earlier, ms, n - 1) + Offer(p, earlier, ms[n - 1])
  }

  lemma {:induction false} LayerAreMatches(p: Span -> Proposal, earlier: seq<Found>, ms: seq<Span>, n: nat, f: Found)
    returns (k: nat)
    requires n <= |ms| && f in Layer(p, earlier, ms, n)
    ensures k < n <= |ms| && f == Proposed(p, ms[k]) && Wins(p, earlier, ms[k])
  {
    if f in Layer(p, earlier, ms, n - 1) {
      k := LayerAreMatches(p, earlier, ms, n - 1, f);
    } else {
      k := n - 1;
    }
  }

  lemma {:induction false} OwnMatchesNeverClash(p: Span -> Proposal, earlier: seq<Found>, ms: seq<Span>, n: nat)
    requires LeftToRight(ms) && n < |ms|
    ensures Taken(earlier + Layer(p, earlier, ms, n), ms[n]) <==> Taken(earlier, ms[n])
  {
    var layer := Layer(p, earlier, ms, n);
    forall f | f in layer ensures !Overlaps(f, ms[n]) {
      var k := LayerAreMatches(p, earlier, ms, n, f);
    }
    if Taken(earlier, ms[n]) {
      var f :| f in earlier && Overlaps(f, ms[n]);
      assert f in earlier + layer;
    }
  }

  /** Testing each match against everything accepted so far is the same as testing it against earlier rules. */
  lemma {:induction false} AcceptedIsLayer(p: Span -> Proposal, earlier: seq<Found>, ms: seq<Span>, n: nat)
    requires LeftToRight(ms) && n <= |ms|
    ensures Accepted(p, earlier, ms, n) == earlier + Layer(p, earlier, ms, n)
  {
    if n > 0 {
      var m := ms[n - 1];
      var layer := Layer(p, earlier, ms, n - 1);
      AcceptedIsLayer(p, earlier, ms, n - 1);
      assert Offer(p, earlier + layer, m) == Offer(p, earlier, m) by {
        OwnMatchesNeverClash(p, earlier, ms, n - 1);
      }
      Assoc(earlier, layer, Offer(p, earlier, m));
    }
  }

  lemma {:induction false} LayerHas(p: Span -> Proposal, earlier: seq<Found>, ms: seq<Span>, n: nat, k: nat)
    requires k < n <= |ms|
    requires Wins(p, earlier, ms[k])
    ensures Proposed(p, ms[k]) in Layer(p, earlier, ms, n)
  {
    if k < n - 1 {
      LayerHas(p, earlier, ms, n - 1, k);
    }
  }

  predicate Apart(f: Found, g: Found) {
    f.end <= g.start || g.end <= f.start
  }

  ghost predicate Disjoint(spans: seq<Found>) {
    && (forall i :: 0 <= i < |spans| ==> spans[i].start < spans[i].end)
    && (forall i, j :: 0 <= i < j < |spans| ==> Apart(spans[i], spans[j]))
  }

  lemma {:induction false} AcceptedStaysDisjoint(p: Span -> Proposal, spans: seq<Found>, ms: seq<Span>, n: nat)
    requires n <= |ms| && Disjoint(spans)
    ensures Disjoint(Accepted(p, spans, ms, n))
  {
    if n > 0 {
      AcceptedStaysDisjoint(p, spans, ms, n - 1);
      OfferStaysDisjoint(p, Accepted(p, spans, ms, n - 1), ms[n - 1]);
    }
  }

  lemma {:induction false} OfferStaysDisjoint(p: Span -> Proposal, held: seq<Found>, m: Span)
    requires Disjoint(held)
    ensures Disjoint(held + Offer(p, held, m))
  {
    if Wins(p, held, m) {
      forall k | 0 <= k < |held| ensures Apart(held[k], Proposed(p, m)) {
        assert held[k] in held && !Overlaps(held[k], m);
      }
    } else {
      assert held + [] == held;
    }
  }

  /** No two chosen spans overlap, for any rules. */
  lemma {:induction false} SelectedDisjoint(s: string, rules: seq<Rule>, n: nat)
    requires n <= |rules|
    ensures Disjoint(Selected(s, rules, n))
  {
    if n > 0 {
      SelectedDisjoint(s, rules, n - 1);
      var r := rules[n - 1];
      AcceptedStaysDisjoint(Proposer(s, r), Selected(s, rules, n - 1), r.find(s), |r.find(s)|);
    }
  }

  lemma {:induction false} AcceptedGrows(p: Span -> Proposal, spans: seq<Found>, ms: seq<Span>, n: nat)
    requires n <= |ms|
    ensures spans <= Accepted(p, spans, ms, n)
  {
    if n > 0 {
      AcceptedGrows(p, spans, ms, n - 1);
      var before := Accepted(p, spans, ms, n - 1);
      PrefixGrows(spans, before, Offer(p, before, ms[n - 1]));
    }
  }

  lemma {:induction false} PrefixGrows<T>(a: seq<T>, b: seq<T>, c: seq<T>)
    requires a <= b
    ensures a <= b + c
  {
  }

  lemma {:induction false} SelectedGrows(s: string, rules: seq<Rule>, i: nat, n: nat)
    requires i <= n <= |rules|
    ensures Selected(s, rules, i) <= Selected(s, rules, n)
  {
    if i < n {
      SelectedGrows(s, rules, i, n - 1);
      var r := rules[n - 1];
      AcceptedGrows(Proposer(s, r), Selected(s, rules, n - 1), r.find(s), |r.find(s)|);
    }
  }

  /** The choice is greedy and maximal.  A match of rule i is chosen at rule i exactly when it passes the filters
      and overlaps nothing chosen by a strictly earlier rule; a match that passes is in the final choice or
      overlaps such an earlier span. */
  lemma {:induction false} GreedyByPriority(s: string, rules: seq<Rule>, i: nat, j: nat)
    requires Searches(rules, s) && i < |rules| && j < |rules[i].find(s)|
    ensures var r, m := rules[i], rules[i].find(s)[j];
            var f := Candidate(s, m);
            var passes := f.text != "" && !(r.nameLike && r.isTitle(f.text));
            var free := forall g :: g in Selected(s, rules, i) ==> m.end <= g.start || g.end <= m.start;
            && f.start == m.start && f.end == m.end
            && (f in Selected(s, rules, i + 1) && f !in Selected(s, rules, i) <==> passes && free)
            && (passes ==> f in Selected(s, rules, |rules|) || !free)
  {
    var m := rules[i].find(s)[j];
    ChosenIffGranted(s, rules, i, j);
    FreeIsNotTaken(Selected(s, rules, i), m);
    SelectedGrows(s, rules, i + 1, |rules|);
  }

  lemma {:induction false} ChosenIffGranted(s: string, rules: seq<Rule>, i: nat, j: nat)
    requires Searches(rules, s) && i < |rules| && j < |rules[i].find(s)|
    ensures var m, earlier := rules[i].find(s)[j], Selected(s, rules, i);
            Candidate(s, m) in Selected(s, rules, i + 1) && Candidate(s, m) !in earlier
            <==> Granted(s, earlier, rules[i], m)
  {
    var r := rules[i];
    var ms := r.find(s);
    var f := Candidate(s, ms[j]);
    var earlier := Selected(s, rules, i);
    WonIffFree(Proposer(s, r), earlier, ms, j);
    assert f == Proposed(Proposer(s, r), ms[j]);
  }

  /** A match of a rule is new after the rule's turn exactly when it passes and overlaps nothing held before. */
  lemma {:induction false} WonIffFree(p: Span -> Proposal, earlier: seq<Found>, ms: seq<Span>, j: nat)
    requires LeftToRight(ms) && j < |ms|
    ensures Proposed(p, ms[j]) in Accepted(p, earlier, ms, |ms|) && Proposed(p, ms[j]) !in earlier
            <==> Wins(p, earlier, ms[j])
  {
    var f := Proposed(p, ms[j]);
    AcceptedIsLayer(p, earlier, ms, |ms|);
    assert f in earlier ==> Overlaps(f, ms[j]);
    if Wins(p, earlier, ms[j]) {
      LayerHas(p, earlier, ms, |ms|, j);
    }
    if f in Layer(p, earlier, ms, |ms|) {
      var k := LayerAreMatches(p, earlier, ms, |ms|, f);
      assert ms[k] == ms[j];
    }
  }

  lemma {:induction false} FreeIsNotTaken(held: seq<Found>, m: Span)
    ensures Taken(held, m) <==> !forall g :: g in held ==> m.end <= g.start || g.end <= m.start
  {
    if Taken(held, m) {
      var f :| f in held && Overlaps(f, m);
      assert !(m.end <= f.start || f.end <= m.start);
    } else {
      forall g | g in held ensures m.end <= g.start || g.end <= m.start {
        assert !Overlaps(g, m);
      }
    }
  }

  /** Nothing else is chosen: each chosen span is a match of some rule that passed and was free at its turn. */
  lemma {:induction false} SelectedAreMatches(s: string, rules: seq<Rule>, n: nat, f: Found)
    returns (i: nat, m: Span)
    requires Searches(rules, s) && n <= |rules| && f in Selected(s, rules, n)
    ensures i < n && m in rules[i].find(s) && f == Candidate(s, m)
    ensures Granted(s, Selected(s, rules, i), rules[i], m)
  {
    var earlier := Selected(s, rules, n - 1);
    if f in earlier {
      i, m := SelectedAreMatches(s, rules, n - 1, f);
    } else {
      i := n - 1;
      m := RuleAdds(s, earlier, rules[i], rules[i].find(s), f);
    }
  }

  lemma {:induction false} RuleAdds(s: string, earlier: seq<Found>, r: Rule, ms: seq<Span>, f: Found)
    returns (m: Span)
    requires LeftToRight(ms) && f in Accepted(Proposer(s, r), earlier, ms, |ms|) && f !in earlier
    ensures m in ms && f == Candidate(s, m) && Granted(s, earlier, r, m)
  {
    var p := Proposer(s, r);
    AcceptedIsLayer(p, earlier, ms, |ms|);
    var k := LayerAreMatches(p, earlier, ms, |ms|, f);
    m := ms[k];
    assert p(m) == Proposal(Candidate(s, m).text, Passes(r, Candidate(s, m).text));
  }
}
