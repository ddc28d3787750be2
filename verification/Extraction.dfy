/** The rule-based extractor: from a document's text to its entities (internal/nlp/mock.go, Extract). */
module Extraction {
  import opened Collections
  import opened Domain
  import opened Text
  import opened Sentences
  import opened Spans
  import Determinism

  function StartOf(f: Found): int {
    f.start
  }

  function OffsetOf(e: Entity): int {
    e.position.charOffset
  }

  /** strings.Count(s, "\f"). */
  function FormFeeds(s: string): nat {
    if s == "" then 0 else FormFeeds(s[..|s| - 1]) + if s[|s| - 1] == '\U{000C}' then 1 else 0
  }

  /** It counts the places where a form feed stands. */
  lemma {:induction false} FormFeedsCount(s: string)
    ensures FormFeeds(s) == |set p: nat | p < |s| && s[p] == '\U{000C}'|
  {
    var places := set p: nat | p < |s| && s[p] == '\U{000C}';
    if s == "" {
      assert places == {};
    } else {
      var n := |s| - 1;
      var front := s[..n];
      FormFeedsCount(front);
      var before := set p: nat | p < |front| && front[p] == '\U{000C}';
      assert forall p: nat :: p < n ==> front[p] == s[p];
      assert places == if s[n] == '\U{000C}' then before + {n} else before;
      assert n !in before;
    }
  }

  function PageFor(prefix: string): nat {
    1 + FormFeeds(prefix)
  }

  function EntityOf(s: Sentence, f: Found): Entity {
    Entity(f.text, TrimSpace(s.text),
           Position(PageFor(s.docPrefix), s.index, s.runeStart + RuneCount(s.text, f.start)))
  }

  ghost function Chosen(s: Sentence, rules: seq<Rule>): seq<Found> {
    SortBy(Selected(s.text, rules, |rules|), StartOf)
  }

  ghost function Emitted(s: Sentence, spans: seq<Found>): seq<Entity> {
    seq(|spans|, k requires 0 <= k < |spans| => EntityOf(s, spans[k]))
  }

  ghost function EntitiesIn(s: Sentence, rules: seq<Rule>): seq<Entity> {
    Emitted(s, Chosen(s, rules))
  }

  method ExtractSentence(s: Sentence, rules: seq<Rule>) returns (out: seq<Entity>)
    ensures out == EntitiesIn(s, rules)
  {
    var spans := SelectSpans(s.text, rules);
    spans := SortBy(spans, StartOf);
    var context := TrimSpace(s.text);
    out := [];
    for k := 0 to |spans|
      invariant |out| == k && forall j :: 0 <= j < k ==> out[j] == EntityOf(s, spans[j])
    {
      var runeOff := s.runeStart + RuneCount(s.text, spans[k].start);
      out := out + [Entity(spans[k].text, context, Position(PageFor(s.docPrefix), s.index, runeOff))];
    }
  }

  /** The first n lists, one after the other. */
  ghost function Joined(lists: seq<seq<Entity>>, n: nat): seq<Entity>
    requires n <= |lists|
  {
    if n == 0 then [] else Joined(lists, n - 1) + lists[n - 1]
  }

  ghost function PerSentence(ss: seq<Sentence>, rules: seq<Rule>): seq<seq<Entity>> {
    seq(|ss|, k requires 0 <= k < |ss| => EntitiesIn(ss[k], rules))
  }

  /** What the patterns promise on a sentence: matches between runes, left to right, each starting on text. */
  ghost predicate Finds(s: string, ms: seq<Span>) {
    && MatchList(s, ms)
    && forall i :: 0 <= i < |ms| ==> OnText(s, ms[i])
  }

  predicate OnText(s: string, m: Span) {
    && Boundary(s, m.start) && Boundary(s, m.end)
    && RuneCount(s, m.start) < |s| && !IsSpace(s[RuneCount(s, m.start)])
  }

  ghost predicate Reliable(rules: seq<Rule>, s: string) {
    forall i :: 0 <= i < |rules| ==> Finds(s, rules[i].find(s))
  }

  ghost predicate Patterns(text: string, boundary: string -> seq<Span>, rules: seq<Rule>) {
    && MatchList(text, boundary(text))
    && forall s :: Reliable(rules, s)
  }

  ghost function Entities(text: string, boundary: string -> seq<Span>, rules: seq<Rule>): seq<Entity>
    requires Patterns(text, boundary, rules)
  {
    var ss := SentencesOf(text, boundary(text));
    Joined(PerSentence(ss, rules), |ss|)
  }

  /******* One sentence *******/

  /** The spans of a sentence as they are emitted: on text, with the text they carry, strictly ordered. */
  ghost predicate Tidy(s: string, spans: seq<Found>) {
    && StrictlyBy(spans, StartOf)
    && forall k :: 0 <= k < |spans| ==> Sound(s, spans[k])
  }

  ghost predicate Sound(s: string, f: Found) {
    && f.text != "" && f.start < f.end
    && OnText(s, Range(f.start, f.end)) && f == Candidate(s, Range(f.start, f.end))
  }

  lemma {:induction false} SelectedAreSound(s: string, rules: seq<Rule>, f: Found)
    requires Reliable(rules, s)
    requires f in Selected(s, rules, |rules|)
    ensures Sound(s, f)
  {
    var i, m := SelectedAreMatches(s, rules, |rules|, f);
    assert OnText(s, m) && m == Range(f.start, f.end);
  }

  /** The order of a sentence's spans is the only sorted one, whatever sorting algorithm is used. */
  lemma {:induction false} ChosenInOrder(s: Sentence, rules: seq<Rule>)
    ensures StrictlyBy(Chosen(s, rules), StartOf)
    ensures forall other: seq<Found> ::
              SortedBy(other, StartOf) && multiset(other) == multiset(Selected(s.text, rules, |rules|))
              ==> other == Chosen(s, rules)
  {
    var spans := Selected(s.text, rules, |rules|);
    SelectedDisjoint(s.text, rules, |rules|);
    forall i, j | 0 <= i < j < |spans| ensures StartOf(spans[i]) != StartOf(spans[j]) {
      assert Apart(spans[i], spans[j]);
    }
    SortByStrict(spans, StartOf);
    SortBySorts(spans, StartOf);
    forall other: seq<Found> | SortedBy(other, StartOf) && multiset(other) == multiset(spans)
      ensures other == Chosen(s, rules)
    {
      OneSortedOrder(Chosen(s, rules), other, StartOf);
    }
  }

  lemma {:induction false} ChosenAreTidy(s: Sentence, rules: seq<Rule>)
    requires Reliable(rules, s.text)
    ensures Tidy(s.text, Chosen(s, rules))
  {
    ChosenInOrder(s, rules);
    var spans := Chosen(s, rules);
    forall k | 0 <= k < |spans| ensures Sound(s.text, spans[k]) {
      SortByMembers(Selected(s.text, rules, |rules|), StartOf, spans[k]);
      SelectedAreSound(s.text, rules, spans[k]);
    }
  }

  /** What an entity says of itself is true of the document: its text stands at its offset, within the sentence
      it names and in the context it carries, and its page counts the form feeds before that sentence. */
  ghost predicate Placed(text: string, s: Sentence, e: Entity) {
    && e.text != "" && e.position.sentence == s.index
    && s.runeStart <= e.position.charOffset && e.position.charOffset + |e.text| <= s.runeStart + |s.text| <= |text|
    && OccursAt(e.text, text, e.position.charOffset)
    && e.context == TrimSpace(s.text) && OccursIn(e.text, e.context)
    && s.docPrefix == text[..s.runeStart] && e.position.page == 1 + FormFeeds(text[..s.runeStart])
  }

  lemma {:induction false} SpanText(s: string, f: Found)
    requires Sound(s, f)
    ensures OccursAt(f.text, s, RuneCount(s, f.start)) && OccursIn(f.text, TrimSpace(s))
  {
    var a, b := RuneCount(s, f.start), RuneCount(s, f.end);
    BoundariesInOrder(s, f.start, f.end);
    CleanedMatch(s, a, b);
    assert f.text == Clean(s[a..b]);
  }

  lemma {:induction false} EntityIsPlaced(text: string, s: Sentence, f: Found)
    requires Located(text, s) && Sound(s.text, f)
    ensures Placed(text, s, EntityOf(s, f))
  {
    SpanText(s.text, f);
    StandsInDocument(text, s, f.text, RuneCount(s.text, f.start));
  }

  lemma {:induction false} StandsInDocument(text: string, s: Sentence, t: string, at: nat)
    requires Located(text, s) && OccursAt(t, s.text, at)
    ensures OccursAt(t, text, s.runeStart + at)
  {
    var from := s.runeStart + at;
    WithinSlice(text, s.runeStart, s.runeStart + |s.text|, from, from + |t|);
  }

  lemma {:induction false} StartsGiveOffsets(s: string, f: Found, g: Found)
    requires Sound(s, f) && Sound(s, g) && f.start < g.start
    ensures RuneCount(s, f.start) < RuneCount(s, g.start)
  {
    BoundariesInOrder(s, f.start, g.start);
  }

  ghost predicate InSentence(text: string, s: Sentence, es: seq<Entity>) {
    && StrictlyBy(es, OffsetOf)
    && forall k :: 0 <= k < |es| ==> Placed(text, s, es[k])
  }

  lemma {:induction false} SentenceEntities(text: string, s: Sentence, rules: seq<Rule>)
    requires Located(text, s)
    requires Reliable(rules, s.text)
    ensures InSentence(text, s, EntitiesIn(s, rules))
  {
    var spans := Chosen(s, rules);
    var es := Emitted(s, spans);
    ChosenAreTidy(s, rules);
    forall k | 0 <= k < |es| ensures Placed(text, s, es[k]) {
      EntityIsPlaced(text, s, spans[k]);
    }
    forall i, j | 0 <= i < j < |es| ensures OffsetOf(es[i]) < OffsetOf(es[j]) {
      assert StartOf(spans[i]) < StartOf(spans[j]);
      StartsGiveOffsets(s.text, spans[i], spans[j]);
    }
  }

  /******* The whole document *******/

  ghost predicate PlacedIn(text: string, ss: seq<Sentence>, n: nat, e: Entity) {
    && 0 <= e.position.sentence < n <= |ss|
    && Placed(text, ss[e.position.sentence], e)
  }

  /** The entities of the first n sentences: each where it says it is, in strictly increasing order. */
  ghost predicate InDocument(text: string, ss: seq<Sentence>, n: nat, es: seq<Entity>) {
    && StrictlyBy(es, OffsetOf)
    && forall k :: 0 <= k < |es| ==> PlacedIn(text, ss, n, es[k])
  }

  /** Sentences numbered from zero, one after the other. */
  ghost predicate InLine(ss: seq<Sentence>) {
    && (forall k :: 0 <= k < |ss| ==> ss[k].index == k)
    && (forall j, k :: 0 <= j < k < |ss| ==> ss[j].runeStart + |ss[j].text| <= ss[k].runeStart)
  }

  lemma {:induction false} SentencesApart(text: string, ss: seq<Sentence>, n: nat, e: Entity, f: Entity)
    requires InLine(ss) && n < |ss| && PlacedIn(text, ss, n, e) && Placed(text, ss[n], f)
    ensures OffsetOf(e) < OffsetOf(f)
  {
  }

  lemma {:induction false} AppendSentence(text: string, ss: seq<Sentence>, n: nat, before: seq<Entity>,
                                          here: seq<Entity>)
    requires InLine(ss) && n < |ss|
    requires InDocument(text, ss, n, before) && InSentence(text, ss[n], here)
    ensures InDocument(text, ss, n + 1, before + here)
  {
    var all := before + here;
    assert forall k :: 0 <= k < |before| ==> all[k] == before[k];
    assert forall k :: |before| <= k < |all| ==> all[k] == here[k - |before|];
    forall i, j | 0 <= i < j < |all| ensures OffsetOf(all[i]) < OffsetOf(all[j]) {
      if i < |before| <= j {
        SentencesApart(text, ss, n, before[i], here[j - |before|]);
      }
    }
    forall k | 0 <= k < |all| ensures PlacedIn(text, ss, n + 1, all[k]) {
      if |before| <= k {
        assert Placed(text, ss[n], here[k - |before|]);
      }
    }
  }

  lemma {:induction false} JoinedInDocument(text: string, ss: seq<Sentence>, lists: seq<seq<Entity>>, n: nat)
    requires InLine(ss) && n <= |ss| == |lists|
    requires forall k :: 0 <= k < |ss| ==> InSentence(text, ss[k], lists[k])
    ensures InDocument(text, ss, n, Joined(lists, n))
  {
    if n == 0 {
      assert Joined(lists, n) == [];
    } else {
      var before, here := Joined(lists, n - 1), lists[n - 1];
      JoinedInDocument(text, ss, lists, n - 1);
      AppendSentence(text, ss, n - 1, before, here);
      assert Joined(lists, n) == before + here;
    }
  }

  /** Offsets round-trip and grow strictly through the document, for any text and patterns. */
  lemma {:induction false} OffsetsRoundTrip(text: string, boundary: string -> seq<Span>, rules: seq<Rule>)
    requires Patterns(text, boundary, rules)
    ensures var ss := SentencesOf(text, boundary(text));
            InDocument(text, ss, |ss|, Entities(text, boundary, rules))
  {
    SentencesCoverText(text, boundary(text));
    var ss := SentencesOf(text, boundary(text));
    var lists := PerSentence(ss, rules);
    forall k | 0 <= k < |ss| ensures InSentence(text, ss[k], lists[k]) {
      SentenceEntities(text, ss[k], rules);
    }
    JoinedInDocument(text, ss, lists, |ss|);
  }

  /** ... so no two entities share a natural key, and the store's upsert drops none of them. */
  lemma {:induction false} NoEntityDeduplicated(text: string, boundary: string -> seq<Span>, rules: seq<Rule>)
    requires Patterns(text, boundary, rules)
    ensures Determinism.DistinctKeys(Entities(text, boundary, rules))
    ensures Determinism.FirstByKey(Entities(text, boundary, rules)) == Entities(text, boundary, rules)
  {
    OffsetsRoundTrip(text, boundary, rules);
    var es := Entities(text, boundary, rules);
    forall i, j | 0 <= i < j < |es| ensures OffsetOf(es[i]) != OffsetOf(es[j]) {
    }
    Determinism.DistinctKeysAllKept(es);
  }

  /** With this extractor a finished run holds every entity found, classified, in reading order. */
  lemma {:induction false} EveryEntityIsClassified(o: Determinism.Oracles, text: string,
                                                   boundary: string -> seq<Span>, rules: seq<Rule>)
    requires Patterns(text, boundary, rules) && o.extract(text) == Entities(text, boundary, rules)
    ensures var es := Entities(text, boundary, rules);
            && |Determinism.Spec(o, text)| == |es|
            && forall k :: 0 <= k < |es| ==> Determinism.Spec(o, text)[k] == (es[k], Some(o.classify(es[k])))
  {
    NoEntityDeduplicated(text, boundary, rules);
  }

  /** The final sort, stable or not, changes nothing: sentences already come in reading order. */
  method Extract(text: string, boundary: string -> seq<Span>, rules: seq<Rule>) returns (out: seq<Entity>)
    requires Patterns(text, boundary, rules)
    ensures out == Entities(text, boundary, rules)
  {
    var ss := SplitSentences(text, boundary);
    ghost var lists := PerSentence(ss, rules);
    var entities := [];
    for n := 0 to |ss|
      invariant entities == Joined(lists, n)
    {
      var here := ExtractSentence(ss[n], rules);
      entities := entities + here;
    }
    OffsetsRoundTrip(text, boundary, rules);
    SortBySorts(entities, OffsetOf);
    OneSortedOrder(entities, SortBy(entities, OffsetOf), OffsetOf);
    return SortBy(entities, OffsetOf);
  }

  /******* Exactly which entities *******/

  /** From k to j only dots, from j to b only white space, and j is not after white space. */
  predicate EndsAt(s: string, k: nat, j: int, b: nat) {
    && k <= j <= b <= |s|
    && (forall p :: k <= p < j ==> s[p] == '.')
    && (forall p :: j <= p < b ==> IsSpace(s[p]))
    && (0 < j ==> !IsSpace(s[j - 1]))
  }

  ghost predicate Ends(s: string, k: nat, b: nat) {
    exists j :: EndsAt(s, k, j, b)
  }

  /** The text of a match: without its trailing white space and then without its trailing dots, and not less. */
  ghost predicate TextOf(s: string, m: Span, t: string) {
    var a, b := RuneCount(s, m.start), RuneCount(s, m.end);
    OccursAt(t, s, a) && (t != "" ==> t[|t| - 1] != '.') && Ends(s, a + |t|, b)
  }

  lemma {:induction false} EndsInSlice(s: string, a: nat, b: nat, k: nat, j: nat)
    requires a < b <= |s| && !IsSpace(s[a]) && Kept(s[a..b], 0, k, j)
    ensures Ends(s, a + k, b)
  {
    var w := s[a..b];
    assert forall p :: a <= p < b ==> s[p] == w[p - a];
    assert w[0] == s[a];
    assert EndsAt(s, a + k, a + j, b);
  }

  lemma {:induction false} CleanInSlice(s: string, a: nat, b: nat)
    requires a < b <= |s| && !IsSpace(s[a])
    ensures var t := Clean(s[a..b]);
            OccursAt(t, s, a) && (t != "" ==> t[|t| - 1] != '.') && Ends(s, a + |t|, b)
  {
    CleanedMatch(s, a, b);
    var i, k, j := CleanKeeps(s[a..b]);
    assert s[a..b][0] == s[a];
    assert i == 0;
    EndsInSlice(s, a, b, k, j);
  }

  lemma {:induction false} CandidateText(s: string, m: Span)
    requires OnText(s, m)
    ensures TextOf(s, m, Candidate(s, m).text)
  {
    BoundariesInOrder(s, m.start, m.end);
    CleanInSlice(s, RuneCount(s, m.start), RuneCount(s, m.end));
  }

  lemma {:induction false} TextIsUnique(s: string, m: Span, t: string, t': string)
    requires TextOf(s, m, t) && TextOf(s, m, t')
    ensures t == t'
  {
    var a, b := RuneCount(s, m.start), RuneCount(s, m.end);
    var j :| EndsAt(s, a + |t|, j, b);
    var j' :| EndsAt(s, a + |t'|, j', b);
    assert j == j';
    assert |t| == |t'|;
  }

  lemma {:induction false} JoinedMembers(lists: seq<seq<Entity>>, n: nat, e: Entity)
    requires n <= |lists|
    ensures e in Joined(lists, n) <==> exists k :: 0 <= k < n && e in lists[k]
  {
    if n > 0 {
      JoinedMembers(lists, n - 1, e);
    }
  }

  /** The entity says of the span what it should: its text, its sentence as context, and its page, sentence and
      offset. */
  ghost predicate Describes(text: string, s: Sentence, f: Found, e: Entity) {
    && e.text == f.text && e.context == TrimSpace(s.text)
    && e.position.page == 1 + |set p: nat | p < s.runeStart <= |text| && text[p] == '\U{000C}'|
    && e.position.sentence == s.index && e.position.charOffset == s.runeStart + RuneCount(s.text, f.start)
  }

  lemma {:induction false} EntityDescribes(text: string, s: Sentence, f: Found)
    requires Located(text, s)
    ensures Describes(text, s, f, EntityOf(s, f))
  {
    FormFeedsCount(s.docPrefix);
    var a := set p: nat | p < |s.docPrefix| && s.docPrefix[p] == '\U{000C}';
    var b := set p: nat | p < s.runeStart <= |text| && text[p] == '\U{000C}';
    assert forall p: nat :: p < s.runeStart ==> s.docPrefix[p] == text[p];
    assert a == b;
  }

  lemma {:induction false} SpanIsEmitted(s: Sentence, rules: seq<Rule>, f: Found)
    ensures f in Selected(s.text, rules, |rules|) ==> EntityOf(s, f) in EntitiesIn(s, rules)
  {
    SortByMembers(Selected(s.text, rules, |rules|), StartOf, f);
    if f in Selected(s.text, rules, |rules|) {
      var k :| 0 <= k < |Chosen(s, rules)| && Chosen(s, rules)[k] == f;
      assert EntitiesIn(s, rules)[k] == EntityOf(s, f);
    }
  }

  /** Every span chosen in a sentence is emitted. */
  lemma {:induction false} EverySpanEmitted(text: string, boundary: string -> seq<Span>, rules: seq<Rule>, n: nat,
                                            f: Found)
    returns (e: Entity)
    requires Patterns(text, boundary, rules) && n < |SentencesOf(text, boundary(text))|
    requires f in Selected(SentencesOf(text, boundary(text))[n].text, rules, |rules|)
    ensures e in Entities(text, boundary, rules)
    ensures Describes(text, SentencesOf(text, boundary(text))[n], f, e)
  {
    var ss := SentencesOf(text, boundary(text));
    SentencesCoverText(text, boundary(text));
    e := EntityOf(ss[n], f);
    SpanIsEmitted(ss[n], rules, f);
    EntityDescribes(text, ss[n], f);
    assert e in PerSentence(ss, rules)[n];
    JoinedMembers(PerSentence(ss, rules), |ss|, e);
  }

  /** Nothing else is emitted: each entity describes a span chosen in its sentence, with the text of its match. */
  lemma {:induction false} EveryEntityIsASpan(text: string, boundary: string -> seq<Span>, rules: seq<Rule>,
                                              e: Entity)
    returns (n: nat, f: Found)
    requires Patterns(text, boundary, rules) && e in Entities(text, boundary, rules)
    ensures n < |SentencesOf(text, boundary(text))| && n == e.position.sentence
    ensures f in Selected(SentencesOf(text, boundary(text))[n].text, rules, |rules|)
    ensures Describes(text, SentencesOf(text, boundary(text))[n], f, e)
    ensures f.start < f.end && TextOf(SentencesOf(text, boundary(text))[n].text, Range(f.start, f.end), e.text)
  {
    var ss := SentencesOf(text, boundary(text));
    var lists := PerSentence(ss, rules);
    SentencesCoverText(text, boundary(text));
    JoinedMembers(lists, |ss|, e);
    n :| 0 <= n < |ss| && e in lists[n];
    var spans := Chosen(ss[n], rules);
    var k :| 0 <= k < |lists[n]| && lists[n][k] == e;
    f := spans[k];
    SortByMembers(Selected(ss[n].text, rules, |rules|), StartOf, f);
    EntityDescribes(text, ss[n], f);
    SelectedAreSound(ss[n].text, rules, f);
    CandidateText(ss[n].text, Range(f.start, f.end));
  }
}
