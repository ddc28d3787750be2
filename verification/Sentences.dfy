/** Cutting a document into sentences (internal/nlp/mock.go, splitSentences). */
module Sentences {
  import opened Text

  /** A match of a pattern that never matches the empty string, as byte offsets into the text searched. */
  datatype Range = Range(start: int, end: int)
  type Span = r: Range | r.start < r.end witness Range(0, 1)

  datatype Sentence = Sentence(text: string, index: nat, runeStart: nat, docPrefix: string)

  /** What FindAllStringIndex promises: matches fall between runes, left to right, without overlap. */
  ghost predicate MatchList(text: string, ms: seq<Span>) {
    && (forall i :: 0 <= i < |ms| ==> Boundary(text, ms[i].start) && Boundary(text, ms[i].end))
    && LeftToRight(ms)
  }

  ghost predicate LeftToRight(ms: seq<Span>) {
    forall i, j :: 0 <= i < j < |ms| ==> ms[i].end <= ms[j].start
  }

  /** Byte offset at which the i-th segment begins: the start of the text, then the end of each terminator;
      past the last segment it is the end of the text. */
  function Offset(text: string, ms: seq<Span>, i: nat): int
    requires i <= |ms| + 1
  {
    if i == 0 then 0 else if i == |ms| + 1 then ByteLen(text) else ms[i - 1].end
  }

  function Bounds(text: string, ms: seq<Span>): seq<nat> {
    seq(|ms| + 2, i requires 0 <= i < |ms| + 2 => RuneCount(text, Offset(text, ms, i)))
  }

  lemma {:induction false} OffsetsAreBoundaries(text: string, ms: seq<Span>, i: nat)
    requires MatchList(text, ms) && i <= |ms| + 1
    ensures Boundary(text, Offset(text, ms, i))
  {
    EndIsBoundary(text);
  }

  lemma {:induction false} BoundaryRange(text: string, b: int)
    requires Boundary(text, b)
    ensures 0 <= b <= ByteLen(text)
  {
    PrefixShorter(text, RuneCount(text, b), |text|);
    assert text[..|text|] == text;
  }

  lemma {:induction false} OffsetsAscend(text: string, ms: seq<Span>, i: nat, j: nat)
    requires MatchList(text, ms) && i <= j <= |ms| + 1
    ensures Offset(text, ms, i) <= Offset(text, ms, j)
    ensures RuneCount(text, Offset(text, ms, i)) <= RuneCount(text, Offset(text, ms, j))
  {
    OffsetsAreBoundaries(text, ms, i);
    OffsetsAreBoundaries(text, ms, j);
    BoundaryRange(text, Offset(text, ms, i));
    BoundaryRange(text, Offset(text, ms, j));
    if 0 < i < j <= |ms| {
      assert ms[i - 1].end <= ms[j - 1].start < ms[j - 1].end;
    }
    BoundariesInOrder(text, Offset(text, ms, i), Offset(text, ms, j));
  }

  ghost predicate Ascending(b: seq<nat>) {
    forall i, j :: 0 <= i <= j < |b| ==> b[i] <= b[j]
  }

  ghost predicate Cuts(text: string, b: seq<nat>) {
    |b| >= 2 && b[0] == 0 && b[|b| - 1] == |text| && Ascending(b)
  }

  lemma {:induction false} BoundsCut(text: string, ms: seq<Span>)
    requires MatchList(text, ms)
    ensures Cuts(text, Bounds(text, ms))
  {
    var b := Bounds(text, ms);
    EndIsBoundary(text);
    forall i, j | 0 <= i <= j < |b| ensures b[i] <= b[j] {
      OffsetsAscend(text, ms, i, j);
    }
  }

  function Segment(text: string, b: seq<nat>, i: nat): string
    requires i + 1 < |b| && b[i] <= b[i + 1] <= |text|
  {
    text[b[i]..b[i + 1]]
  }

  /** The sentences among the first n segments: blank ones dropped, the rest numbered. */
  ghost function SentencesUpTo(text: string, b: seq<nat>, n: nat): seq<Sentence>
    requires Cuts(text, b) && n < |b|
  {
    if n == 0 then []
    else
      var before := SentencesUpTo(text, b, n - 1);
      var segment := Segment(text, b, n - 1);
      if Blank(segment) then before
      else before + [Sentence(segment, |before|, b[n - 1], text[..b[n - 1]])]
  }

  ghost function SentencesOf(text: string, ms: seq<Span>): seq<Sentence>
    requires MatchList(text, ms)
  {
    BoundsCut(text, ms);
    SentencesUpTo(text, Bounds(text, ms), |ms| + 1)
  }

  /** Byte offsets at which the segments start. */
  method Starts(text: string, ms: seq<Span>) returns (starts: seq<int>)
    ensures |starts| == |ms| + 1
    ensures forall k :: 0 <= k <= |ms| ==> starts[k] == Offset(text, ms, k)
  {
    starts := [0];
    for i := 0 to |ms|
      invariant |starts| == i + 1
      invariant forall k :: 0 <= k <= i ==> starts[k] == Offset(text, ms, k)
    {
      starts := starts + [ms[i].end];
    }
  }

  method SplitSentences(text: string, find: string -> seq<Span>) returns (out: seq<Sentence>)
    requires MatchList(text, find(text))
    ensures out == SentencesOf(text, find(text))
  {
    var ms := find(text);
    var starts := Starts(text, ms);
    ghost var b := Bounds(text, ms);
    BoundsCut(text, ms);
    EndIsBoundary(text);
    out := [];
    var index := 0;
    for i := 0 to |starts|
      invariant out == SentencesUpTo(text, b, i) && index == |out|
    {
      var start := starts[i];
      var end := ByteLen(text);
      if i + 1 < |starts| {
        end := starts[i + 1];
      }
      assert end == Offset(text, ms, i + 1);
      OffsetsAreBoundaries(text, ms, i);
      OffsetsAscend(text, ms, i, i + 1);
      assert RuneCount(text, start) == b[i] && RuneCount(text, end) == b[i + 1];
      if start < end && !Blank(Cut(text, start, end)) {
        BoundaryRange(text, start);
        out := out + [Sentence(Cut(text, start, end), index, RuneCount(text, start), Cut(text, 0, start))];
        index := index + 1;
      }
    }
  }

  /******* What the cut keeps *******/

  /** Runes from the start of the sentence to its end. */
  predicate Holds(s: Sentence, p: int) {
    s.runeStart <= p < s.runeStart + |s.text|
  }

  /** A sentence knows where in the document it stands. */
  ghost predicate Located(text: string, s: Sentence) {
    && s.runeStart + |s.text| <= |text|
    && s.docPrefix == text[..s.runeStart]
    && s.text == text[s.runeStart..s.runeStart + |s.text|]
    && !Blank(s.text)
  }

  ghost predicate Split(text: string, ss: seq<Sentence>, upTo: nat) {
    && upTo <= |text|
    && (forall k :: 0 <= k < |ss| ==> ss[k].index == k && Located(text, ss[k]))
    && (forall k :: 0 <= k < |ss| ==> ss[k].runeStart + |ss[k].text| <= upTo)
    && (forall j, k :: 0 <= j < k < |ss| ==> ss[j].runeStart + |ss[j].text| <= ss[k].runeStart)
    && (forall p :: 0 <= p < upTo && !IsSpace(text[p]) ==> exists k :: 0 <= k < |ss| && Holds(ss[k], p))
  }

  ghost function JoinedSegments(text: string, b: seq<nat>, n: nat): string
    requires Cuts(text, b) && n < |b|
  {
    if n == 0 then "" else JoinedSegments(text, b, n - 1) + Segment(text, b, n - 1)
  }

  /** The segments, blank ones included, are the text cut into consecutive pieces. */
  lemma {:induction false} SegmentsPartition(text: string, b: seq<nat>, n: nat)
    requires Cuts(text, b) && n < |b|
    ensures JoinedSegments(text, b, n) == text[..b[n]]
    ensures n == |b| - 1 ==> JoinedSegments(text, b, n) == text
  {
    if n > 0 {
      SegmentsPartition(text, b, n - 1);
      assert text[..b[n - 1]] + text[b[n - 1]..b[n]] == text[..b[n]];
    }
  }

  lemma {:induction false} BlankSegmentAddsNothing(text: string, ss: seq<Sentence>, from: nat, to: nat)
    requires Split(text, ss, from) && from <= to <= |text| && Blank(text[from..to])
    ensures Split(text, ss, to)
  {
    BlankIffAllSpace(text[from..to]);
    assert forall p :: from <= p < to ==> text[p] == text[from..to][p - from];
  }

  lemma {:induction false} SentenceExtends(text: string, ss: seq<Sentence>, from: nat, to: nat)
    requires Split(text, ss, from) && from <= to <= |text| && !Blank(text[from..to])
    ensures Split(text, ss + [Sentence(text[from..to], |ss|, from, text[..from])], to)
  {
    var last := Sentence(text[from..to], |ss|, from, text[..from]);
    var all := ss + [last];
    assert all[|ss|] == last;
    assert forall k :: 0 <= k < |ss| ==> all[k] == ss[k];
    forall p | 0 <= p < to && !IsSpace(text[p]) ensures exists k :: 0 <= k < |all| && Holds(all[k], p) {
      if from <= p {
        assert Holds(all[|ss|], p);
      } else {
        var k :| 0 <= k < |ss| && Holds(ss[k], p);
        assert Holds(all[k], p);
      }
    }
  }

  lemma {:induction false} SplitUpTo(text: string, b: seq<nat>, n: nat)
    requires Cuts(text, b) && n < |b|
    ensures Split(text, SentencesUpTo(text, b, n), b[n])
  {
    if n > 0 {
      SplitUpTo(text, b, n - 1);
      var before := SentencesUpTo(text, b, n - 1);
      if Blank(Segment(text, b, n - 1)) {
        BlankSegmentAddsNothing(text, before, b[n - 1], b[n]);
      } else {
        SentenceExtends(text, before, b[n - 1], b[n]);
      }
    }
  }

  /** Whatever the terminators, the sentences are consecutive pieces of the document in reading order, numbered
      without gaps, each knowing its offset and the text before it; no rune but white space is lost. */
  lemma {:induction false} SentencesCoverText(text: string, ms: seq<Span>)
    requires MatchList(text, ms)
    ensures Split(text, SentencesOf(text, ms), |text|)
  {
    BoundsCut(text, ms);
    SplitUpTo(text, Bounds(text, ms), |ms| + 1);
  }

  /** ... so a non-space rune is in exactly one sentence. */
  lemma {:induction false} OneSentencePerRune(text: string, ms: seq<Span>, p: nat) returns (k: nat)
    requires MatchList(text, ms) && p < |text| && !IsSpace(text[p])
    ensures k < |SentencesOf(text, ms)| && Holds(SentencesOf(text, ms)[k], p)
    ensures forall j :: 0 <= j < |SentencesOf(text, ms)| && Holds(SentencesOf(text, ms)[j], p) ==> j == k
  {
    SentencesCoverText(text, ms);
    k :| 0 <= k < |SentencesOf(text, ms)| && Holds(SentencesOf(text, ms)[k], p);
  }

  /******* Where sentences begin and end *******/

  ghost predicate IsSegment(b: seq<nat>, s: Sentence, i: nat) {
    i + 1 < |b| && s.runeStart == b[i] && s.runeStart + |s.text| == b[i + 1]
  }

  lemma {:induction false} SentenceIsSegment(text: string, b: seq<nat>, n: nat, k: nat) returns (i: nat)
    requires Cuts(text, b) && n < |b| && k < |SentencesUpTo(text, b, n)|
    ensures IsSegment(b, SentencesUpTo(text, b, n)[k], i)
  {
    var before := SentencesUpTo(text, b, n - 1);
    if k < |before| {
      i := SentenceIsSegment(text, b, n - 1, k);
    } else {
      i := n - 1;
    }
  }

  /** A place where the text is cut: its two ends, and the end of each terminator. */
  ghost predicate Edge(text: string, ms: seq<Span>, p: nat) {
    p == 0 || p == |text| || exists j :: 0 <= j < |ms| && p == RuneCount(text, ms[j].end)
  }

  lemma {:induction false} EdgeIsBound(text: string, ms: seq<Span>, p: nat)
    requires MatchList(text, ms)
    ensures Edge(text, ms, p) <==> p in Bounds(text, ms)
  {
    var b := Bounds(text, ms);
    BoundsCut(text, ms);
    if p in b {
      var i :| 0 <= i < |b| && b[i] == p;
      if 0 < i <= |ms| {
        assert p == RuneCount(text, ms[i - 1].end);
      }
    }
    if j :| 0 <= j < |ms| && p == RuneCount(text, ms[j].end) {
      assert b[j + 1] == p;
    }
    assert b[0] in b && b[|b| - 1] in b;
  }

  /** A sentence begins and ends at a cut, and no cut falls inside it: it reaches from just after one terminator to
      the end of the next. */
  lemma {:induction false} SentenceEdges(text: string, ms: seq<Span>, k: nat)
    requires MatchList(text, ms) && k < |SentencesOf(text, ms)|
    ensures var s := SentencesOf(text, ms)[k];
            && Edge(text, ms, s.runeStart) && Edge(text, ms, s.runeStart + |s.text|)
            && forall p: nat :: s.runeStart < p < s.runeStart + |s.text| ==> !Edge(text, ms, p)
  {
    var b, s := Bounds(text, ms), SentencesOf(text, ms)[k];
    BoundsCut(text, ms);
    var i := SentenceIsSegment(text, b, |ms| + 1, k);
    EdgeIsBound(text, ms, s.runeStart);
    EdgeIsBound(text, ms, s.runeStart + |s.text|);
    assert b[i] in b && b[i + 1] in b;
    forall p: nat | s.runeStart < p < s.runeStart + |s.text| ensures !Edge(text, ms, p) {
      EdgeIsBound(text, ms, p);
      NoBoundBetween(text, b, i, p);
    }
  }

  lemma {:induction false} NoBoundBetween(text: string, b: seq<nat>, i: nat, p: nat)
    requires Cuts(text, b) && i + 1 < |b| && b[i] < p < b[i + 1]
    ensures p !in b
  {
    forall j | 0 <= j < |b| ensures b[j] != p {
      assert j <= i ==> b[j] <= b[i];
      assert i + 1 <= j ==> b[i + 1] <= b[j];
    }
  }
}
