/** Strings as the extractor sees them.  Document texts arrive as JSON and are stored in a UTF-8 database, so they
    are valid UTF-8: a string is a sequence of runes, and a byte offset is a sum of rune widths. */
module Text {

  /** Bytes that a rune takes: section 3 of RFC 3629. */
  function Width(c: char): (w: nat)
    ensures 1 <= w <= 4
  {
    var n := c as int;
    if n < 0x80 then 1 else if n < 0x800 then 2 else if n < 0x10000 then 3 else 4
  }

  /** len(s) in bytes. */
  function ByteLen(s: string): nat {
    if s == [] then 0 else ByteLen(s[..|s| - 1]) + Width(s[|s| - 1])
  }

  /** utf8.RuneCountInString(s[:b]). */
  function RuneCount(s: string, b: int): (k: nat)
    ensures k <= |s|
  {
    if s == [] || ByteLen(s) <= b then |s| else RuneCount(s[..|s| - 1], b)
  }

  /** Byte offset b falls between runes of s. */
  predicate Boundary(s: string, b: int) {
    ByteLen(s[..RuneCount(s, b)]) == b
  }

  lemma {:induction false} RuneCountMonotone(s: string, a: int, b: int)
    requires a <= b
    ensures RuneCount(s, a) <= RuneCount(s, b)
  {
    if s != [] && b < ByteLen(s) {
      RuneCountMonotone(s[..|s| - 1], a, b);
    }
  }

  /** s[a:b] in bytes. */
  function Cut(s: string, a: int, b: int): string
    requires a <= b
  {
    RuneCountMonotone(s, a, b);
    s[RuneCount(s, a)..RuneCount(s, b)]
  }

  lemma {:induction false} PrefixShorter(s: string, j: nat, k: nat)
    requires j <= k <= |s|
    ensures ByteLen(s[..j]) + (k - j) <= ByteLen(s[..k])
  {
    if j < k {
      PrefixShorter(s, j, k - 1);
      assert s[..k][..k - 1] == s[..k - 1];
    }
  }

  /** Counting runes up to the end of the k-th rune gives k. */
  lemma {:induction false} RuneCountOfPrefix(s: string, k: nat)
    requires k <= |s|
    ensures RuneCount(s, ByteLen(s[..k])) == k && Boundary(s, ByteLen(s[..k]))
  {
    if k == |s| {
      assert s[..k] == s;
    } else {
      PrefixShorter(s, k, |s|);
      assert s[..|s|] == s && s[..|s| - 1][..k] == s[..k];
      RuneCountOfPrefix(s[..|s| - 1], k);
    }
  }

  lemma {:induction false} BoundariesInOrder(s: string, a: int, b: int)
    requires Boundary(s, a) && Boundary(s, b)
    ensures a < b ==> RuneCount(s, a) < RuneCount(s, b)
    ensures a <= b ==> RuneCount(s, a) <= RuneCount(s, b)
  {
    var j, k := RuneCount(s, a), RuneCount(s, b);
    if k <= j { PrefixShorter(s, k, j); }
  }

  lemma {:induction false} EndIsBoundary(s: string)
    ensures Boundary(s, ByteLen(s)) && RuneCount(s, ByteLen(s)) == |s|
    ensures Boundary(s, 0) && RuneCount(s, 0) == 0
  {
    assert s[..|s|] == s && ByteLen(s[..0]) == 0;
    RuneCountOfPrefix(s, |s|);
    RuneCountOfPrefix(s, 0);
  }

  /******* Trimming *******/

  /** unicode.IsSpace. */
  predicate IsSpace(c: char) {
    var n := c as int;
    || 0x09 <= n <= 0x0D || n == 0x20 || n == 0x85 || n == 0xA0 || n == 0x1680 || 0x2000 <= n <= 0x200A
    || n == 0x2028 || n == 0x2029 || n == 0x202F || n == 0x205F || n == 0x3000
  }

  predicate IsDot(c: char) {
    c == '.'
  }

  function TrimLeft(s: string, p: char -> bool): string {
    if s != [] && p(s[0]) then TrimLeft(s[1..], p) else s
  }

  function TrimRight(s: string, p: char -> bool): string {
    if s != [] && p(s[|s| - 1]) then TrimRight(s[..|s| - 1], p) else s
  }

  function TrimSpace(s: string): string {
    TrimRight(TrimLeft(s, IsSpace), IsSpace)
  }

  /** What is emitted for a match: outer space off, then trailing dots off. */
  function Clean(s: string): string {
    TrimRight(TrimSpace(s), IsDot)
  }

  predicate Blank(s: string) {
    TrimSpace(s) == ""
  }

  lemma {:induction false} TrimRightKeepsPrefix(s: string, p: char -> bool)
    ensures TrimRight(s, p) <= s
    ensures TrimRight(s, p) != [] ==> !p(TrimRight(s, p)[|TrimRight(s, p)| - 1])
    ensures forall k :: |TrimRight(s, p)| <= k < |s| ==> p(s[k])
  {
    if s != [] && p(s[|s| - 1]) {
      TrimRightKeepsPrefix(s[..|s| - 1], p);
    }
  }

  lemma {:induction false} TrimLeftKeepsSuffix(s: string, p: char -> bool)
    ensures var i := |s| - |TrimLeft(s, p)|;
            && 0 <= i <= |s| && TrimLeft(s, p) == s[i..]
            && (forall k :: 0 <= k < i ==> p(s[k]))
            && (i < |s| ==> !p(s[i]))
  {
    if s != [] && p(s[0]) {
      TrimLeftKeepsSuffix(s[1..], p);
      var i := |s[1..]| - |TrimLeft(s[1..], p)|;
      assert s[1..][i..] == s[i + 1..];
    }
  }

  /** TrimSpace cuts s down to the stretch from its first to its last non-space. */
  lemma {:induction false} TrimSpaceBounds(s: string) returns (i: nat, j: nat)
    ensures i <= j <= |s| && TrimSpace(s) == s[i..j]
    ensures forall k :: 0 <= k < i || j <= k < |s| ==> IsSpace(s[k])
    ensures i < j ==> !IsSpace(s[i]) && !IsSpace(s[j - 1])
  {
    var left := TrimLeft(s, IsSpace);
    TrimLeftKeepsSuffix(s, IsSpace);
    TrimRightKeepsPrefix(left, IsSpace);
    i := |s| - |left|;
    j := i + |TrimSpace(s)|;
    forall k | j <= k < |s| ensures IsSpace(s[k]) {
      assert left[k - i] == s[k];
    }
  }

  lemma {:induction false} BlankIffAllSpace(s: string)
    ensures Blank(s) <==> forall k :: 0 <= k < |s| ==> IsSpace(s[k])
  {
    var i, j := TrimSpaceBounds(s);
  }

  predicate OccursAt(small: string, big: string, k: int) {
    0 <= k && k + |small| <= |big| && big[k..k + |small|] == small
  }

  ghost predicate OccursIn(small: string, big: string) {
    exists k :: OccursAt(small, big, k)
  }

  /** A match that starts on a non-space is cleaned from its right end only. */
  lemma {:induction false} CleanedFromTheRight(m: string)
    requires m != "" && !IsSpace(m[0])
    ensures Clean(m) <= TrimSpace(m) <= m
    ensures TrimSpace(m) != "" && !IsSpace(m[|TrimSpace(m)| - 1])
  {
    assert TrimLeft(m, IsSpace) == m;
    TrimRightKeepsPrefix(m, IsSpace);
    TrimRightKeepsPrefix(TrimSpace(m), IsDot);
  }

  lemma {:induction false} CleanedMatch(s: string, a: nat, b: nat)
    requires a < b <= |s| && !IsSpace(s[a])
    ensures OccursAt(Clean(s[a..b]), s, a)
    ensures OccursIn(Clean(s[a..b]), TrimSpace(s))
  {
    var m := s[a..b];
    assert m[0] == s[a];
    CleanedFromTheRight(m);
    var n := |TrimSpace(m)|;
    var i, j := TrimSpaceBounds(s);
    assert m[n - 1] == s[a + n - 1];
    assert i <= a && a + n <= j;
    var t := Clean(m);
    assert t == s[a..a + |t|];
    WithinSlice(s, i, j, a, a + |t|);
    assert OccursAt(t, TrimSpace(s), a - i);
  }

  lemma {:induction false} WithinSlice(s: string, i: nat, j: nat, a: nat, b: nat)
    requires i <= a <= b <= j <= |s|
    ensures s[i..j][a - i..b - i] == s[a..b]
  {
    forall k | 0 <= k < b - a ensures s[i..j][a - i..b - i][k] == s[a..b][k] {
      assert s[i..j][a - i..b - i][k] == s[i..j][a - i + k] == s[a + k];
    }
  }

  /******* What cleaning leaves *******/

  /** s[i..j] is s without outer space, and s[i..k] is that without its trailing dots. */
  ghost predicate Kept(s: string, i: nat, k: nat, j: nat) {
    && i <= k <= j <= |s|
    && (forall p :: 0 <= p < i || j <= p < |s| ==> IsSpace(s[p]))
    && (i < j ==> !IsSpace(s[i]) && !IsSpace(s[j - 1]))
    && (forall p :: k <= p < j ==> s[p] == '.')
    && (i < k ==> s[k - 1] != '.')
  }

  /** Exactly what is emitted for a match: all of it but white space at both ends and the dots before the one at the
      right end. */
  lemma {:induction false} CleanKeeps(s: string) returns (i: nat, k: nat, j: nat)
    ensures Kept(s, i, k, j) && Clean(s) == s[i..k]
  {
    i, j := TrimSpaceBounds(s);
    var trimmed := TrimSpace(s);
    TrimRightKeepsPrefix(trimmed, IsDot);
    k := i + |Clean(s)|;
    forall p | k <= p < j ensures s[p] == '.' {
      assert trimmed[p - i] == s[p];
    }
    assert i < k ==> Clean(s)[|Clean(s)| - 1] == s[k - 1];
  }

  /** There is one way to clean a string. */
  lemma {:induction false} KeptUnique(s: string, i: nat, k: nat, j: nat, i': nat, k': nat, j': nat)
    requires Kept(s, i, k, j) && Kept(s, i', k', j')
    ensures s[i..k] == s[i'..k']
  {
    if i < j && i' < j' {
      assert i == i' && j == j';
      assert k == k';
    } else {
      OneEmpty(s, i, k, j, i', k', j');
    }
  }

  lemma {:induction false} OneEmpty(s: string, i: nat, k: nat, j: nat, i': nat, k': nat, j': nat)
    requires Kept(s, i, k, j) && Kept(s, i', k', j') && (i == j || i' == j')
    ensures i == k && i' == k'
  {
    assert forall p :: 0 <= p < |s| ==> IsSpace(s[p]);
  }

  /** The white space of Unicode, code point by code point. */
  lemma {:induction false} SpacesListed(c: char)
    ensures IsSpace(c) <==> c in {
              '\t', '\n', '\U{000B}', '\U{000C}', '\r', ' ', '\U{0085}', '\U{00A0}', '\U{1680}',
              '\U{2000}', '\U{2001}', '\U{2002}', '\U{2003}', '\U{2004}', '\U{2005}', '\U{2006}', '\U{2007}',
              '\U{2008}', '\U{2009}', '\U{200A}', '\U{2028}', '\U{2029}', '\U{202F}', '\U{205F}', '\U{3000}'}
  {
  }
}
