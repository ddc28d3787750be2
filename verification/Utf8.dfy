/** Byte offsets and the encoding they count: UTF-8, section 3 of RFC 3629. */
module Utf8 {
  import opened Text

  type Byte = b: int | 0 <= b < 256 witness 0

  /** The k-th base-64 digit of a code point, as a continuation byte. */
  function Digit(n: nat, k: nat): Byte
    requires k <= 2
  {
    0x80 + (if k == 0 then n else if k == 1 then n / 64 else n / 4096) % 64
  }

  function EncodeRune(c: char): (bs: seq<Byte>)
    ensures |bs| == Width(c)
  {
    var n := c as int;
    if n < 0x80 then [n]
    else if n < 0x800 then [0xC0 + n / 64, Digit(n, 0)]
    else if n < 0x10000 then [0xE0 + n / 4096, Digit(n, 1), Digit(n, 0)]
    else [0xF0 + n / 262144, Digit(n, 2), Digit(n, 1), Digit(n, 0)]
  }

  /** Rune by rune, with a given encoding of runes. */
  function EncodeWith(s: string, f: char -> seq<Byte>): seq<Byte> {
    if s == "" then [] else EncodeWith(s[..|s| - 1], f) + f(s[|s| - 1])
  }

  function Encode(s: string): seq<Byte> {
    EncodeWith(s, EncodeRune)
  }

  /** A byte that does not begin a rune. */
  predicate Continues(b: Byte) {
    0x80 <= b < 0xC0
  }

  /** The code point at the head of a valid encoding, and the bytes it takes: the lead byte tells how many. */
  function DecodeRune(bs: seq<int>): (int, nat) {
    if |bs| >= 1 && bs[0] < 0x80 then (bs[0], 1)
    else if |bs| >= 2 && bs[0] < 0xE0 then ((bs[0] - 0xC0) * 64 + (bs[1] - 0x80), 2)
    else if |bs| >= 3 && bs[0] < 0xF0 then ((bs[0] - 0xE0) * 4096 + (bs[1] - 0x80) * 64 + (bs[2] - 0x80), 3)
    else if |bs| >= 4 then
      ((bs[0] - 0xF0) * 262144 + (bs[1] - 0x80) * 4096 + (bs[2] - 0x80) * 64 + (bs[3] - 0x80), 4)
    else (0, 0)
  }

  lemma {:induction false} DigitsSum(n: nat)
    ensures n / 64 * 64 + (Digit(n, 0) - 0x80) == n
    ensures n / 4096 * 64 + (Digit(n, 1) - 0x80) == n / 64
    ensures n / 262144 * 64 + (Digit(n, 2) - 0x80) == n / 4096
  {
    assert n / 4096 == n / 64 / 64;
    assert n / 262144 == n / 4096 / 64;
  }

  /** The encoding of a rune decodes to it whatever follows, so widths are those of the encoding. */
  lemma {:induction false} RuneRoundTrip(c: char, rest: seq<Byte>)
    ensures DecodeRune(EncodeRune(c) + rest) == (c as int, Width(c))
  {
    var n, bs := c as int, EncodeRune(c);
    assert forall k :: 0 <= k < Width(c) ==> (bs + rest)[k] == bs[k];
    DigitsSum(n);
  }

  /** The first byte of a rune begins it, and its other bytes continue it. */
  lemma {:induction false} LeadByte(c: char)
    ensures !Continues(EncodeRune(c)[0])
    ensures forall k :: 1 <= k < Width(c) ==> Continues(EncodeRune(c)[k])
  {
  }

  lemma {:induction false} LengthWith(s: string, f: char -> seq<Byte>)
    requires forall c :: |f(c)| == Width(c)
    ensures |EncodeWith(s, f)| == ByteLen(s)
  {
    if s != "" {
      LengthWith(s[..|s| - 1], f);
    }
  }

  lemma {:induction false} EncodedLength(s: string)
    ensures |Encode(s)| == ByteLen(s)
  {
    LengthWith(s, EncodeRune);
  }

  /** Encoding respects concatenation. */
  lemma {:induction false} AppendWith(a: string, b: string, f: char -> seq<Byte>)
    ensures EncodeWith(a + b, f) == EncodeWith(a, f) + EncodeWith(b, f)
  {
    if b == "" {
      assert a + b == a;
    } else {
      var n := |b| - 1;
      AppendWith(a, b[..n], f);
      assert (a + b)[..|a + b| - 1] == a + b[..n];
    }
  }

  lemma {:induction false} EncodeAppend(a: string, b: string)
    ensures Encode(a + b) == Encode(a) + Encode(b)
  {
    AppendWith(a, b, EncodeRune);
  }

  lemma {:induction false} EncodeSplit(s: string, k: nat)
    requires k <= |s|
    ensures Encode(s) == Encode(s[..k]) + Encode(s[k..])
  {
    assert s[..k] + s[k..] == s;
    EncodeAppend(s[..k], s[k..]);
  }

  /** Slicing a text at boundaries is slicing its bytes. */
  lemma {:induction false} CutIsByteSlice(s: string, a: int, b: int)
    requires Boundary(s, a) && Boundary(s, b) && a <= b
    ensures 0 <= a <= b <= |Encode(s)|
    ensures Encode(Cut(s, a, b)) == Encode(s)[a..b]
  {
    var j, k := RuneCount(s, a), RuneCount(s, b);
    RuneCountMonotone(s, a, b);
    EncodeSplit(s, k);
    EncodeSplit(s[..k], j);
    EncodedLength(s[..j]);
    EncodedLength(s[..k]);
    assert s[..k][..j] == s[..j] && s[..k][j..] == s[j..k] == Cut(s, a, b);
  }

  /******* Boundaries and rune counts, read off the bytes *******/

  function Leads(bs: seq<Byte>): nat {
    if bs == [] then 0 else Leads(bs[..|bs| - 1]) + if Continues(bs[|bs| - 1]) then 0 else 1
  }

  lemma {:induction false} LeadsAppend(a: seq<Byte>, b: seq<Byte>)
    ensures Leads(a + b) == Leads(a) + Leads(b)
  {
    if b == [] {
      assert a + b == a;
    } else {
      var n := |b| - 1;
      LeadsAppend(a, b[..n]);
      assert (a + b)[..|a + b| - 1] == a + b[..n];
    }
  }

  lemma {:induction false} NoLeads(bs: seq<Byte>)
    requires forall k :: 0 <= k < |bs| ==> Continues(bs[k])
    ensures Leads(bs) == 0
  {
    if bs != [] {
      NoLeads(bs[..|bs| - 1]);
    }
  }

  lemma {:induction false} OneLeadPerRune(c: char)
    ensures Leads(EncodeRune(c)) == 1
  {
    var bs := EncodeRune(c);
    LeadByte(c);
    assert bs == [bs[0]] + bs[1..];
    LeadsAppend([bs[0]], bs[1..]);
    NoLeads(bs[1..]);
    assert Leads([bs[0]][..0]) == 0;
  }

  lemma {:induction false} LeadsCountRunes(s: string)
    ensures Leads(Encode(s)) == |s|
  {
    if s != "" {
      LeadsCountRunes(s[..|s| - 1]);
      OneLeadPerRune(s[|s| - 1]);
      LeadsAppend(Encode(s[..|s| - 1]), EncodeRune(s[|s| - 1]));
    }
  }

  /** Counting the runes before a boundary is counting the bytes there that begin one. */
  lemma {:induction false} RuneCountIsLeads(s: string, b: int)
    requires Boundary(s, b)
    ensures 0 <= b <= |Encode(s)| && RuneCount(s, b) == Leads(Encode(s)[..b])
  {
    var k := RuneCount(s, b);
    EncodeSplit(s, k);
    EncodedLength(s[..k]);
    LeadsCountRunes(s[..k]);
    assert Encode(s)[..b] == Encode(s[..k]);
  }

  /** Runes counted up to a byte offset end before it, and the next one after it. */
  lemma {:induction false} RuneCountBrackets(s: string, b: int)
    requires 0 <= b
    ensures ByteLen(s[..RuneCount(s, b)]) <= b
    ensures RuneCount(s, b) < |s| ==> b < ByteLen(s[..RuneCount(s, b) + 1])
  {
    if s != "" && b < ByteLen(s) {
      var front := s[..|s| - 1];
      RuneCountBrackets(front, b);
      var k := RuneCount(front, b);
      assert front[..k] == s[..k];
      if k < |front| {
        assert front[..k + 1] == s[..k + 1];
      } else {
        assert s[..k + 1] == s;
      }
    } else {
      assert s[..|s|] == s;
    }
  }

  lemma {:induction false} ByteOfRune(s: string, k: nat, p: nat)
    requires k < |s| && p < Width(s[k])
    ensures ByteLen(s[..k]) + p < |Encode(s)| && Encode(s)[ByteLen(s[..k]) + p] == EncodeRune(s[k])[p]
  {
    EncodeSplit(s, k);
    EncodedLength(s[..k]);
    EncodeSplit(s[k..], 1);
    assert s[k..][..1] == [s[k]] && Encode([s[k]][..0]) == [];
  }

  /** An offset is a boundary exactly when it is the end of the text or a byte there begins a rune. */
  lemma {:induction false} BoundaryIffLead(s: string, b: nat)
    requires b <= |Encode(s)|
    ensures Boundary(s, b) <==> b == |Encode(s)| || !Continues(Encode(s)[b])
  {
    var k := RuneCount(s, b);
    EncodedLength(s);
    RuneCountBrackets(s, b);
    if k == |s| {
      assert s[..k] == s;
    } else {
      var p := b - ByteLen(s[..k]);
      assert s[..k + 1][..k] == s[..k];
      ByteOfRune(s, k, p);
      LeadByte(s[k]);
    }
  }
}
