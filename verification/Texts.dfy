/** The string operations of the host languages that the modelled code relies on. */
module Texts {

  /** Python's `str.isspace` on one character. */
  predicate IsSpace(c: char) {
    var n := c as int;
    || 0x09 <= n <= 0x0d || 0x1c <= n <= 0x20 || n == 0x85 || n == 0xa0 || n == 0x1680
    || 0x2000 <= n <= 0x200a || n == 0x2028 || n == 0x2029 || n == 0x202f || n == 0x205f || n == 0x3000
  }

  /** The blanks, one by one: control separators, the space, the next-line and no-break
      characters, and the wider spaces of Unicode. */
  lemma SpacesAre(c: char)
    ensures IsSpace(c) <==>
              c as int in {0x09, 0x0a, 0x0b, 0x0c, 0x0d, 0x1c, 0x1d, 0x1e, 0x1f, 0x20, 0x85, 0xa0, 0x1680,
                           0x2000, 0x2001, 0x2002, 0x2003, 0x2004, 0x2005, 0x2006, 0x2007, 0x2008, 0x2009, 0x200a,
                           0x2028, 0x2029, 0x202f, 0x205f, 0x3000}
  {
  }

  predicate Blank(s: string) {
    forall i :: 0 <= i < |s| ==> IsSpace(s[i])
  }

  function TrimStart(s: string): (r: string)
    ensures |r| <= |s| && s[|s| - |r|..] == r && Blank(s[..|s| - |r|])
    ensures r != [] ==> !IsSpace(r[0])
  {
    if s == [] || !IsSpace(s[0]) then s
    else
      var r := TrimStart(s[1..]);
      assert s[..|s| - |r|] == [s[0]] + s[1..][..|s| - 1 - |r|];
      r
  }

  function TrimEnd(s: string): (r: string)
    ensures |r| <= |s| && s[..|r|] == r && Blank(s[|r|..])
    ensures r != [] ==> !IsSpace(r[|r| - 1])
  {
    if s == [] || !IsSpace(s[|s| - 1]) then s
    else
      var r := TrimEnd(s[..|s| - 1]);
      assert s[|r|..] == s[..|s| - 1][|r|..] + [s[|s| - 1]];
      r
  }

  /** Python's `str.strip`. */
  function Strip(s: string): string {
    TrimEnd(TrimStart(s))
  }

  predicate BlankBetween(s: string, lo: nat, hi: nat)
    requires hi <= |s|
  {
    forall i :: lo <= i < hi ==> IsSpace(s[i])
  }

  /** Stripping removes blanks from both ends and nothing else. */
  lemma StripParts(s: string) returns (from: nat)
    ensures from + |Strip(s)| <= |s| && s[from..from + |Strip(s)|] == Strip(s)
    ensures BlankBetween(s, 0, from) && BlankBetween(s, from + |Strip(s)|, |s|)
    ensures Strip(s) != [] ==> !IsSpace(Strip(s)[0]) && !IsSpace(Strip(s)[|Strip(s)| - 1])
  {
    hide IsSpace, TrimEnd, TrimStart;
    var left := TrimStart(s);
    from := |s| - |left|;
    var r := TrimEnd(left);
    assert left == s[from..];
    assert s[from..from + |r|] == left[..|r|];
    forall i | from + |r| <= i < |s|
      ensures IsSpace(s[i])
    {
      assert s[i] == left[|r|..][i - from - |r|];
    }
    forall i | 0 <= i < from
      ensures IsSpace(s[i])
    {
      assert s[i] == s[..from][i];
    }
    if r != [] {
      assert r[0] == left[0];
    }
  }

  /** `not s.strip()` tests for a blank string. */
  lemma StripBlank(s: string)
    ensures Strip(s) == [] <==> Blank(s)
  {
    hide IsSpace, Strip;
    var from := StripParts(s);
    if Strip(s) != [] {
      assert s[from] == Strip(s)[0];
    }
  }

  /** Not blank, and without blanks at either end. */
  predicate Tidy(s: string) {
    s != "" && !IsSpace(s[0]) && !IsSpace(s[|s| - 1])
  }

  /** Stripping produces tidy strings and leaves them alone. */
  lemma StripTidy(s: string)
    ensures Strip(s) != "" ==> Tidy(Strip(s))
    ensures Tidy(s) ==> Strip(s) == s
    ensures |Strip(s)| <= |s|
  {
    hide IsSpace, Strip;
    var from := StripParts(s);
    if Tidy(s) {
      assert from == 0;
      assert |Strip(s)| == |s|;
    }
  }

  predicate EndsWith(s: string, tail: string) {
    |tail| <= |s| && s[|s| - |tail|..] == tail
  }

  /** Stripping in front of a tidy end removes nothing from that end. */
  lemma StripEndsWith(front: string, tail: string)
    requires Tidy(tail)
    ensures EndsWith(Strip(front + tail), tail) && Tidy(Strip(front + tail))
    ensures |Strip(front + tail)| <= |front| + |tail|
  {
    hide IsSpace, Strip;
    var s := front + tail;
    var from := StripParts(s);
    StripTidy(s);
    assert s[|s| - 1] == tail[|tail| - 1] && s[|front|] == tail[0];
    assert from <= |front|;
    assert from + |Strip(s)| == |s|;
    assert Strip(s) == s[from..];
  }

  /** The separator of paragraphs, passages and events. */
  const GAP: string := "\n\n"

  function Concat(pieces: seq<string>): string {
    if pieces == [] then "" else Concat(pieces[..|pieces| - 1]) + pieces[|pieces| - 1]
  }

  lemma ConcatMore(pieces: seq<string>, piece: string)
    ensures Concat(pieces + [piece]) == Concat(pieces) + piece
  {
    assert (pieces + [piece])[..|pieces|] == pieces;
  }

  lemma {:induction false} ConcatFirst(pieces: seq<string>)
    requires pieces != []
    ensures Concat(pieces) == pieces[0] + Concat(pieces[1..])
    decreases |pieces|
  {
    var n := |pieces| - 1;
    if n > 0 {
      ConcatFirst(pieces[..n]);
      assert pieces[..n][1..] == pieces[1..][..n - 1];
    }
  }

  // --- Splitting at empty lines ------------------------------------------------------------

  predicate GapAt(s: string, k: nat) {
    k + 1 < |s| && s[k] == '\n' && s[k + 1] == '\n'
  }

  /** The position of the first empty line, or the length of a text without one. */
  function FirstGap(s: string, from: nat): (r: nat)
    requires from <= |s|
    ensures from <= r <= |s| && (r < |s| ==> GapAt(s, r)) && forall k :: from <= k < r ==> !GapAt(s, k)
    decreases |s| - from
  {
    if from == |s| || GapAt(s, from) then from else FirstGap(s, from + 1)
  }

  /** `split` at empty lines: the pieces before the last one, and the last one. */
  function Blocks(s: string): (r: (seq<string>, string))
    ensures |r.1| <= |s|
    decreases |s|
  {
    var i := FirstGap(s, 0);
    if i == |s| then ([], s)
    else
      var (more, rest) := Blocks(s[i + 2..]);
      ([s[..i]] + more, rest)
  }

  /** Splitting a longer text continues from where the shorter one stopped, so a text may be
      split as it arrives. */
  lemma {:induction false} BlocksContinue(a: string, b: string)
    ensures var (done, rest) := Blocks(a);
            var (more, last) := Blocks(rest + b);
            Blocks(a + b) == (done + more, last)
    decreases |a|
  {
    hide FirstGap;
    var i := FirstGap(a, 0);
    var (done, rest) := Blocks(a);
    var (more, last) := Blocks(rest + b);
    if i == |a| {
      assert done + more == more;
    } else {
      assert forall k :: 0 <= k < |a| - 1 ==> (GapAt(a, k) <==> GapAt(a + b, k));
      assert GapAt(a + b, i) && FirstGap(a + b, 0) == i;
      assert (a + b)[i + 2..] == a[i + 2..] + b && (a + b)[..i] == a[..i];
      BlocksContinue(a[i + 2..], b);
      var tail := Blocks(a[i + 2..]).0;
      assert [a[..i]] + (tail + more) == ([a[..i]] + tail) + more;
    }
  }

  /** No two line feeds in a row. */
  predicate NoGap(s: string) {
    forall k :: 0 <= k < |s| - 1 ==> !(s[k] == '\n' && s[k + 1] == '\n')
  }

  lemma NoGapBefore(s: string, n: nat)
    requires n <= |s| && forall k :: 0 <= k < n ==> !GapAt(s, k)
    ensures NoGap(s[..n]) && (0 < n && n + 1 < |s| && s[n] == '\n' ==> s[n - 1] != '\n')
  {
    forall k | 0 <= k < n - 1
      ensures !(s[k] == '\n' && s[k + 1] == '\n')
    {
      assert !GapAt(s, k);
    }
    if n > 0 {
      assert !GapAt(s, n - 1);
    }
  }

  /** No piece holds an empty line or a line feed in front of one, so every empty line is taken,
      the earliest first. */
  lemma {:induction false} BlocksAreWhole(s: string)
    ensures NoGap(Blocks(s).1)
    ensures forall block :: block in Blocks(s).0 ==> NoGap(block) && (block != "" ==> block[|block| - 1] != '\n')
    decreases |s|
  {
    hide FirstGap, NoGap, GapAt;
    var i := FirstGap(s, 0);
    NoGapBefore(s, i);
    if i == |s| {
      assert s[..i] == s;
    } else {
      GapHere(s, i);
      BlocksAreWhole(s[i + 2..]);
    }
  }

  lemma GapHere(s: string, k: nat)
    requires GapAt(s, k)
    ensures k + 1 < |s| && s[k] == '\n'
  {
  }

  /** Joining the pieces with empty lines gives the text back. */
  function Rejoin(blocks: seq<string>, rest: string): string {
    if blocks == [] then rest else blocks[0] + "\n\n" + Rejoin(blocks[1..], rest)
  }

  lemma {:induction false} BlocksRejoin(s: string)
    ensures Rejoin(Blocks(s).0, Blocks(s).1) == s
    decreases |s|
  {
    var i := FirstGap(s, 0);
    if i < |s| {
      BlocksRejoin(s[i + 2..]);
      assert s == s[..i] + "\n\n" + s[i + 2..];
    }
  }
}
