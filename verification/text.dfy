/**
 * The Python string operations the invoice code relies on, on `string`
 * (a sequence of Unicode scalar values, as Python's `str` is):
 * `strip()`, `split()`, `split(sep)`, `in`, `startswith`/`endswith`, and
 * the padding done by the format specs `<w` and `>w`.
 */
module Text {
  import opened Wrappers

  /** Whitespace as `str.strip()` and `str.split()` see it (its ASCII part). */
  predicate IsSpace(c: char) {
    c == ' ' || c == '\t' || c == '\n' || c == '\r' || c == '\U{B}' || c == '\U{C}'
  }

  predicate NoSpace(s: string) {
    forall i :: 0 <= i < |s| ==> !IsSpace(s[i])
  }

  /** `c * n` */
  function Repeat(c: char, n: nat): (r: string)
    ensures |r| == n
    ensures forall i :: 0 <= i < n ==> r[i] == c
  {
    if n == 0 then [] else [c] + Repeat(c, n - 1)
  }

  /** Padding adds only spaces. */
  lemma {:induction false} PadRightLacks(s: string, w: nat, c: char)
    requires c != ' ' && c !in s
    ensures c !in PadRight(s, w)
  {
    var r := PadRight(s, w);
    forall i | 0 <= i < |r|
      ensures r[i] != c
    {
      if i < |s| {
        assert r[i] == r[..|s|][i];
      }
    }
  }

  lemma {:induction false} PadLeftLacks(s: string, w: nat, c: char)
    requires c != ' ' && c !in s
    ensures c !in PadLeft(s, w)
  {
    var r := PadLeft(s, w);
    forall i | 0 <= i < |r|
      ensures r[i] != c
    {
      if i >= |r| - |s| {
        assert r[i] == r[|r| - |s|..][i - (|r| - |s|)];
      }
    }
  }

  /** `f"{s:<w}"`: s, then spaces up to width w; a longer s is kept whole. */
  function PadRight(s: string, w: nat): (r: string)
    ensures |r| == if |s| < w then w else |s|
    ensures r[..|s|] == s
    ensures forall i :: |s| <= i < |r| ==> r[i] == ' '
  {
    if |s| < w then s + Repeat(' ', w - |s|) else s
  }

  /** `f"{s:>w}"`: spaces up to width w, then s; a longer s is kept whole. */
  function PadLeft(s: string, w: nat): (r: string)
    ensures |r| == if |s| < w then w else |s|
    ensures r[|r| - |s|..] == s
    ensures forall i :: 0 <= i < |r| - |s| ==> r[i] == ' '
  {
    if |s| < w then Repeat(' ', w - |s|) + s else s
  }

  lemma {:induction false} PadLeftIsSpacesThen(s: string, w: nat)
    ensures exists k: nat :: PadLeft(s, w) == Repeat(' ', k) + s && (|s| < w ==> k > 0)
  {
    if |s| < w {
      assert PadLeft(s, w) == Repeat(' ', w - |s|) + s;
    } else {
      assert PadLeft(s, w) == Repeat(' ', 0) + s;
    }
  }

  /** `s.lstrip()` */
  function TrimLeft(s: string): (r: string)
    ensures |r| <= |s|
    ensures r == [] || !IsSpace(r[0])
  {
    if s != [] && IsSpace(s[0]) then TrimLeft(s[1..]) else s
  }

  /** `s.rstrip()` */
  function TrimRight(s: string): (r: string)
    ensures |r| <= |s|
    ensures r == [] || !IsSpace(r[|r| - 1])
  {
    if s != [] && IsSpace(s[|s| - 1]) then TrimRight(s[..|s| - 1]) else s
  }

  /** `s.strip()`: the text with the whitespace at both ends removed. */
  function Strip(s: string): (r: string)
    ensures |r| <= |s|
  {
    TrimLeft(TrimRight(s))
  }

  /** `s.strip()` is empty exactly when s is all whitespace. */
  lemma {:induction false} StripEmpty(s: string)
    ensures Strip(s) == [] <==> forall i :: 0 <= i < |s| ==> IsSpace(s[i])
  {
    TrimRightEmpty(s);
    var t := TrimRight(s);
    TrimLeftEmpty(t);
    if t != [] {
      assert !IsSpace(t[|t| - 1]);
    }
  }

  lemma {:induction false} TrimLeftEmpty(s: string)
    ensures TrimLeft(s) == [] <==> forall i :: 0 <= i < |s| ==> IsSpace(s[i])
    decreases |s|
  {
    if s != [] {
      if IsSpace(s[0]) {
        TrimLeftEmpty(s[1..]);
        assert forall i :: 1 <= i < |s| ==> s[i] == s[1..][i - 1];
      }
    }
  }

  lemma {:induction false} TrimRightEmpty(s: string)
    ensures TrimRight(s) == [] <==> forall i :: 0 <= i < |s| ==> IsSpace(s[i])
    decreases |s|
  {
    if s != [] {
      if IsSpace(s[|s| - 1]) {
        TrimRightEmpty(s[..|s| - 1]);
        assert forall i :: 0 <= i < |s| - 1 ==> s[i] == s[..|s| - 1][i];
      }
    }
  }

  /** `lstrip()` removes a prefix: what remains is a suffix of s. */
  lemma {:induction false} TrimLeftSuffix(s: string)
    ensures TrimLeft(s) == s[|s| - |TrimLeft(s)|..]
    decreases |s|
  {
    if s != [] && IsSpace(s[0]) {
      TrimLeftSuffix(s[1..]);
      assert s[1..][|s[1..]| - |TrimLeft(s[1..])|..] == s[|s| - |TrimLeft(s)|..];
    }
  }

  /** `strip()` leaves no whitespace at either end. */
  lemma {:induction false} StripEnds(s: string)
    ensures Strip(s) == [] || (!IsSpace(Strip(s)[0]) && !IsSpace(Strip(s)[|Strip(s)| - 1]))
  {
    var t := TrimRight(s);
    var r := TrimLeft(t);
    TrimLeftSuffix(t);
    if r != [] {
      assert r[|r| - 1] == t[|t| - 1];
    }
  }

  /** A stripped string is its own strip. */
  lemma {:induction false} StripOfStripped(s: string)
    requires s == [] || (!IsSpace(s[0]) && !IsSpace(s[|s| - 1]))
    ensures Strip(s) == s
  {
  }

  lemma {:induction false} TrimRightSpaces(s: string, n: nat)
    ensures TrimRight(s + Repeat(' ', n)) == TrimRight(s)
    decreases n
  {
    if n > 0 {
      var t := s + Repeat(' ', n);
      assert t[|t| - 1] == ' ';
      assert t[..|t| - 1] == s + Repeat(' ', n - 1);
      assert TrimRight(t) == TrimRight(t[..|t| - 1]);
      TrimRightSpaces(s, n - 1);
    } else {
      assert s + Repeat(' ', n) == s;
    }
  }

  /** Padding on the right does not change what `strip()` returns. */
  lemma {:induction false} StripPadRight(s: string, w: nat)
    ensures Strip(PadRight(s, w)) == Strip(s)
  {
    if |s| < w {
      var n := w - |s|;
      assert PadRight(s, w) == s + Repeat(' ', n);
      TrimRightSpaces(s, n);
    }
  }

  lemma {:induction false} TrimLeftSpaces(n: nat, s: string)
    ensures TrimLeft(Repeat(' ', n) + s) == TrimLeft(s)
    decreases n
  {
    if n > 0 {
      var t := Repeat(' ', n) + s;
      assert t[0] == ' ';
      assert t[1..] == Repeat(' ', n - 1) + s;
      assert TrimLeft(t) == TrimLeft(t[1..]);
      TrimLeftSpaces(n - 1, s);
    } else {
      assert Repeat(' ', n) + s == s;
    }
  }

  /** The length of the run of non-whitespace that starts s. */
  function WordLen(s: string): (n: nat)
    ensures n <= |s|
    ensures forall i :: 0 <= i < n ==> !IsSpace(s[i])
    ensures n < |s| ==> IsSpace(s[n])
    ensures s != [] && !IsSpace(s[0]) ==> n >= 1
  {
    if s == [] || IsSpace(s[0]) then 0 else 1 + WordLen(s[1..])
  }

  /** `s.split()`: the maximal runs of non-whitespace of s, in order. */
  function Words(s: string): (ws: seq<string>)
    decreases |s|
  {
    var t := TrimLeft(s);
    if t == [] then []
    else
      var n := WordLen(t);
      [t[..n]] + Words(t[n..])
  }

  lemma {:induction false} WordLenOfWord(w: string, rest: string)
    requires w != [] && NoSpace(w)
    requires rest == [] || IsSpace(rest[0])
    ensures WordLen(w + rest) == |w|
  {
    var t := w + rest;
    assert forall i :: 0 <= i < |w| ==> t[i] == w[i];
    assert |w| < |t| ==> t[|w|] == rest[0];
  }

  /** A word after some spaces, followed by whitespace or the end, is the next word. */
  lemma {:induction false} WordsAfterSpaces(k: nat, w: string, rest: string)
    requires w != [] && NoSpace(w)
    requires rest == [] || IsSpace(rest[0])
    ensures Words(Repeat(' ', k) + w + rest) == [w] + Words(rest)
  {
    var s := Repeat(' ', k) + w + rest;
    var t := w + rest;
    assert s == Repeat(' ', k) + t;
    assert TrimLeft(s) == t by {
      TrimLeftSpaces(k, t);
      assert !IsSpace(t[0]);
    }
    assert WordLen(t) == |w| by {
      WordLenOfWord(w, rest);
    }
    assert t[..|w|] == w && t[|w|..] == rest;
  }

  /** The same, for a field right-aligned by `>width`. */
  lemma {:induction false} WordsPadLeft(w: string, width: nat, rest: string)
    requires w != [] && NoSpace(w)
    requires rest == [] || IsSpace(rest[0])
    ensures Words(PadLeft(w, width) + rest) == [w] + Words(rest)
  {
    PadLeftIsSpacesThen(w, width);
    var k: nat :| PadLeft(w, width) == Repeat(' ', k) + w;
    WordsAfterSpaces(k, w, rest);
  }

  /** `s.split(c)` for a one-character separator; there is always at least one piece. */
  function Split(s: string, c: char): (r: seq<string>)
    ensures |r| >= 1
    decreases |s|
  {
    if s == [] then [[]]
    else
      var rest := Split(s[1..], c);
      if s[0] == c then [[]] + rest else [[s[0]] + rest[0]] + rest[1..]
  }

  lemma {:induction false} SplitAfterPiece(piece: string, c: char, t: string)
    requires c !in piece
    ensures Split(piece + [c] + t, c) == [piece] + Split(t, c)
    decreases |piece|
  {
    var s := piece + [c] + t;
    if piece == [] {
      assert s[1..] == t;
    } else {
      assert s[1..] == piece[1..] + [c] + t;
      SplitAfterPiece(piece[1..], c, t);
      assert [piece[0]] + piece[1..] == piece;
    }
  }

  /** A string without the separator is a single piece. */
  lemma {:induction false} SplitNone(s: string, c: char)
    requires c !in s
    ensures Split(s, c) == [s]
    decreases |s|
  {
    if s != [] {
      SplitNone(s[1..], c);
      assert [s[0]] + s[1..] == s;
    }
  }

  /** The text written by one `f.write(line + "\n")` per line. */
  function Lines(ls: seq<string>): string
  {
    if ls == [] then [] else ls[0] + "\n" + Lines(ls[1..])
  }

  lemma {:induction false} LinesAppend(a: seq<string>, b: seq<string>)
    ensures Lines(a + b) == Lines(a) + Lines(b)
    decreases |a|
  {
    if a != [] {
      assert (a + b)[1..] == a[1..] + b;
      LinesAppend(a[1..], b);
      calc {
        Lines(a + b);
        a[0] + "\n" + Lines(a[1..] + b);
        a[0] + "\n" + (Lines(a[1..]) + Lines(b));
        (a[0] + "\n" + Lines(a[1..])) + Lines(b);
      }
    } else {
      assert a + b == b;
    }
  }

  /** Writing lines free of newlines and splitting on newlines gives them back, then an empty piece. */
  lemma {:induction false} SplitLines(ls: seq<string>)
    requires forall i :: 0 <= i < |ls| ==> '\n' !in ls[i]
    ensures Split(Lines(ls), '\n') == ls + [[]]
    decreases |ls|
  {
    if ls != [] {
      SplitLines(ls[1..]);
      SplitAfterPiece(ls[0], '\n', Lines(ls[1..]));
      assert ls[0] + "\n" + Lines(ls[1..]) == ls[0] + ['\n'] + Lines(ls[1..]);
      assert [ls[0]] + (ls[1..] + [[]]) == ls + [[]];
    }
  }

  /** `s.startswith(p)` */
  predicate StartsWith(s: string, p: string) {
    |p| <= |s| && s[..|p|] == p
  }

  /** `s.endswith(p)` */
  predicate EndsWith(s: string, p: string) {
    |p| <= |s| && s[|s| - |p|..] == p
  }

  /** pat occurs in s at position i. */
  predicate At(s: string, pat: string, i: nat) {
    i + |pat| <= |s| && s[i..i + |pat|] == pat
  }

  /** `s.find(pat)`: the first index at which pat occurs in s; `IndexOfFinds` states it. */
  function IndexOf(s: string, pat: string): (r: Option<nat>)
    requires pat != []
    ensures r.Some? ==> r.value + |pat| <= |s|
    decreases |s|
  {
    if |s| < |pat| then None
    else if s[..|pat|] == pat then Some(0)
    else
      match IndexOf(s[1..], pat)
      case None => None
      case Some(k) => Some(k + 1)
  }

  /** An occurrence one position further into s is an occurrence in the tail of s. */
  lemma {:induction false} AtTail(s: string, pat: string, i: nat)
    requires s != []
    ensures At(s, pat, i + 1) <==> At(s[1..], pat, i)
  {
    if i + 1 + |pat| <= |s| {
      assert s[1..][i..i + |pat|] == s[i + 1..i + 1 + |pat|];
    }
  }

  /** `find` returns an occurrence, and no earlier one exists; None means there is none at all. */
  lemma {:induction false} IndexOfFinds(s: string, pat: string)
    requires pat != []
    ensures IndexOf(s, pat).Some? ==> At(s, pat, IndexOf(s, pat).value)
    ensures IndexOf(s, pat).Some? ==> forall i: nat :: i < IndexOf(s, pat).value ==> !At(s, pat, i)
    ensures IndexOf(s, pat).None? ==> forall i: nat :: !At(s, pat, i)
    decreases |s|
  {
    if |s| >= |pat| && s[..|pat|] != pat {
      IndexOfFinds(s[1..], pat);
      forall i: nat | 1 <= i
        ensures At(s, pat, i) <==> At(s[1..], pat, i - 1)
      {
        AtTail(s, pat, i - 1);
      }
      assert !At(s, pat, 0);
    }
  }

  /** `pat in s` */
  predicate Contains(s: string, pat: string)
    requires pat != []
  {
    IndexOf(s, pat).Some?
  }

  /** A string none of whose characters starts pat does not contain pat. */
  lemma {:induction false} NotContains(s: string, pat: string)
    requires pat != []
    requires forall i :: 0 <= i < |s| ==> s[i] != pat[0]
    ensures !Contains(s, pat)
  {
    IndexOfFinds(s, pat);
    forall k: nat
      ensures !At(s, pat, k)
    {
      if k + |pat| <= |s| {
        assert s[k..k + |pat|][0] == s[k];
      }
    }
  }

  /** A string that has pat at position k, and no character starting pat before k, finds it at k. */
  lemma {:induction false} IndexOfAt(s: string, pat: string, k: nat)
    requires pat != [] && At(s, pat, k)
    requires forall i :: 0 <= i < k ==> s[i] != pat[0]
    ensures IndexOf(s, pat) == Some(k)
  {
    IndexOfFinds(s, pat);
    var r := IndexOf(s, pat);
    assert r.Some?;
    assert s[r.value..r.value + |pat|][0] == s[r.value];
  }

  /** `s.split(pat)[0]`: the text before the first occurrence of pat, or all of s. */
  function Before(s: string, pat: string): (r: string)
    requires pat != []
    ensures |r| <= |s|
  {
    match IndexOf(s, pat)
    case None => s
    case Some(i) => s[..i]
  }

  /** `s.split(pat)[1]`, defined when pat occurs in s: the text between its first and second occurrence. */
  function SecondPiece(s: string, pat: string): string
    requires pat != [] && Contains(s, pat)
  {
    var i := IndexOf(s, pat).value;
    Before(s[i + |pat|..], pat)
  }
}
