/**
 * The JavaScript built-ins that the calculator's logic relies on, stated on
 * exact reals and on strings of characters: Math.round, the whitespace class
 * shared by String.prototype.trim and the regular-expression escape \s,
 * trim, split on a one-character separator, startsWith, endsWith and slice.
 */
module Js {

  /** Math.round: the nearest integer, a half going toward +infinity. */
  function Round(x: real): (n: int)
    ensures n as real - 0.5 <= x < n as real + 0.5
  {
    (x + 0.5).Floor
  }

  /** The bounds above pin the rounded value down: no other integer satisfies them. */
  lemma RoundUnique(x: real, n: int)
    requires n as real - 0.5 <= x < n as real + 0.5
    ensures Round(x) == n
  {
  }

  /** Rounding an integer gives it back, and a half rounds up. */
  lemma RoundOfInteger(k: int)
    ensures Round(k as real) == k
    ensures Round(k as real + 0.5) == k + 1
    ensures Round(k as real - 0.5) == k
  {
    RoundUnique(k as real, k);
    RoundUnique(k as real + 0.5, k + 1);
    RoundUnique(k as real - 0.5, k);
  }

  /** Rounding never reverses an order. */
  lemma RoundMonotone(x: real, y: real)
    requires x <= y
    ensures Round(x) <= Round(y)
  {
  }

  /** The ECMAScript LineTerminator characters. */
  predicate IsLineTerminator(c: char)
  {
    c == '\n' || c == '\r' || c == '\U{2028}' || c == '\U{2029}'
  }

  /** The ECMAScript WhiteSpace and LineTerminator characters: what trim removes and what \s matches. */
  predicate IsSpace(c: char)
  {
    || c == '\t' || c == '\U{000B}' || c == '\U{000C}' || c == ' '
    || c == '\U{00A0}' || c == '\U{FEFF}' || c == '\U{1680}'
    || ('\U{2000}' <= c <= '\U{200A}')
    || c == '\U{202F}' || c == '\U{205F}' || c == '\U{3000}'
    || IsLineTerminator(c)
  }

  predicate AllSpace(s: string)
  {
    forall i :: 0 <= i < |s| ==> IsSpace(s[i])
  }

  /** The index of the first non-whitespace character at or after `i`; |s| when there is none. */
  function SkipSpace(s: string, i: nat): (k: nat)
    requires i <= |s|
    ensures i <= k <= |s|
    ensures forall j :: i <= j < k ==> IsSpace(s[j])
    ensures k == |s| || !IsSpace(s[k])
    decreases |s| - i
  {
    if i < |s| && IsSpace(s[i]) then SkipSpace(s, i + 1) else i
  }

  /** The end of `s[..j]` once its trailing whitespace is dropped; 0 when it is all whitespace. */
  function SkipSpaceBack(s: string, j: nat): (k: nat)
    requires j <= |s|
    ensures k <= j
    ensures forall i :: k <= i < j ==> IsSpace(s[i])
    ensures k == 0 || !IsSpace(s[k - 1])
  {
    if j > 0 && IsSpace(s[j - 1]) then SkipSpaceBack(s, j - 1) else j
  }

  /** The three properties of SkipSpace determine its result. */
  lemma SkipSpaceUnique(s: string, i: nat, k: nat)
    requires i <= k <= |s|
    requires forall j :: i <= j < k ==> IsSpace(s[j])
    requires k == |s| || !IsSpace(s[k])
    ensures SkipSpace(s, i) == k
  {
  }

  /** The three properties of SkipSpaceBack determine its result. */
  lemma SkipSpaceBackUnique(s: string, j: nat, k: nat)
    requires k <= j <= |s|
    requires forall i :: k <= i < j ==> IsSpace(s[i])
    requires k == 0 || !IsSpace(s[k - 1])
    ensures SkipSpaceBack(s, j) == k
  {
  }

  /** Removes the longest all-whitespace prefix (what the pattern `^\s*` matches). */
  function TrimStart(s: string): string
  {
    s[SkipSpace(s, 0)..]
  }

  /** String.prototype.trim: the string without its leading and trailing whitespace. */
  function Trim(s: string): (r: string)
    ensures r == [] || (!IsSpace(r[0]) && !IsSpace(r[|r| - 1]))
  {
    var a, b := SkipSpace(s, 0), SkipSpaceBack(s, |s|);
    if a == |s| then "" else s[a..b]
  }

  /** Trim keeps the middle of the string: `s` is some whitespace, then the
      result, then some whitespace. */
  lemma TrimShape(s: string)
    ensures var r, lead := Trim(s), SkipSpace(s, 0);
      && lead + |r| <= |s| && r == s[lead..lead + |r|]
      && (forall j :: 0 <= j < lead ==> IsSpace(s[j]))
      && (forall j :: lead + |r| <= j < |s| ==> IsSpace(s[j]))
  {
  }

  /** A string that does not start with whitespace is left alone by TrimStart. */
  lemma TrimStartNoop(s: string)
    requires s == [] || !IsSpace(s[0])
    ensures TrimStart(s) == s
  {
  }

  /** Leading whitespace makes no difference to TrimStart. */
  lemma TrimStartSkipsSpace(lead: string, rest: string)
    requires AllSpace(lead)
    ensures TrimStart(lead + rest) == TrimStart(rest)
  {
    var s := lead + rest;
    var k := SkipSpace(rest, 0);
    SkipSpaceUnique(s, 0, |lead| + k);
    assert s[|lead| + k..] == rest[k..];
  }

  /** Trim is determined by its shape: surrounding a string that has no whitespace
      at either end with whitespace, and trimming, gives that string back. */
  lemma TrimAround(lead: string, core: string, trail: string)
    requires AllSpace(lead) && AllSpace(trail)
    requires core == [] || (!IsSpace(core[0]) && !IsSpace(core[|core| - 1]))
    ensures Trim(lead + core + trail) == core
  {
    var s := lead + core + trail;
    if core == [] {
      SkipSpaceUnique(s, 0, |s|);
    } else {
      SkipSpaceUnique(s, 0, |lead|);
      SkipSpaceBackUnique(s, |s|, |lead| + |core|);
      assert s[|lead|..|lead| + |core|] == core;
    }
  }

  /** Counts the occurrences of `c` in `s`. */
  function Count(s: string, c: char): nat
  {
    if s == [] then 0 else (if s[0] == c then 1 else 0) + Count(s[1..], c)
  }

  /** `s.split(sep)` for a one-character separator: the pieces between the separators, always at least one. */
  function Split(s: string, sep: char): (parts: seq<string>)
    ensures |parts| >= 1
  {
    if s == [] then [""]
    else
      var rest := Split(s[1..], sep);
      if s[0] == sep then [""] + rest
      else [[s[0]] + rest[0]] + rest[1..]
  }

  /** `parts.join(sep)` */
  function Join(parts: seq<string>, sep: char): string
    requires |parts| >= 1
  {
    if |parts| == 1 then parts[0] else parts[0] + [sep] + Join(parts[1..], sep)
  }

  /** No piece holds the separator. */
  lemma {:induction false} SplitPiecesFree(s: string, sep: char)
    ensures forall i :: 0 <= i < |Split(s, sep)| ==> sep !in Split(s, sep)[i]
    decreases |s|
  {
    if s != [] {
      SplitPiecesFree(s[1..], sep);
      var rest := Split(s[1..], sep);
      if s[0] != sep {
        assert sep !in rest[0];
        assert sep !in [s[0]] + rest[0];
      }
    }
  }

  /** Joining the pieces with the separator gives back the string, and there is one more piece than separators. */
  lemma {:induction false} SplitJoin(s: string, sep: char)
    ensures Join(Split(s, sep), sep) == s
    ensures |Split(s, sep)| == Count(s, sep) + 1
  {
    if s != [] {
      var rest := Split(s[1..], sep);
      SplitJoin(s[1..], sep);
      if s[0] == sep {
        assert Split(s, sep) == [""] + rest;
        assert ([""] + rest)[1..] == rest;
      } else {
        var parts := [[s[0]] + rest[0]] + rest[1..];
        assert Split(s, sep) == parts;
        if |rest| == 1 {
          assert Join(parts, sep) == [s[0]] + rest[0];
        } else {
          assert parts[1..] == rest[1..];
          assert Join(rest, sep) == rest[0] + [sep] + Join(rest[1..], sep);
        }
      }
    }
  }

  /** A string with no separator splits into itself. */
  lemma {:induction false} SplitNoSeparator(a: string, sep: char)
    requires sep !in a
    ensures Split(a, sep) == [a]
  {
    if a != [] {
      SplitNoSeparator(a[1..], sep);
      assert a[0] != sep;
      assert [a[0]] + a[1..] == a;
    }
  }

  /** Splitting at a separator that follows a separator-free prefix puts that prefix first. */
  lemma {:induction false} SplitAfterPiece(a: string, sep: char, b: string)
    requires sep !in a
    ensures Split(a + [sep] + b, sep) == [a] + Split(b, sep)
  {
    if a == [] {
      assert a + [sep] + b == [sep] + b;
      assert ([sep] + b)[1..] == b;
    } else {
      var s := a + [sep] + b;
      assert s[0] == a[0] && s[1..] == a[1..] + [sep] + b;
      SplitAfterPiece(a[1..], sep, b);
      assert [a[0]] + a[1..] == a;
    }
  }

  /** One step of Split: the first character either closes an empty piece or
      joins the first piece of the rest. */
  lemma SplitCons(c: char, t: string, sep: char)
    ensures Split([c] + t, sep) ==
      if c == sep then [""] + Split(t, sep) else [[c] + Split(t, sep)[0]] + Split(t, sep)[1..]
  {
    assert ([c] + t)[0] == c && ([c] + t)[1..] == t;
  }

  /** Prefixing a character to the first piece commutes with appending more pieces. */
  lemma ExtendFirstPiece(c: char, left: seq<string>, right: seq<string>)
    requires |left| >= 1
    ensures [[c] + (left + right)[0]] + (left + right)[1..] == ([[c] + left[0]] + left[1..]) + right
  {
    assert (left + right)[0] == left[0];
    assert (left + right)[1..] == left[1..] + right;
  }

  /** The step of SplitAppend for a left part that starts with a separator. */
  lemma SplitAppendSepStep(t: string, sep: char, b: string, tail: string)
    requires tail == t + [sep] + b
    requires Split(tail, sep) == Split(t, sep) + Split(b, sep)
    ensures Split([sep] + tail, sep) == Split([sep] + t, sep) + Split(b, sep)
  {
    SplitCons(sep, tail, sep);
    SplitCons(sep, t, sep);
    var left, right := Split(t, sep), Split(b, sep);
    assert [""] + (left + right) == ([""] + left) + right;
  }

  /** The step of SplitAppend for a left part that starts with an ordinary character. */
  lemma SplitAppendCharStep(c: char, t: string, sep: char, b: string, tail: string)
    requires c != sep && tail == t + [sep] + b
    requires Split(tail, sep) == Split(t, sep) + Split(b, sep)
    ensures Split([c] + tail, sep) == Split([c] + t, sep) + Split(b, sep)
  {
    SplitCons(c, tail, sep);
    SplitCons(c, t, sep);
    ExtendFirstPiece(c, Split(t, sep), Split(b, sep));
  }

  /** Splitting around a separator splits each side on its own: the pieces of the
      left part come first, in order, then those of the right part. */
  lemma {:induction false} SplitAppend(a: string, sep: char, b: string)
    ensures Split(a + [sep] + b, sep) == Split(a, sep) + Split(b, sep)
    decreases |a|
  {
    if a == [] {
      assert a + [sep] + b == [sep] + b;
      SplitCons(sep, b, sep);
    } else {
      var c, t := a[0], a[1..];
      var tail := t + [sep] + b;
      SplitAppend(t, sep, b);
      if c == sep {
        SplitAppendSepStep(t, sep, b, tail);
      } else {
        SplitAppendCharStep(c, t, sep, b, tail);
      }
      assert [c] + t == a;
      assert [c] + tail == a + [sep] + b;
    }
  }

  /** The other round trip: separator-free pieces joined and split again come back unchanged. */
  lemma {:induction false} JoinSplit(parts: seq<string>, sep: char)
    requires |parts| >= 1
    requires forall i :: 0 <= i < |parts| ==> sep !in parts[i]
    ensures Split(Join(parts, sep), sep) == parts
  {
    if |parts| == 1 {
      SplitNoSeparator(parts[0], sep);
    } else {
      JoinSplit(parts[1..], sep);
      SplitAfterPiece(parts[0], sep, Join(parts[1..], sep));
      assert [parts[0]] + parts[1..] == parts;
    }
  }

  predicate StartsWith(s: string, prefix: string)
  {
    |prefix| <= |s| && s[..|prefix|] == prefix
  }

  predicate EndsWith(s: string, suffix: string)
  {
    |suffix| <= |s| && s[|s| - |suffix|..] == suffix
  }

  /** Resolves a String.prototype.slice index: a negative one counts from the end, and the result is clamped to the string. */
  function SliceIndex(len: nat, k: int): (r: nat)
    ensures r <= len
  {
    if k < 0 then (if len as int + k < 0 then 0 else len as int + k)
    else if k > len as int then len else k
  }

  /** String.prototype.slice(start, end); empty when the resolved end is not after the resolved start. */
  function Slice(s: string, start: int, end: int): string
  {
    var from, to := SliceIndex(|s|, start), SliceIndex(|s|, end);
    if from < to then s[from..to] else ""
  }

  /** `slice(2, -2)` drops two characters at each end, and yields "" on strings shorter than four characters. */
  lemma SliceInner(s: string)
    ensures |s| >= 4 ==> Slice(s, 2, -2) == s[2..|s| - 2]
    ensures |s| < 4 ==> Slice(s, 2, -2) == ""
  {
  }
}
