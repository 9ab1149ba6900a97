/** The Python string operations the pipeline relies on, over `seq<char>`:
    `str.strip`, `str.startswith`, the `in` operator on strings, `str.split`,
    `str.join`, `str.lower` and `str(int)`. */
module Text {
  import opened Wrappers

  // ---------------------------------------------------------------------------
  // Whitespace and str.strip()
  // ---------------------------------------------------------------------------

  /** Python's `str.isspace` for a single character. */
  predicate IsSpace(c: char) {
    || c == ' '
    || '\t' <= c <= '\r'
    || '\U{1C}' <= c <= '\U{1F}'
    || c == '\U{85}' || c == '\U{A0}' || c == '\U{1680}'
    || '\U{2000}' <= c <= '\U{200A}'
    || c == '\U{2028}' || c == '\U{2029}' || c == '\U{202F}' || c == '\U{205F}'
    || c == '\U{3000}'
  }

  /** Python's `str.lstrip()`: the suffix left after dropping leading whitespace. */
  function StripStart(s: string): (r: string)
    ensures |r| <= |s| && r == s[|s| - |r|..]
    ensures forall k :: 0 <= k < |s| - |r| ==> IsSpace(s[k])
    ensures r == [] || !IsSpace(r[0])
  {
    if s != [] && IsSpace(s[0]) then StripStart(s[1..]) else s
  }

  /** Python's `str.rstrip()`: the prefix left after dropping trailing whitespace. */
  function StripEnd(s: string): (r: string)
    ensures |r| <= |s| && r == s[..|r|]
    ensures forall k :: |r| <= k < |s| ==> IsSpace(s[k])
    ensures r == [] || !IsSpace(r[|r| - 1])
  {
    if s != [] && IsSpace(s[|s| - 1]) then StripEnd(s[..|s| - 1]) else s
  }

  /** Python's `str.strip()`: both ends trimmed. */
  function Strip(s: string): (r: string)
    ensures r == [] || (!IsSpace(r[0]) && !IsSpace(r[|r| - 1]))
  {
    StripEnd(StripStart(s))
  }

  /** `r` sits at index `i` of `s`, and everything around it is whitespace. */
  predicate StrippedAt(s: string, r: string, i: int) {
    && 0 <= i <= |s| - |r|
    && r == s[i..i + |r|]
    && (forall k :: 0 <= k < i ==> IsSpace(s[k]))
    && (forall k :: i + |r| <= k < |s| ==> IsSpace(s[k]))
  }

  /** The strip of `s` is the infix of `s` between its leading and its
      trailing whitespace; it starts where the leading whitespace ends. */
  lemma StripIsInfix(s: string)
    ensures StrippedAt(s, Strip(s), |s| - |StripStart(s)|)
  {
    var t := StripStart(s);
    InfixOfSuffix(s, t, StripEnd(t));
  }

  /** A prefix `r` of a suffix `t` of `s`, with only whitespace around it,
      sits in `s` where `t` starts. */
  lemma InfixOfSuffix(s: string, t: string, r: string)
    requires |t| <= |s| && t == s[|s| - |t|..] && |r| <= |t| && r == t[..|r|]
    requires forall k :: 0 <= k < |s| - |t| ==> IsSpace(s[k])
    requires forall k :: |r| <= k < |t| ==> IsSpace(t[k])
    ensures StrippedAt(s, r, |s| - |t|)
  {
    var i := |s| - |t|;
    assert r == s[i..i + |r|];
    forall k | i + |r| <= k < |s|
      ensures IsSpace(s[k])
    {
      assert s[k] == t[k - i];
    }
  }

  lemma StripIdempotent(s: string)
    ensures Strip(Strip(s)) == Strip(s)
  {
    var r := Strip(s);
    assert StripStart(r) == r;
  }

  // ---------------------------------------------------------------------------
  // startswith, find and the `in` operator
  // ---------------------------------------------------------------------------

  /** Python's `s.startswith(prefix)`. */
  predicate StartsWith(s: string, prefix: string) {
    |prefix| <= |s| && s[..|prefix|] == prefix
  }

  /** `sub` occurs in `s` starting at index `i`. */
  predicate IsAt(s: string, sub: string, i: int) {
    0 <= i && i + |sub| <= |s| && s[i..i + |sub|] == sub
  }

  /** Python's `s.find(sub, start)`: the first index at or after `start`
      where `sub` occurs. */
  function FindFrom(s: string, sub: string, start: nat): (r: Option<nat>)
    ensures r.Some? ==> start <= r.value && IsAt(s, sub, r.value)
    ensures r.Some? ==> forall k :: start <= k < r.value ==> !IsAt(s, sub, k)
    ensures r.None? ==> forall k :: start <= k ==> !IsAt(s, sub, k)
    decreases |s| - start
  {
    if |s| < start + |sub| then None
    else if s[start..start + |sub|] == sub then Some(start)
    else FindFrom(s, sub, start + 1)
  }

  /** Python's `sub in s` for strings. */
  predicate Contains(s: string, sub: string) {
    FindFrom(s, sub, 0).Some?
  }

  lemma ContainsAt(s: string, sub: string, i: int)
    requires IsAt(s, sub, i)
    ensures Contains(s, sub)
  {
  }

  /** Concatenation regroups freely. */
  lemma AppendAssociative<T>(a: seq<T>, b: seq<T>, c: seq<T>)
    ensures (a + b) + c == a + (b + c)
  {
  }

  /** A prefix one longer is the shorter prefix and one more element. */
  lemma PrefixSnoc<T>(s: seq<T>, i: nat)
    requires i < |s|
    ensures s[..i + 1] == s[..i] + [s[i]]
  {
  }

  /** A one-character separator sits at `i` exactly when the character does. */
  lemma IsAtChar(s: string, c: char, i: int)
    ensures IsAt(s, [c], i) <==> 0 <= i < |s| && s[i] == c
  {
    if IsAt(s, [c], i) {
      assert s[i] == s[i..i + 1][0];
    }
  }

  /** A one-character separator occurs in `s` exactly when the character does. */
  lemma ContainsChar(s: string, c: char)
    ensures Contains(s, [c]) <==> c in s
  {
    if Contains(s, [c]) {
      var i := FindFrom(s, [c], 0).value;
      IsAtChar(s, c, i);
    }
    if c in s {
      var k :| 0 <= k < |s| && s[k] == c;
      ContainsAt(s, [c], k);
    }
  }

  /** In `a + [c] + b` with `c` not in `a`, the `c` after `a` is the first one. */
  lemma FirstOccurrence(a: string, b: string, c: char)
    requires c !in a
    ensures var s := a + [c] + b;
      s[|a|] == c && forall k :: 0 <= k < |a| ==> s[k] != c
  {
    var s := a + [c] + b;
    assert forall k :: 0 <= k < |a| ==> s[k] == a[k];
  }

  /** In `a + [c] + b` with `c` not in `b`, the `c` before `b` is the last one. */
  lemma LastOccurrence(a: string, b: string, c: char)
    requires c !in b
    ensures var s := a + [c] + b;
      s[|a|] == c && forall k :: |a| < k < |s| ==> s[k] != c
  {
    var s := a + [c] + b;
    assert forall k :: |a| < k < |s| ==> s[k] == b[k - |a| - 1];
  }

  /** Two ways of writing a text around a character `c` agree when the parts
      before `c` are free of it: they both end at the first `c`. */
  lemma FirstSeparator(a: string, b: string, a': string, b': string, c: char)
    requires c !in a && c !in a'
    requires a + [c] + b == a' + [c] + b'
    ensures a == a' && b == b'
  {
    var s := a + [c] + b;
    FirstOccurrence(a, b, c);
    FirstOccurrence(a', b', c);
    assert a == s[..|a|] == a';
    assert b == s[|a| + 1..] == b';
  }

  /** The mirror image: the parts after `c` are free of it, so both start
      after the last `c`. */
  lemma LastSeparator(a: string, b: string, a': string, b': string, c: char)
    requires c !in b && c !in b'
    requires a + [c] + b == a' + [c] + b'
    ensures a == a' && b == b'
  {
    var s := a + [c] + b;
    LastOccurrence(a, b, c);
    LastOccurrence(a', b', c);
    assert a == s[..|a|] == a';
    assert b == s[|a| + 1..] == b';
  }

  // ---------------------------------------------------------------------------
  // str.split(sep) and sep.join(pieces)
  // ---------------------------------------------------------------------------

  /** Python's `s.split(sep)` for a non-empty separator: the pieces between
      the non-overlapping occurrences of `sep`, found left to right. */
  function Split(s: string, sep: string): (r: seq<string>)
    requires sep != []
    ensures |r| >= 1
    decreases |s|
  {
    match FindFrom(s, sep, 0)
    case None => [s]
    case Some(i) => [s[..i]] + Split(s[i + |sep|..], sep)
  }

  /** Python's `sep.join(pieces)`. */
  function Join(pieces: seq<string>, sep: string): string {
    if |pieces| == 0 then ""
    else if |pieces| == 1 then pieces[0]
    else pieces[0] + sep + Join(pieces[1..], sep)
  }

  /** Python's `pieces[-1]`. */
  function Last(pieces: seq<string>): string
    requires pieces != []
  {
    pieces[|pieces| - 1]
  }

  lemma LastAppend(a: seq<string>, b: seq<string>)
    requires b != []
    ensures Last(a + b) == Last(b)
  {
  }

  /** Joining the pieces of a split with the same separator gives the text back. */
  lemma {:induction false} JoinSplit(s: string, sep: string)
    requires sep != []
    ensures Join(Split(s, sep), sep) == s
    decreases |s|
  {
    match FindFrom(s, sep, 0)
    case None =>
    case Some(i) =>
      var rest := s[i + |sep|..];
      var pieces := [s[..i]] + Split(rest, sep);
      JoinSplit(rest, sep);
      assert Split(s, sep) == pieces;
      assert pieces[1..] == Split(rest, sep);
      calc {
        Join(pieces, sep);
        pieces[0] + sep + Join(pieces[1..], sep);
        s[..i] + sep + rest;
        s;
      }
  }

  /** A prefix of `s` that ends before index `i` holds no occurrence that `s`
      does not hold before `i`. */
  lemma NoOccurrenceInPrefix(s: string, sep: string, i: nat)
    requires sep != [] && i <= |s|
    requires forall k :: 0 <= k < i ==> !IsAt(s, sep, k)
    ensures !Contains(s[..i], sep)
  {
    if Contains(s[..i], sep) {
      var k := FindFrom(s[..i], sep, 0).value;
      assert s[..i][k..k + |sep|] == s[k..k + |sep|];
      assert IsAt(s, sep, k);
      assert false;
    }
  }

  /** No piece of a split contains the separator. */
  lemma {:induction false} SplitPiecesFree(s: string, sep: string)
    requires sep != []
    ensures forall k :: 0 <= k < |Split(s, sep)| ==> !Contains(Split(s, sep)[k], sep)
    decreases |s|
  {
    match FindFrom(s, sep, 0)
    case None =>
    case Some(i) =>
      var rest := s[i + |sep|..];
      SplitPiecesFree(rest, sep);
      NoOccurrenceInPrefix(s, sep, i);
  }

  /** Where the last piece of `s.split(sep)` starts: just after the last
      occurrence of `sep`, or 0 when there is none. */
  function LastStart(s: string, sep: string): (j: nat)
    requires sep != []
    ensures j <= |s|
    decreases |s|
  {
    match FindFrom(s, sep, 0)
    case None => 0
    case Some(i) => i + |sep| + LastStart(s[i + |sep|..], sep)
  }

  /** The last piece of `s.split(sep)` is the suffix from `LastStart`. */
  lemma {:induction false} SplitLastIsSuffix(s: string, sep: string)
    requires sep != []
    ensures Last(Split(s, sep)) == s[LastStart(s, sep)..]
    decreases |s|
  {
    match FindFrom(s, sep, 0)
    case None =>
    case Some(i) =>
      var rest := s[i + |sep|..];
      SplitLastIsSuffix(rest, sep);
      SplitStep(s, sep);
      SuffixOfSuffix(s, i + |sep|, LastStart(rest, sep), LastStart(s, sep));
  }

  /** A suffix of a suffix is a suffix. */
  lemma SuffixOfSuffix<T>(s: seq<T>, a: nat, b: nat, c: nat)
    requires a <= |s| && b <= |s| - a && c == a + b
    ensures s[a..][b..] == s[c..]
  {
  }

  /** `j` is 0, or `sep` ends exactly at `j` in `s`. */
  predicate PrecededBy(s: string, sep: string, j: int) {
    j == 0 || (|sep| <= j && IsAt(s, sep, j - |sep|))
  }

  /** The last piece starts at 0 exactly when `sep` does not occur. */
  lemma LastStartZero(s: string, sep: string)
    requires sep != []
    ensures LastStart(s, sep) == 0 <==> !Contains(s, sep)
  {
  }

  /** The last piece starts at 0 or right after an occurrence of `sep`. */
  lemma {:induction false} LastStartFollowsSep(s: string, sep: string)
    requires sep != []
    ensures PrecededBy(s, sep, LastStart(s, sep))
    decreases |s|
  {
    match FindFrom(s, sep, 0)
    case None =>
    case Some(i) =>
      var rest := s[i + |sep|..];
      LastStartFollowsSep(rest, sep);
      PrecededStep(s, sep, i, LastStart(rest, sep), LastStart(s, sep));
  }

  /** An occurrence at `i` followed by a rest whose own `k` is 0 or preceded
      by `sep` makes `i + |sep| + k` preceded by `sep` in the whole text. */
  lemma PrecededStep(s: string, sep: string, i: nat, k: int, j: int)
    requires sep != [] && IsAt(s, sep, i)
    requires PrecededBy(s[i + |sep|..], sep, k)
    requires j == i + |sep| + k
    ensures j != 0 && PrecededBy(s, sep, j)
  {
    if k != 0 {
      IsAtShift(s, sep, i + |sep|, k - |sep|, j - |sep|);
    }
  }

  /** Splitting at the first occurrence: the piece before it, then the
      pieces of the rest. */
  lemma SplitStep(s: string, sep: string)
    requires sep != [] && Contains(s, sep)
    ensures var i := FindFrom(s, sep, 0).value;
      && Split(s, sep) == [s[..i]] + Split(s[i + |sep|..], sep)
      && Last(Split(s, sep)) == Last(Split(s[i + |sep|..], sep))
  {
    var i := FindFrom(s, sep, 0).value;
    LastAppend([s[..i]], Split(s[i + |sep|..], sep));
  }

  /** Splitting at a one-character separator cuts at its first occurrence. */
  lemma SplitAtFirstChar(a: string, b: string, c: char)
    requires c !in a
    ensures Split(a + [c] + b, [c]) == [a] + Split(b, [c])
  {
    var s := a + [c] + b;
    FirstOccurrence(a, b, c);
    IsAtChar(s, c, |a|);
    var v := FindFrom(s, [c], 0).value;
    IsAtChar(s, c, v);
    assert v == |a|;
    assert s[..v] == a && s[v + 1..] == b;
  }

  /** A text without the separator character is a single piece. */
  lemma SplitWithoutChar(s: string, c: char)
    requires c !in s
    ensures Split(s, [c]) == [s]
  {
    ContainsChar(s, c);
  }

  /** An occurrence at `j` in the suffix from `offset` is an occurrence at
      `offset + j` in the whole text. */
  lemma IsAtShift(s: string, sub: string, offset: nat, j: int, at: int)
    requires offset <= |s| && IsAt(s[offset..], sub, j)
    requires at == offset + j
    ensures IsAt(s, sub, at)
  {
    assert s[offset..][j..j + |sub|] == s[at..at + |sub|];
  }

  /** The last piece of `s.split(sep)` is the tail of `s` after its last
      occurrence of `sep`: a suffix of `s` with no occurrence of `sep` inside,
      preceded by `sep` whenever `sep` occurs in `s`, and all of `s` otherwise. */
  lemma SplitLastIsTail(s: string, sep: string)
    requires sep != []
    ensures var p := Last(Split(s, sep));
      && |p| <= |s| && p == s[|s| - |p|..]
      && !Contains(p, sep)
      && (Contains(s, sep) ==> IsAt(s, sep, |s| - |p| - |sep|))
      && (!Contains(s, sep) ==> p == s)
  {
    SplitPiecesFree(s, sep);
    SplitLastIsSuffix(s, sep);
    LastStartZero(s, sep);
    LastStartFollowsSep(s, sep);
  }

  /** Python's `s.endswith(suffix)`. */
  predicate EndsWith(s: string, suffix: string) {
    |suffix| <= |s| && s[|s| - |suffix|..] == suffix
  }

  lemma {:induction false} JoinSnoc(pieces: seq<string>, sep: string)
    requires |pieces| >= 2
    ensures Join(pieces, sep) == Join(pieces[..|pieces| - 1], sep) + sep + Last(pieces)
    decreases |pieces|
  {
    if |pieces| > 2 {
      JoinSnoc(pieces[1..], sep);
      assert pieces[1..][..|pieces| - 2] == pieces[..|pieces| - 1][1..];
    }
  }

  /** A join of at least three pieces splits into its first piece, the join of
      the middle pieces and its last piece. */
  lemma JoinMiddle(pieces: seq<string>, sep: string)
    requires |pieces| >= 3
    ensures Join(pieces, sep)
         == pieces[0] + sep + Join(pieces[1..|pieces| - 1], sep) + sep + Last(pieces)
  {
    var middle := Join(pieces[1..|pieces| - 1], sep);
    JoinSnoc(pieces[1..], sep);
    assert pieces[1..][..|pieces| - 2] == pieces[1..|pieces| - 1];
    Regroup(pieces[0] + sep, middle, sep, Last(pieces));
  }

  lemma Regroup(a: string, b: string, c: string, d: string)
    ensures a + b + c + d == a + (b + c + d)
  {
  }

  /** `"".join` distributes over concatenation of piece lists. */
  lemma {:induction false} ConcatAppend(a: seq<string>, b: seq<string>)
    ensures Join(a + b, "") == Join(a, "") + Join(b, "")
    decreases |a|
  {
    if |a| == 0 {
      assert a + b == b;
    } else if |a| == 1 {
      if |b| > 0 {
        assert (a + b)[1..] == b;
      }
    } else {
      ConcatAppend(a[1..], b);
      assert (a + b)[1..] == a[1..] + b;
    }
  }

  // ---------------------------------------------------------------------------
  // str.lower()
  // ---------------------------------------------------------------------------

  function LowerChar(c: char): char {
    if 'A' <= c <= 'Z' then (c as int - 'A' as int + 'a' as int) as char else c
  }

  /** Python's `str.lower()` on the ASCII letters. */
  function Lower(s: string): (r: string)
    ensures |r| == |s|
    ensures forall k :: 0 <= k < |s| ==> r[k] == LowerChar(s[k])
  {
    if s == [] then [] else [LowerChar(s[0])] + Lower(s[1..])
  }

  /** Every character of `s` is already lower case. */
  predicate IsLower(s: string) {
    forall k :: 0 <= k < |s| ==> LowerChar(s[k]) == s[k]
  }

  lemma LowerIsLower(s: string)
    ensures IsLower(Lower(s))
  {
  }

  /** A slice of a lower-case text is lower case. */
  lemma SliceOfLower(s: string, i: int, j: int)
    requires IsLower(s) && 0 <= i <= j <= |s|
    ensures IsLower(s[i..j])
  {
    assert forall k :: 0 <= k < j - i ==> s[i..j][k] == s[i + k];
  }

  lemma LowerIdempotent(s: string)
    ensures Lower(Lower(s)) == Lower(s)
  {
    assert forall k :: 0 <= k < |s| ==> Lower(Lower(s))[k] == Lower(s)[k];
  }

  /** Lower-casing keeps every occurrence: `sub in s` implies
      `sub.lower() in s.lower()`. */
  lemma LowerKeepsOccurrence(s: string, sub: string)
    requires Contains(s, sub)
    ensures Contains(Lower(s), Lower(sub))
  {
    var i := FindFrom(s, sub, 0).value;
    var ls, lsub := Lower(s), Lower(sub);
    assert forall k :: 0 <= k < |sub| ==> ls[i..i + |sub|][k] == lsub[k];
    assert IsAt(ls, lsub, i);
  }

  // ---------------------------------------------------------------------------
  // str(int)
  // ---------------------------------------------------------------------------

  predicate IsDigit(c: char) {
    '0' <= c <= '9'
  }

  function DigitChar(d: nat): (c: char)
    requires d < 10
    ensures IsDigit(c) && c as int - '0' as int == d
  {
    ('0' as int + d) as char
  }

  /** Python's `str(n)` for a non-negative integer: its decimal digits. */
  function NatToString(n: nat): (r: string)
    ensures r != [] && forall k :: 0 <= k < |r| ==> IsDigit(r[k])
    decreases n
  {
    if n < 10 then [DigitChar(n)] else NatToString(n / 10) + [DigitChar(n % 10)]
  }

  /** Python's `str(i)` for an integer. */
  function IntToString(i: int): (r: string)
    ensures r != []
  {
    if i < 0 then "-" + NatToString(-i) else NatToString(i)
  }

  /** The value of a string of decimal digits. */
  function DigitsValue(s: string): nat
    requires forall k :: 0 <= k < |s| ==> IsDigit(s[k])
  {
    if s == [] then 0
    else
      assert IsDigit(s[|s| - 1]);
      DigitsValue(s[..|s| - 1]) * 10 + (s[|s| - 1] as int - '0' as int)
  }

  /** Reads back an optionally signed decimal integer. */
  function ReadInt(s: string): Option<int> {
    if s != [] && s[0] == '-' && |s| > 1 && forall k :: 1 <= k < |s| ==> IsDigit(s[k]) then
      var magnitude: int := DigitsValue(s[1..]);
      Some(-magnitude)
    else if s != [] && forall k :: 0 <= k < |s| ==> IsDigit(s[k]) then
      Some(DigitsValue(s))
    else None
  }

  lemma {:induction false} DigitsOfNat(n: nat)
    ensures DigitsValue(NatToString(n)) == n
    decreases n
  {
    if n >= 10 {
      DigitsOfNat(n / 10);
      var r := NatToString(n);
      assert r[..|r| - 1] == NatToString(n / 10);
    }
  }

  /** `str(i)` is read back as `i`: rendering an integer loses nothing. */
  lemma IntToStringRoundTrip(i: int)
    ensures ReadInt(IntToString(i)) == Some(i)
  {
    var s := IntToString(i);
    if i < 0 {
      var digits := NatToString(-i);
      DigitsOfNat(-i);
      assert s[1..] == digits;
      assert forall k :: 1 <= k < |s| ==> s[k] == digits[k - 1];
      var magnitude: int := DigitsValue(digits);
      assert ReadInt(s) == Some(-magnitude);
    } else {
      DigitsOfNat(i);
      assert IsDigit(s[0]);
      assert ReadInt(s) == Some(DigitsValue(s));
    }
  }
}
