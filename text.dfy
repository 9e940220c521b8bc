/** Python's string primitives that the core relies on: `str.strip`,
    `str.startswith`, `str.find`, `str.split`, `str.join` and slicing with a
    possibly negative bound. */
module Text {

  /** `c.isspace()`: the characters Python's argument-less `strip` removes. */
  predicate IsSpace(c: char)
  {
    c == ' ' || '\t' <= c <= '\r' || '\U{1C}' <= c <= '\U{1F}' ||
    c == '\U{85}' || c == '\U{A0}' || c == '\U{1680}' || '\U{2000}' <= c <= '\U{200A}' ||
    c == '\U{2028}' || c == '\U{2029}' || c == '\U{202F}' || c == '\U{205F}' || c == '\U{3000}'
  }

  /** `s.lstrip()`: the longest suffix of `s` that does not start with a space. */
  function StripLeft(s: string): string
  {
    if s != [] && IsSpace(s[0]) then StripLeft(s[1..]) else s
  }

  /** `lstrip` keeps a suffix that does not start with a space. */
  lemma {:induction false} StripLeftIsSuffix(s: string)
    ensures |StripLeft(s)| <= |s| && StripLeft(s) == s[|s| - |StripLeft(s)|..]
    ensures StripLeft(s) != [] ==> !IsSpace(StripLeft(s)[0])
  {
    if s != [] && IsSpace(s[0]) {
      StripLeftIsSuffix(s[1..]);
    }
  }

  /** `s.rstrip()`: the longest prefix of `s` that does not end with a space. */
  function StripRight(s: string): string
  {
    if s != [] && IsSpace(s[|s| - 1]) then StripRight(s[..|s| - 1]) else s
  }

  /** `rstrip` keeps a prefix that does not end with a space. */
  lemma {:induction false} StripRightIsPrefix(s: string)
    ensures |StripRight(s)| <= |s| && StripRight(s) == s[..|StripRight(s)|]
    ensures StripRight(s) != [] ==> !IsSpace(StripRight(s)[|StripRight(s)| - 1])
  {
    if s != [] && IsSpace(s[|s| - 1]) {
      StripRightIsPrefix(s[..|s| - 1]);
    }
  }

  /** `s.strip()` */
  function Strip(s: string): string
  {
    StripRight(StripLeft(s))
  }

  /** `lstrip` removes nothing but spaces. */
  lemma {:induction false} StripLeftRemovesSpaces(s: string)
    ensures forall i :: 0 <= i < |s| - |StripLeft(s)| ==> IsSpace(s[i])
  {
    if s != [] && IsSpace(s[0]) {
      StripLeftRemovesSpaces(s[1..]);
      StripLeftIsSuffix(s[1..]);
      forall i | 1 <= i < |s| - |StripLeft(s)| ensures IsSpace(s[i]) {
        assert s[i] == s[1..][i - 1];
      }
    }
  }

  /** `rstrip` removes nothing but spaces. */
  lemma {:induction false} StripRightRemovesSpaces(s: string)
    ensures forall i :: |StripRight(s)| <= i < |s| ==> IsSpace(s[i])
  {
    if s != [] && IsSpace(s[|s| - 1]) {
      StripRightRemovesSpaces(s[..|s| - 1]);
      StripRightIsPrefix(s[..|s| - 1]);
      forall i | |StripRight(s)| <= i < |s| - 1 ensures IsSpace(s[i]) {
        assert s[i] == s[..|s| - 1][i];
      }
    }
  }

  /** What `strip` promises: the result is the slice of `s` left after removing
      spaces at both ends, and neither of its ends is a space. */
  lemma StripIsTrimmedSlice(s: string)
    ensures exists i, j :: 0 <= i <= j <= |s| && Strip(s) == s[i..j] &&
                           (forall k :: 0 <= k < i ==> IsSpace(s[k])) &&
                           (forall k :: j <= k < |s| ==> IsSpace(s[k]))
    ensures Strip(s) != [] ==> !IsSpace(Strip(s)[0]) && !IsSpace(Strip(s)[|Strip(s)| - 1])
  {
    var l := StripLeft(s);
    var r := StripRight(l);
    var i := |s| - |l|;
    StripLeftIsSuffix(s);
    StripRightIsPrefix(l);
    var j := i + |r|;
    StripLeftRemovesSpaces(s);
    StripRightRemovesSpaces(l);
    assert s[i..j] == l[..|r|];
    assert Strip(s) == s[i..j];
    assert forall k :: 0 <= k < i ==> IsSpace(s[k]);
    assert forall k :: j <= k < |s| ==> IsSpace(s[k]) by {
      forall k | j <= k < |s| ensures IsSpace(s[k]) {
        assert s[k] == l[k - i];
      }
    }
  }

  /** A stripped string has nothing left to strip. */
  lemma StripIdempotent(s: string)
    ensures Strip(Strip(s)) == Strip(s)
  {
    var r := Strip(s);
    StripLeftIsSuffix(s);
    StripRightIsPrefix(StripLeft(s));
    if r != [] {
      assert !IsSpace(r[0]) by {
        assert r[0] == StripLeft(s)[0];
      }
    }
    assert StripLeft(r) == r;
    assert StripRight(r) == r;
  }

  /** `s.startswith(p)` */
  predicate StartsWith(s: string, p: string)
  {
    |p| <= |s| && s[..|p|] == p
  }

  /** `s.find(c)` for one character: the first index of `c`, or -1. */
  function FindChar(s: string, c: char): (r: int)
    ensures -1 <= r < |s|
  {
    if s == [] then -1
    else if s[0] == c then 0
    else
      var r := FindChar(s[1..], c);
      if r < 0 then -1 else r + 1
  }

  /** `find` gives -1 exactly when `c` does not occur, and otherwise the
      index of its first occurrence. */
  lemma {:induction false} FindCharIsFirst(s: string, c: char)
    ensures FindChar(s, c) == -1 <==> c !in s
    ensures FindChar(s, c) >= 0 ==> s[FindChar(s, c)] == c && c !in s[..FindChar(s, c)]
  {
    if s != [] && s[0] != c {
      FindCharIsFirst(s[1..], c);
      var r := FindChar(s[1..], c);
      if r >= 0 {
        assert s[..r + 1] == [s[0]] + s[1..][..r];
      }
    }
  }

  /** Whether `pat` occurs in `s` at index `k`. */
  predicate OccursAt(s: string, pat: string, k: nat)
  {
    k + |pat| <= |s| && s[k..k + |pat|] == pat
  }

  /** `s.find(pat)`: the first index at which `pat` occurs, or -1. */
  function Find(s: string, pat: string): (r: int)
    ensures -1 <= r <= |s|
    ensures r >= 0 ==> OccursAt(s, pat, r) && forall k :: 0 <= k < r ==> !OccursAt(s, pat, k)
    ensures r == -1 <==> forall k :: 0 <= k <= |s| ==> !OccursAt(s, pat, k)
  {
    if |s| < |pat| then -1
    else if s[..|pat|] == pat then
      OccursAtStart(s, pat);
      0
    else
      OccursAtStart(s, pat);
      OccursShift(s, pat);
      var r := Find(s[1..], pat);
      if r < 0 then -1 else r + 1
  }

  lemma OccursAtStart(s: string, pat: string)
    requires |pat| <= |s|
    ensures OccursAt(s, pat, 0) <==> s[..|pat|] == pat
  {
    assert s[0..|pat|] == s[..|pat|];
  }

  /** An occurrence after the first character is an occurrence in the rest. */
  lemma OccursShift(s: string, pat: string)
    requires s != []
    ensures forall k :: 1 <= k <= |s| ==> (OccursAt(s, pat, k) <==> OccursAt(s[1..], pat, k - 1))
  {
    forall k | 1 <= k <= |s| ensures OccursAt(s, pat, k) <==> OccursAt(s[1..], pat, k - 1) {
      if k + |pat| <= |s| {
        assert s[1..][k - 1..k - 1 + |pat|] == s[k..k + |pat|];
      }
    }
  }

  /** `s[:i]` in Python: a negative bound counts from the end, and bounds
      outside the string are clipped. */
  function SliceTo(s: string, i: int): (r: string)
    ensures 0 <= i ==> r == s[..if i <= |s| then i else |s|]
    ensures i < 0 ==> r == s[..if -i <= |s| then |s| + i else 0]
  {
    if i >= 0 then (if i <= |s| then s[..i] else s)
    else if -i <= |s| then s[..|s| + i] else []
  }

  /** `s.split(c)` with a one-character separator. */
  function Split(s: string, c: char): (parts: seq<string>)
    ensures |parts| >= 1
    ensures c in s ==> |parts| >= 2
    ensures forall k :: 0 <= k < |parts| ==> c !in parts[k]
    decreases |s|
  {
    FindCharIsFirst(s, c);
    var p := FindChar(s, c);
    if p < 0 then [s] else [s[..p]] + Split(s[p + 1..], c)
  }

  lemma {:induction false} FindCharAfter(a: string, c: char, b: string)
    requires c !in a
    ensures FindChar(a + [c] + b, c) == |a|
  {
    var s := a + [c] + b;
    if a != [] {
      assert s[0] == a[0] != c;
      assert s[1..] == a[1..] + [c] + b;
      FindCharAfter(a[1..], c, b);
    }
  }

  /** The first piece of a split is the text before the first separator. */
  lemma SplitCons(a: string, c: char, b: string)
    requires c !in a
    ensures Split(a + [c] + b, c) == [a] + Split(b, c)
  {
    FindCharAfter(a, c, b);
    assert (a + [c] + b)[..|a|] == a;
    assert (a + [c] + b)[|a| + 1..] == b;
  }

  lemma SplitOnceAt(a: string, c: char, b: string)
    requires c !in a
    ensures SplitOnce(a + [c] + b, c) == Halves(a, b)
  {
    FindCharAfter(a, c, b);
    assert (a + [c] + b)[..|a|] == a;
    assert (a + [c] + b)[|a| + 1..] == b;
  }

  /** `sep.join(parts)` */
  function Join(parts: seq<string>, sep: string): string
  {
    if parts == [] then ""
    else if |parts| == 1 then parts[0]
    else parts[0] + sep + Join(parts[1..], sep)
  }

  /** Joining the pieces of a split with the separator gives back the string:
      `split` loses nothing but the separators. */
  lemma {:induction false} JoinSplit(s: string, c: char)
    ensures Join(Split(s, c), [c]) == s
    decreases |s|
  {
    if c in s {
      var p := SplitAtFirst(s, c);
      var rest := s[p + 1..];
      JoinSplit(rest, c);
      JoinCons(s[..p], Split(rest, c), [c]);
    } else {
      FindCharIsFirst(s, c);
      assert Split(s, c) == [s];
    }
  }

  /** A string holding `c` splits into the text before its first `c` and
      the pieces of the text after it. */
  lemma SplitAtFirst(s: string, c: char) returns (p: nat)
    requires c in s
    ensures p == FindChar(s, c)
    ensures p < |s| && s[p] == c && c !in s[..p] && s == s[..p] + [c] + s[p + 1..]
    ensures Split(s, c) == [s[..p]] + Split(s[p + 1..], c)
  {
    FindCharIsFirst(s, c);
    p := FindChar(s, c);
    assert s == s[..p] + [c] + s[p + 1..];
  }

  lemma JoinCons(a: string, rest: seq<string>, sep: string)
    requires rest != []
    ensures Join([a] + rest, sep) == a + sep + Join(rest, sep)
  {
    assert ([a] + rest)[1..] == rest;
  }

  /** Joining one more piece at the end appends the separator and the piece. */
  lemma {:induction false} JoinSnoc(parts: seq<string>, x: string, sep: string)
    requires parts != []
    ensures Join(parts + [x], sep) == Join(parts, sep) + sep + x
    decreases |parts|
  {
    if |parts| == 1 {
      assert (parts + [x])[1..] == [x];
    } else {
      assert (parts + [x])[1..] == parts[1..] + [x];
      JoinSnoc(parts[1..], x, sep);
    }
  }

  /** Splitting undoes joining, when no piece holds the separator. */
  lemma {:induction false} SplitJoin(parts: seq<string>, c: char)
    requires |parts| >= 1
    requires forall k :: 0 <= k < |parts| ==> c !in parts[k]
    ensures Split(Join(parts, [c]), c) == parts
  {
    if |parts| == 1 {
      assert Join(parts, [c]) == parts[0];
      FindCharIsFirst(parts[0], c);
    } else {
      SplitJoin(parts[1..], c);
      assert Join(parts, [c]) == parts[0] + [c] + Join(parts[1..], [c]);
      SplitCons(parts[0], c, Join(parts[1..], [c]));
      assert parts == [parts[0]] + parts[1..];
    }
  }

  /** The number of occurrences of `c` in `s`. */
  function Count(s: string, c: char): nat
  {
    if s == [] then 0 else (if s[0] == c then 1 else 0) + Count(s[1..], c)
  }

  lemma {:induction false} CountAppend(a: string, b: string, c: char)
    ensures Count(a + b, c) == Count(a, c) + Count(b, c)
  {
    if a != [] {
      assert (a + b)[1..] == a[1..] + b;
      CountAppend(a[1..], b, c);
    } else {
      assert a + b == b;
    }
  }

  lemma {:induction false} CountAbsent(s: string, c: char)
    requires c !in s
    ensures Count(s, c) == 0
  {
    if s != [] {
      assert c !in s[1..];
      CountAbsent(s[1..], c);
    }
  }

  /** `s.split(c)` has one more piece than `s` has separators. */
  lemma {:induction false} SplitLength(s: string, c: char)
    ensures |Split(s, c)| == Count(s, c) + 1
    decreases |s|
  {
    FindCharIsFirst(s, c);
    var p := FindChar(s, c);
    if p < 0 {
      CountAbsent(s, c);
    } else {
      SplitLength(s[p + 1..], c);
      assert s == s[..p] + ([c] + s[p + 1..]);
      CountAppend(s[..p], [c] + s[p + 1..], c);
      CountAbsent(s[..p], c);
      assert ([c] + s[p + 1..])[1..] == s[p + 1..];
    }
  }

  /** `s.split(c, 1)` unpacked into two names: the text before and after the
      first separator; `NoSeparator` where Python raises ValueError because there is
      no separator. */
  function SplitOnce(s: string, c: char): SplitPair
  {
    var p := FindChar(s, c);
    if p < 0 then NoSeparator else Halves(s[..p], s[p + 1..])
  }

  /** There is no separator to split at exactly when `c` does not occur;
      otherwise the halves are the text before and after the first `c`. */
  lemma SplitOnceHalves(s: string, c: char)
    ensures SplitOnce(s, c).NoSeparator? <==> c !in s
    ensures SplitOnce(s, c).Halves? ==>
      s == SplitOnce(s, c).before + [c] + SplitOnce(s, c).after && c !in SplitOnce(s, c).before
  {
    FindCharIsFirst(s, c);
    var p := FindChar(s, c);
    if p >= 0 {
      assert s == s[..p] + [c] + s[p + 1..];
    }
  }

  datatype SplitPair = NoSeparator | Halves(before: string, after: string)
}
