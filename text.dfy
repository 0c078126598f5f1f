/** Python string operations the core relies on, over `seq<char>`.
    Each function states the Python behaviour it stands for. */
module Text {

  /** Python's `str.isspace` for one character (the characters `str.strip()`
      and `str.split()` treat as whitespace). */
  predicate IsSpace(c: char) {
    c == ' ' || c == '\t' || c == '\n' || c == '\r' || c == '\U{000B}' || c == '\U{000C}'
    || ('\U{001C}' <= c <= '\U{001F}') || c == '\U{0085}' || c == '\U{00A0}' || c == '\U{1680}'
    || ('\U{2000}' <= c <= '\U{200A}') || c == '\U{2028}' || c == '\U{2029}'
    || c == '\U{202F}' || c == '\U{205F}' || c == '\U{3000}'
  }

  /** ASCII letters and digits (`str.isalnum` restricted to ASCII). */
  predicate IsAlnum(c: char) {
    ('a' <= c <= 'z') || ('A' <= c <= 'Z') || ('0' <= c <= '9')
  }

  function UpperChar(c: char): char {
    if 'a' <= c <= 'z' then (c as int - 32) as char else c
  }

  function LowerChar(c: char): char {
    if 'A' <= c <= 'Z' then (c as int + 32) as char else c
  }

  /** `str.upper()` on ASCII letters; every other character is kept. */
  function Upper(s: string): (r: string)
    ensures |r| == |s|
    ensures forall i :: 0 <= i < |s| ==> r[i] == UpperChar(s[i])
  {
    if s == [] then [] else [UpperChar(s[0])] + Upper(s[1..])
  }

  /** `str.lower()` on ASCII letters; every other character is kept. */
  function Lower(s: string): (r: string)
    ensures |r| == |s|
    ensures forall i :: 0 <= i < |s| ==> r[i] == LowerChar(s[i])
  {
    if s == [] then [] else [LowerChar(s[0])] + Lower(s[1..])
  }

  /** `sub in s`: `sub` occurs as a contiguous piece of `s`. */
  predicate Contains(s: string, sub: string) {
    exists i | 0 <= i <= |s| :: sub <= s[i..]
  }

  predicate StartsWith(s: string, pre: string) {
    pre <= s
  }

  predicate EndsWith(s: string, suf: string) {
    |suf| <= |s| && s[|s| - |suf|..] == suf
  }

  /** Python's `s[:n]` for `n >= 0`. */
  function Take(s: string, n: nat): (r: string)
    ensures |r| == if n < |s| then n else |s|
    ensures r <= s
  {
    if n < |s| then s[..n] else s
  }

  /** `str.lstrip()`: drops leading whitespace. */
  function StripLeft(s: string): string
  {
    if s != [] && IsSpace(s[0]) then StripLeft(s[1..]) else s
  }

  /** What `lstrip` leaves is a suffix that does not start with whitespace. */
  lemma {:induction false} StripLeftShape(s: string)
    ensures StripLeft(s) == [] || !IsSpace(StripLeft(s)[0])
    ensures |StripLeft(s)| <= |s| && StripLeft(s) == s[|s| - |StripLeft(s)|..]
  {
    if s != [] && IsSpace(s[0]) {
      StripLeftShape(s[1..]);
    }
  }

  /** `str.rstrip()`: drops trailing whitespace. */
  function StripRight(s: string): string
  {
    if s != [] && IsSpace(s[|s| - 1]) then StripRight(s[..|s| - 1]) else s
  }

  /** What `rstrip` leaves is a prefix that does not end with whitespace. */
  lemma {:induction false} StripRightShape(s: string)
    ensures StripRight(s) == [] || !IsSpace(StripRight(s)[|StripRight(s)| - 1])
    ensures StripRight(s) <= s
  {
    if s != [] && IsSpace(s[|s| - 1]) {
      StripRightShape(s[..|s| - 1]);
    }
  }

  /** `str.strip()`: drops leading and trailing whitespace only; inner
      whitespace is kept. */
  function Strip(s: string): (r: string)
  {
    StripRight(StripLeft(s))
  }

  /** `s.replace(c, "")` for a one-character pattern. */
  function RemoveChar(s: string, c: char): (r: string)
    ensures c !in r
    ensures |r| <= |s|
  {
    if s == [] then []
    else if s[0] == c then RemoveChar(s[1..], c)
    else [s[0]] + RemoveChar(s[1..], c)
  }

  /** `s.replace(pat, "")`: removes the non-overlapping occurrences of `pat`
      found scanning from the left.  An empty pattern leaves `s` as it is. */
  function RemoveAll(s: string, pat: string): (r: string)
    decreases |s|
  {
    if pat == [] || s == [] then s
    else if pat <= s then RemoveAll(s[|pat|..], pat)
    else [s[0]] + RemoveAll(s[1..], pat)
  }

  /** Removing `"**"` and then `"*"` (the two `replace` calls in tools.py)
      removes every `'*'`: the first call is subsumed by the second. */
  lemma {:induction false} RemoveStarsIsRemoveChar(s: string)
    ensures RemoveAll(RemoveAll(s, "**"), "*") == RemoveChar(s, '*')
  {
    RemoveAllOneChar(RemoveAll(s, "**"), '*');
    RemoveDoubleStarThenChar(s);
  }

  lemma {:induction false} RemoveAllOneChar(s: string, c: char)
    ensures RemoveAll(s, [c]) == RemoveChar(s, c)
  {
    if s != [] {
      RemoveAllOneChar(s[1..], c);
    }
  }

  lemma {:induction false} RemoveDoubleStarThenChar(s: string)
    ensures RemoveChar(RemoveAll(s, "**"), '*') == RemoveChar(s, '*')
    decreases |s|
  {
    if s == [] {
    } else if "**" <= s {
      RemoveDoubleStarThenChar(s[2..]);
      assert s[1..][1..] == s[2..];
    } else {
      RemoveDoubleStarThenChar(s[1..]);
    }
  }

  /** `sep.join(parts)`. */
  function Join(sep: string, parts: seq<string>): (r: string)
  {
    if parts == [] then []
    else if |parts| == 1 then parts[0]
    else parts[0] + sep + Join(sep, parts[1..])
  }

  /** A join begins with its first part. */
  lemma JoinStartsWithFirst(sep: string, parts: seq<string>)
    requires parts != []
    ensures parts[0] <= Join(sep, parts)
  {
  }

  /** Every part occurs in the joined string. */
  lemma {:induction false} JoinContainsEach(sep: string, parts: seq<string>, i: nat)
    requires i < |parts|
    ensures Contains(Join(sep, parts), parts[i])
  {
    if |parts| == 1 {
      ContainsSelf(parts[0]);
    } else if i == 0 {
      assert parts[0] <= Join(sep, parts)[0..];
    } else {
      JoinContainsEach(sep, parts[1..], i - 1);
      var j := Join(sep, parts);
      assert j == parts[0] + sep + Join(sep, parts[1..]);
      assert j[|parts[0] + sep|..] == Join(sep, parts[1..]);
      ContainsInSuffix(j, |parts[0] + sep|, parts[i]);
    }
  }

  /** `s.split(c)` for a one-character separator: always at least one piece,
      and no piece contains the separator. */
  function SplitOn(s: string, c: char): (r: seq<string>)
    ensures |r| >= 1
    ensures forall i :: 0 <= i < |r| ==> c !in r[i]
  {
    if s == [] then [[]]
    else
      var rest := SplitOn(s[1..], c);
      if s[0] == c then [[]] + rest
      else [[s[0]] + rest[0]] + rest[1..]
  }

  /** Joining the pieces of a split with the separator gives the string back. */
  lemma {:induction false} JoinSplitOn(s: string, c: char)
    ensures Join([c], SplitOn(s, c)) == s
  {
    if s != [] {
      var rest := SplitOn(s[1..], c);
      JoinSplitOn(s[1..], c);
      if s[0] == c {
        assert SplitOn(s, c) == [[]] + rest;
        assert ([[]] + rest)[1..] == rest;
      } else {
        var parts := [[s[0]] + rest[0]] + rest[1..];
        assert SplitOn(s, c) == parts;
        if |rest| == 1 {
          assert parts == [[s[0]] + rest[0]];
        } else {
          assert parts[1..] == rest[1..];
          assert Join([c], rest) == rest[0] + [c] + Join([c], rest[1..]);
        }
      }
    }
  }

  /** A string without the separator splits into itself alone. */
  lemma {:induction false} SplitOnAbsent(s: string, c: char)
    requires c !in s
    ensures SplitOn(s, c) == [s]
  {
    if s != [] {
      assert s[0] in s;
      SplitOnAbsent(s[1..], c);
      assert [s[0]] + s[1..] == s;
    }
  }

  /** Splitting at a separator after a separator-free head yields the head
      and then the pieces of the rest. */
  lemma {:induction false} SplitOnHead(a: string, b: string, c: char)
    requires c !in a
    ensures SplitOn(a + [c] + b, c) == [a] + SplitOn(b, c)
  {
    var s := a + [c] + b;
    if a == [] {
      assert s[1..] == b;
    } else {
      assert s[1..] == a[1..] + [c] + b;
      SplitOnHead(a[1..], b, c);
      assert [a[0]] + a[1..] == a;
    }
  }

  /** Splitting undoes joining when no part holds the separator. */
  lemma {:induction false} SplitOnJoin(parts: seq<string>, c: char)
    requires parts != []
    requires forall i :: 0 <= i < |parts| ==> c !in parts[i]
    ensures SplitOn(Join([c], parts), c) == parts
  {
    if |parts| == 1 {
      SplitOnAbsent(parts[0], c);
    } else {
      SplitOnJoin(parts[1..], c);
      SplitOnHead(parts[0], Join([c], parts[1..]), c);
      assert [parts[0]] + parts[1..] == parts;
    }
  }

  /** A split has a single piece exactly when the separator is absent. */
  lemma SplitOnSingle(s: string, c: char)
    ensures |SplitOn(s, c)| == 1 <==> c !in s
  {
    if c !in s {
      SplitOnAbsent(s, c);
    } else {
      JoinSplitOn(s, c);
    }
  }

  function Last(parts: seq<string>): string
    requires |parts| >= 1
  {
    parts[|parts| - 1]
  }

  /** Python `s.split(c)[-1]`: the text after the last separator. */
  function LastSegment(s: string, c: char): (r: string)
    ensures c !in r
  {
    Last(SplitOn(s, c))
  }

  /** The text after the last separator of `a + [c] + b` is `b` when `b`
      holds no separator. */
  lemma {:induction false} LastSegmentAfter(a: string, b: string, c: char)
    requires c !in b
    ensures |SplitOn(a + [c] + b, c)| >= 2
    ensures LastSegment(a + [c] + b, c) == b
  {
    var s := a + [c] + b;
    if a == [] {
      assert s[1..] == b;
      SplitOnAbsent(b, c);
    } else {
      assert s[1..] == a[1..] + [c] + b;
      LastSegmentAfter(a[1..], b, c);
    }
  }

  /** Python `s.split(c, 1)`: one piece when `c` is absent, otherwise the text
      before the first `c` and everything after it. */
  function SplitOnce(s: string, c: char): (r: seq<string>)
    ensures 1 <= |r| <= 2
    ensures c !in r[0]
    ensures |r| == 1 <==> c !in s
    ensures |r| == 1 ==> r[0] == s
    ensures |r| == 2 ==> s == r[0] + [c] + r[1]
  {
    if s == [] then [[]]
    else if s[0] == c then [[], s[1..]]
    else
      var rest := SplitOnce(s[1..], c);
      if |rest| == 1 then [s]
      else [[s[0]] + rest[0], rest[1]]
  }

  /** Python `s.split()`: the maximal runs of non-whitespace characters. */
  function Words(s: string): (r: seq<string>)
    decreases |s|
  {
    var t := StripLeft(s);
    StripLeftShape(s);
    if t == [] then []
    else
      var n := WordLength(t);
      [t[..n]] + Words(t[n..])
  }

  /** Length of the leading run of non-whitespace characters. */
  function WordLength(t: string): (n: nat)
    requires t != [] && !IsSpace(t[0])
    ensures 1 <= n <= |t|
    ensures forall i :: 0 <= i < n ==> !IsSpace(t[i])
    ensures n < |t| ==> IsSpace(t[n])
  {
    if |t| == 1 || IsSpace(t[1]) then 1 else 1 + WordLength(t[1..])
  }

  /** What a suffix contains, the whole string contains. */
  /** A string contains whatever sits between its head and its tail. */
  lemma ContainsMiddle(a: string, w: string, c: string)
    ensures Contains(a + w + c, w)
  {
    assert (a + w + c)[|a|..] == w + c;
    assert w <= (a + w + c)[|a|..];
  }

  lemma ContainsInSuffix(s: string, k: nat, w: string)
    requires k <= |s| && Contains(s[k..], w)
    ensures Contains(s, w)
  {
    var i :| 0 <= i <= |s[k..]| && w <= s[k..][i..];
    assert s[k..][i..] == s[k + i..];
  }

  /** A string contains itself, so any string contains the empty string. */
  lemma ContainsSelf(s: string)
    ensures Contains(s, s) && Contains(s, [])
  {
    assert s <= s[0..];
  }
}
