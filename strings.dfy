/**
 * Character-string helpers shared by the namespace model and the statement
 * compiler: the parts of Python's `str` that the two cores rely on
 * (`split('.')`, `'.'.join`, `strip`, `startswith`, `find`, `rfind`, the first
 * whitespace-separated word, ASCII `lower`) and Python's ordering of strings,
 * which `sorted` uses.
 */
module Strings {

  // ---------------------------------------------------------------------------
  // Whitespace and stripping
  // ---------------------------------------------------------------------------

  /** The characters Python's `str.strip()` and `str.split()` treat as blanks (ASCII part). */
  predicate IsSpace(c: char) {
    c == ' ' || c == '\t' || c == '\n' || c == '\r' || c == '\U{000B}' || c == '\U{000C}'
  }

  /** `s.lstrip()`: drops the leading blanks. */
  function TrimLeft(s: string): (r: string)
    ensures |r| <= |s|
    ensures r == [] || !IsSpace(r[0])
  {
    if s == [] || !IsSpace(s[0]) then s else TrimLeft(s[1..])
  }

  /** `s.rstrip()`: drops the trailing blanks. */
  function TrimRight(s: string): (r: string)
    ensures |r| <= |s| && r == s[..|r|]
    ensures r == [] || !IsSpace(r[|r| - 1])
  {
    if s == [] || !IsSpace(s[|s| - 1]) then s else TrimRight(s[..|s| - 1])
  }

  /** `s.strip()`: a substring of `s` with no blank at either end. */
  function Strip(s: string): (r: string)
    ensures |r| <= |s|
    ensures r == [] || (!IsSpace(r[0]) && !IsSpace(r[|r| - 1]))
  {
    TrimRight(TrimLeft(s))
  }

  lemma {:induction false} StripIdempotent(s: string)
    ensures Strip(Strip(s)) == Strip(s)
  {
    var r := Strip(s);
    assert TrimLeft(r) == r;
    assert TrimRight(r) == r;
  }

  /** Stripping one leading blank off text that has no blank at either end gives the text back. */
  lemma StripAfterBlank(y: string)
    requires y != [] && !IsSpace(y[0]) && !IsSpace(y[|y| - 1])
    ensures Strip(" " + y) == y
  {
    assert (" " + y)[1..] == y;
    assert TrimLeft(" " + y) == TrimLeft(y) == y;
    assert TrimRight(y) == y;
  }

  // ---------------------------------------------------------------------------
  // Prefixes and searching
  // ---------------------------------------------------------------------------

  predicate StartsWith(s: string, p: string) {
    |p| <= |s| && s[..|p|] == p
  }

  predicate EndsWith(s: string, p: string) {
    |p| <= |s| && s[|s| - |p|..] == p
  }

  /** `s.find(c)`: the index of the first `c`, or -1. */
  function Find(s: string, c: char): (i: int)
    ensures -1 <= i < |s|
    ensures i == -1 <==> c !in s
    ensures i >= 0 ==> s[i] == c && c !in s[..i]
  {
    if s == [] then -1
    else if s[0] == c then 0
    else
      var j := Find(s[1..], c);
      assert s[1..] == s[..|s|][1..];
      if j == -1 then -1 else (assert s[..j + 1] == [s[0]] + s[1..][..j]; j + 1)
  }

  /** `s.rfind(c)`: the index of the last `c`, or -1. */
  function RFind(s: string, c: char): (i: int)
    ensures -1 <= i < |s|
    ensures i == -1 <==> c !in s
    ensures i >= 0 ==> s[i] == c && c !in s[i + 1..]
  {
    if s == [] then -1
    else if s[|s| - 1] == c then |s| - 1
    else
      var init := s[..|s| - 1];
      assert s == init + [s[|s| - 1]];
      var j := RFind(init, c);
      if j == -1 then -1
      else
        assert s[j + 1..] == init[j + 1..] + [s[|s| - 1]];
        j
  }

  /** A Python slice bound `j` for a string of length `n`: negative counts from the end, out-of-range clamps. */
  function SliceBound(j: int, n: nat): (k: nat)
    ensures k <= n
    ensures 0 <= j <= n ==> k == j
    ensures j < 0 && n + j >= 0 ==> k == n + j
  {
    if j < 0 then (if n + j < 0 then 0 else n + j) else if j > n then n else j
  }

  /** `s[:j]` with Python's slicing rules. */
  function SliceTo(s: string, j: int): (r: string)
    ensures 0 <= j <= |s| ==> r == s[..j]
    ensures j >= |s| ==> r == s
  {
    s[..SliceBound(j, |s|)]
  }

  /** `s[j:]` with Python's slicing rules. */
  function SliceFrom(s: string, j: int): (r: string)
    ensures 0 <= j <= |s| ==> r == s[j..]
    ensures j >= |s| ==> r == []
  {
    s[SliceBound(j, |s|)..]
  }

  /** `s.find(p) > -1`: `p` occurs somewhere in `s`. */
  predicate Contains(s: string, p: string)
    decreases |s|
  {
    StartsWith(s, p) || (s != [] && Contains(s[1..], p))
  }

  /** `s.replace(p, q)`: every non-overlapping occurrence of `p`, left to right, becomes `q`. */
  function ReplaceAll(s: string, p: string, q: string): (r: string)
    requires p != []
    ensures |p| == |q| ==> |r| == |s|
    decreases |s|
  {
    if s == [] then []
    else if StartsWith(s, p) then q + ReplaceAll(s[|p|..], p, q)
    else [s[0]] + ReplaceAll(s[1..], p, q)
  }

  /** The first word of `s.split()`, or "" when `s` is blank. */
  function FirstWord(s: string): (w: string)
  {
    WordPrefix(TrimLeft(s))
  }

  /** The longest blank-free prefix of `s`. */
  function WordPrefix(s: string): (w: string)
    ensures |w| <= |s| && w == s[..|w|]
    ensures |w| < |s| ==> IsSpace(s[|w|])
  {
    if s == [] || IsSpace(s[0]) then []
    else
      var w := WordPrefix(s[1..]);
      assert [s[0]] + w == s[..|w| + 1];
      [s[0]] + w
  }

  /** The word holds no blank: with the ensures above, it is the longest blank-free prefix. */
  lemma {:induction false} WordPrefixBlankFree(s: string)
    ensures forall c :: c in WordPrefix(s) ==> !IsSpace(c)
  {
    if s != [] && !IsSpace(s[0]) {
      WordPrefixBlankFree(s[1..]);
    }
  }

  /** ASCII `str.lower()`. */
  function Lower(s: string): (r: string)
    ensures |r| == |s|
  {
    if s == [] then [] else [LowerChar(s[0])] + Lower(s[1..])
  }

  /** `Lower` works character by character. */
  lemma {:induction false} LowerChars(s: string)
    ensures forall i :: 0 <= i < |s| ==> Lower(s)[i] == LowerChar(s[i])
  {
    if s != [] {
      LowerChars(s[1..]);
    }
  }

  function LowerChar(c: char): char {
    if 'A' <= c <= 'Z' then (c as int + 32) as char else c
  }

  // ---------------------------------------------------------------------------
  // split and join on one separator character
  // ---------------------------------------------------------------------------

  /** `s.split(sep)`: never empty; no part holds the separator. */
  function Split(s: string, sep: char): (parts: seq<string>)
    ensures |parts| >= 1
    ensures forall i :: 0 <= i < |parts| ==> sep !in parts[i]
    decreases |s|
  {
    var i := Find(s, sep);
    if i == -1 then [s]
    else
      var rest := Split(s[i + 1..], sep);
      [s[..i]] + rest
  }

  /** `sep.join(parts)`. */
  function Join(parts: seq<string>, sep: char): (s: string)
  {
    if parts == [] then []
    else if |parts| == 1 then parts[0]
    else parts[0] + [sep] + Join(parts[1..], sep)
  }

  /** Joining the parts of a split gives back the string. */
  lemma {:induction false} JoinSplit(s: string, sep: char)
    ensures Join(Split(s, sep), sep) == s
    decreases |s|
  {
    var i := Find(s, sep);
    if i != -1 {
      var tail := s[i + 1..];
      var rest := Split(tail, sep);
      JoinSplit(tail, sep);
      JoinCons(s[..i], rest, sep);
      assert s == s[..i] + [sep] + tail;
    }
  }

  lemma JoinCons(a: string, rest: seq<string>, sep: char)
    requires |rest| >= 1
    ensures Join([a] + rest, sep) == a + [sep] + Join(rest, sep)
  {
    assert ([a] + rest)[1..] == rest;
  }

  /** Splitting at the first separator. */
  lemma SplitAt(s: string, sep: char, k: nat)
    requires k < |s| && s[k] == sep && sep !in s[..k]
    ensures Find(s, sep) == k
    ensures Split(s, sep) == [s[..k]] + Split(s[k + 1..], sep)
  {
    FindFirst(s, sep, k);
    SplitUnfold(s, sep);
  }

  /** One step of `Split`, at the first separator. */
  lemma SplitUnfold(s: string, sep: char)
    requires Find(s, sep) >= 0
    ensures Split(s, sep) == [s[..Find(s, sep)]] + Split(s[Find(s, sep) + 1..], sep)
  {
  }

  /** `Find` returns the position of a separator that none precedes. */
  lemma {:induction false} FindFirst(s: string, c: char, k: nat)
    requires k < |s| && s[k] == c && c !in s[..k]
    ensures Find(s, c) == k
    decreases k
  {
    if k > 0 {
      assert s[0] == s[..k][0];
      assert s[1..][..k - 1] == s[1..k] && s[1..k] == s[..k][1..];
      FindFirst(s[1..], c, k - 1);
    }
  }

  /** Splitting a join of separator-free parts gives back the parts. */
  lemma {:induction false} SplitJoin(parts: seq<string>, sep: char)
    requires |parts| >= 1
    requires forall i :: 0 <= i < |parts| ==> sep !in parts[i]
    ensures Split(Join(parts, sep), sep) == parts
    decreases |parts|
  {
    if |parts| == 1 {
      assert Join(parts, sep) == parts[0];
    } else {
      var s := Join(parts, sep);
      var k := |parts[0]|;
      var tail := Join(parts[1..], sep);
      assert s == parts[0] + [sep] + tail;
      assert s[..k] == parts[0] && s[k] == sep && s[k + 1..] == tail;
      SplitAt(s, sep, k);
      SplitJoin(parts[1..], sep);
      assert parts == [parts[0]] + parts[1..];
    }
  }

  // ---------------------------------------------------------------------------
  // Python's string order and `sorted` over a set of names
  // ---------------------------------------------------------------------------

  /** `a < b` on Python strings: code point by code point, a proper prefix first. */
  predicate Below(a: string, b: string)
    decreases |a|
  {
    if a == [] then b != []
    else if b == [] then false
    else if a[0] != b[0] then a[0] < b[0]
    else Below(a[1..], b[1..])
  }

  lemma {:induction false} BelowIrreflexive(a: string)
    ensures !Below(a, a)
    decreases |a|
  {
    if a != [] { BelowIrreflexive(a[1..]); }
  }

  lemma {:induction false} BelowTransitive(a: string, b: string, c: string)
    requires Below(a, b) && Below(b, c)
    ensures Below(a, c)
    decreases |a|
  {
    if a != [] && b != [] && c != [] && a[0] == b[0] && b[0] == c[0] {
      BelowTransitive(a[1..], b[1..], c[1..]);
    }
  }

  lemma {:induction false} BelowTotal(a: string, b: string)
    ensures a == b || Below(a, b) || Below(b, a)
    decreases |a|
  {
    if a != [] && b != [] && a[0] == b[0] {
      BelowTotal(a[1..], b[1..]);
      if a[1..] == b[1..] {
        assert a == [a[0]] + a[1..] && b == [b[0]] + b[1..];
      }
    }
  }

  lemma BelowAsymmetric(a: string, b: string)
    requires Below(a, b)
    ensures !Below(b, a)
  {
    if Below(b, a) {
      BelowTransitive(a, b, a);
      BelowIrreflexive(a);
    }
  }

  /** `xs` is in strictly increasing order. */
  predicate StrictlySorted(xs: seq<string>) {
    forall i, j :: 0 <= i < j < |xs| ==> Below(xs[i], xs[j])
  }

  predicate IsLeast(m: string, s: set<string>) {
    m in s && forall x :: x in s ==> m == x || Below(m, x)
  }

  lemma {:induction false} LeastExists(s: set<string>)
    requires s != {}
    ensures exists m :: IsLeast(m, s)
    decreases |s|
  {
    var x :| x in s;
    if s == {x} {
      assert IsLeast(x, s);
    } else {
      LeastExists(s - {x});
      var m :| IsLeast(m, s - {x});
      BelowTotal(x, m);
      if Below(x, m) {
        forall y | y in s ensures x == y || Below(x, y) {
          if y != x && y != m { BelowTransitive(x, m, y); }
        }
        assert IsLeast(x, s);
      } else {
        assert IsLeast(m, s);
      }
    }
  }

  lemma LeastUnique(m: string, n: string, s: set<string>)
    requires IsLeast(m, s) && IsLeast(n, s)
    ensures m == n
  {
    if m != n {
      assert Below(m, n) && Below(n, m);
      BelowAsymmetric(m, n);
    }
  }

  /** The least name of a non-empty set. */
  function Least(s: set<string>): (m: string)
    requires s != {}
    ensures IsLeast(m, s)
  {
    LeastExists(s);
    forall m1, m2 | IsLeast(m1, s) && IsLeast(m2, s) ensures m1 == m2 {
      LeastUnique(m1, m2, s);
    }
    var m :| IsLeast(m, s);
    m
  }

  /** `sorted(s)`: the names of `s` in increasing order, each once. */
  function SortedNames(s: set<string>): (r: seq<string>)
    ensures StrictlySorted(r)
    ensures forall x :: x in r <==> x in s
    ensures |r| == |s|
    decreases |s|
  {
    if s == {} then []
    else
      var m := Least(s);
      var rest := SortedNames(s - {m});
      forall j | 0 <= j < |rest| ensures Below(m, rest[j]) {
        assert rest[j] in s - {m};
      }
      [m] + rest
  }
}
