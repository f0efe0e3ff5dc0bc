/** String operations of Python's `str` that the invitation script relies on:
    `strip()` with no argument and `replace(' ', '_')`. `Split`, `Count` and
    `AfterFirst` are not used by the script; they serve to state the query
    parameters of its chat URL. Strings are sequences of Unicode code points,
    as in Python 3. */
module Text {

  /** Python's notion of whitespace for `str.strip()` and `str.isspace()`. */
  predicate IsSpace(c: char) {
    ('\t' <= c <= '\r') || ('\U{1C}' <= c <= '\U{1F}') || c == ' '
    || c == '\U{85}' || c == '\U{A0}' || c == '\U{1680}'
    || ('\U{2000}' <= c <= '\U{200A}') || c == '\U{2028}' || c == '\U{2029}'
    || c == '\U{202F}' || c == '\U{205F}' || c == '\U{3000}'
  }

  predicate AllSpace(s: string) {
    forall k :: 0 <= k < |s| ==> IsSpace(s[k])
  }

  /** Number of whitespace characters at the start of `s`. */
  function Leading(s: string): (n: nat)
    ensures n <= |s|
    ensures forall k :: 0 <= k < n ==> IsSpace(s[k])
    ensures n < |s| ==> !IsSpace(s[n])
  {
    if |s| > 0 && IsSpace(s[0]) then 1 + Leading(s[1..]) else 0
  }

  /** Position at which the whitespace at the end of `s` begins. */
  function Trailing(s: string): (n: nat)
    ensures n <= |s|
    ensures forall k :: n <= k < |s| ==> IsSpace(s[k])
    ensures n > 0 ==> !IsSpace(s[n - 1])
  {
    if |s| > 0 && IsSpace(s[|s| - 1]) then Trailing(s[..|s| - 1]) else |s|
  }

  /** `s` with the whitespace at both ends removed, as `s.strip()`. */
  function Strip(s: string): string {
    var lo := Leading(s);
    if lo == |s| then [] else s[lo..Trailing(s)]
  }

  /** `r` is `s` without surrounding whitespace: a slice of `s` starting at
      `lo`, everything around it is whitespace, and it neither starts nor ends
      with whitespace. */
  predicate IsStripOf(s: string, lo: nat, r: string) {
    && lo + |r| <= |s| && r == s[lo..lo + |r|]
    && (forall k :: 0 <= k < lo ==> IsSpace(s[k]))
    && (forall k :: lo + |r| <= k < |s| ==> IsSpace(s[k]))
    && (r == [] || (!IsSpace(r[0]) && !IsSpace(r[|r| - 1])))
  }

  /** `strip()` removes exactly the surrounding whitespace. */
  lemma StripIsStrip(s: string)
    ensures IsStripOf(s, Leading(s), Strip(s))
  {
    var lo, r := Leading(s), Strip(s);
    StripBounds(s);
    if r != [] {
      StripEnds(s);
    }
  }

  /** What survives `strip()` lies between the leading and the trailing
      whitespace. */
  lemma StripBounds(s: string)
    ensures var lo, r := Leading(s), Strip(s);
      && (r == [] ==> lo == |s|)
      && (r != [] ==> lo < Trailing(s) && lo + |r| == Trailing(s))
      && lo + |r| <= |s| && r == s[lo..lo + |r|]
  {
    LeadingBeforeTrailing(s);
  }

  /** A string that is not all whitespace has its first non-space character
      before its trailing whitespace. */
  lemma LeadingBeforeTrailing(s: string)
    ensures Leading(s) < |s| ==> Leading(s) < Trailing(s)
  {
    if Leading(s) < |s| {
      assert !IsSpace(s[Leading(s)]);
    }
  }

  lemma StripEnds(s: string)
    requires Strip(s) != []
    ensures !IsSpace(Strip(s)[0]) && !IsSpace(Strip(s)[|Strip(s)| - 1])
  {
    StripBounds(s);
    var lo, hi := Leading(s), Trailing(s);
    assert Strip(s)[0] == s[lo];
    assert Strip(s)[hi - lo - 1] == s[hi - 1];
  }

  /** Only one string is `s` without its surrounding whitespace, so
      `IsStripOf` pins down `strip()`. */
  lemma StripUnique(s: string, lo: nat, r: string)
    requires IsStripOf(s, lo, r)
    ensures r == Strip(s)
  {
    if r == [] {
      assert forall k :: 0 <= k < |s| ==> IsSpace(s[k]) by {
        forall k | 0 <= k < |s| ensures IsSpace(s[k]) {
          if k >= lo { assert lo + |r| <= k; }
        }
      }
      assert Leading(s) == |s|;
    } else {
      assert s[lo] == r[0] && s[lo + |r| - 1] == r[|r| - 1];
      assert Leading(s) == lo;
      assert Trailing(s) == lo + |r|;
    }
  }

  /** Whitespace around a name does not change what `strip()` returns, so two
      rows whose names differ only in surrounding whitespace yield the same name. */
  lemma StripPadded(p: string, m: string, q: string)
    requires AllSpace(p) && AllSpace(q)
    ensures Strip(p + m + q) == Strip(m)
  {
    var s := p + m + q;
    var r := Strip(m);
    var lo := Leading(m);
    StripIsStrip(m);
    assert s[|p| + lo..|p| + lo + |r|] == m[lo..lo + |r|];
    forall k | 0 <= k < |p| + lo ensures IsSpace(s[k]) {
      if k >= |p| { assert s[k] == m[k - |p|]; }
    }
    forall k | |p| + lo + |r| <= k < |s| ensures IsSpace(s[k]) {
      if k < |p| + |m| { assert s[k] == m[k - |p|]; } else { assert s[k] == q[k - |p| - |m|]; }
    }
    StripUnique(s, |p| + lo, r);
  }

  /** `s.replace(' ', '_')`: every ASCII space becomes an underscore, no space
      is left, and every other character (tabs and other whitespace included)
      keeps its place. */
  function ReplaceSpaces(s: string): (r: string)
    ensures |r| == |s| && ' ' !in r
    ensures forall k :: 0 <= k < |s| ==> r[k] == if s[k] == ' ' then '_' else s[k]
  {
    if s == [] then [] else [if s[0] == ' ' then '_' else s[0]] + ReplaceSpaces(s[1..])
  }

  /** `a` and `b` agree everywhere except where one has a space and the other
      an underscore. */
  predicate SameUpToSpaceOrUnderscore(a: string, b: string) {
    |a| == |b| &&
    forall k :: 0 <= k < |a| ==>
      a[k] == b[k] || ((a[k] == ' ' || a[k] == '_') && (b[k] == ' ' || b[k] == '_'))
  }

  /** Exactly the names that differ only by space versus underscore collide. */
  lemma ReplaceSpacesCollide(a: string, b: string)
    ensures ReplaceSpaces(a) == ReplaceSpaces(b) <==> SameUpToSpaceOrUnderscore(a, b)
  {
    var ra, rb := ReplaceSpaces(a), ReplaceSpaces(b);
    if ra == rb {
      assert |a| == |b|;
      forall k | 0 <= k < |a|
        ensures a[k] == b[k] || ((a[k] == ' ' || a[k] == '_') && (b[k] == ' ' || b[k] == '_'))
      {
        assert ra[k] == rb[k];
      }
    }
    if SameUpToSpaceOrUnderscore(a, b) {
      forall k | 0 <= k < |a| ensures ra[k] == rb[k] { }
      assert ra == rb;
    }
  }

  /** `s.split(sep)`: the pieces between occurrences of `sep`, empty ones kept;
      the empty string splits into one empty piece. */
  function Split(s: string, sep: char): (r: seq<string>)
    ensures |r| >= 1
  {
    if s == [] then [[]]
    else
      var rest := Split(s[1..], sep);
      if s[0] == sep then [[]] + rest else [[s[0]] + rest[0]] + rest[1..]
  }

  function Count(s: string, c: char): nat {
    if s == [] then 0 else (if s[0] == c then 1 else 0) + Count(s[1..], c)
  }

  /** Splitting yields one more piece than there are separators. */
  lemma {:induction false} SplitCount(s: string, sep: char)
    ensures |Split(s, sep)| == Count(s, sep) + 1
    decreases |s|
  {
    if s != [] { SplitCount(s[1..], sep); }
  }

  /** A string without the separator is its own single piece, and a separator
      after such a string ends its piece. */
  lemma {:induction false} SplitAfter(a: string, sep: char, b: string)
    requires sep !in a
    ensures Split(a, sep) == [a]
    ensures Split(a + [sep] + b, sep) == [a] + Split(b, sep)
    decreases |a|
  {
    if a != [] {
      assert (a + [sep] + b)[1..] == a[1..] + [sep] + b;
      SplitAfter(a[1..], sep, b);
      assert [a[0]] + a[1..] == a;
    } else {
      assert a + [sep] + b == [sep] + b;
      assert ([sep] + b)[1..] == b;
    }
  }

  /** The text after the first occurrence of `c`, or nothing if `c` does not occur. */
  function AfterFirst(s: string, c: char): string {
    if s == [] then [] else if s[0] == c then s[1..] else AfterFirst(s[1..], c)
  }

  lemma {:induction false} AfterFirstSkips(a: string, c: char, b: string)
    requires c !in a
    ensures AfterFirst(a + [c] + b, c) == b
    decreases |a|
  {
    if a == [] {
      assert a + [c] + b == [c] + b;
    } else {
      assert (a + [c] + b)[1..] == a[1..] + [c] + b;
      AfterFirstSkips(a[1..], c, b);
    }
  }

  lemma {:induction false} CountAppend(a: string, b: string, c: char)
    ensures Count(a + b, c) == Count(a, c) + Count(b, c)
    decreases |a|
  {
    if a == [] {
      assert a + b == b;
    } else {
      assert (a + b)[1..] == a[1..] + b;
      CountAppend(a[1..], b, c);
    }
  }

  lemma {:induction false} CountAbsent(a: string, c: char)
    ensures c !in a <==> Count(a, c) == 0
    decreases |a|
  {
    if a != [] {
      CountAbsent(a[1..], c);
      assert c in a <==> a[0] == c || c in a[1..];
    }
  }

  /** Two separators cut a string into three pieces. */
  lemma SplitThree(a: string, b: string, c: string, sep: char)
    requires sep !in a && sep !in b && sep !in c
    ensures Split(a + [sep] + b + [sep] + c, sep) == [a, b, c]
  {
    assert a + [sep] + b + [sep] + c == a + [sep] + (b + [sep] + c);
    SplitAfter(a, sep, b + [sep] + c);
    SplitAfter(b, sep, c);
    SplitAfter(c, sep, []);
  }

  lemma CountThree(a: string, b: string, c: string, sep: char)
    ensures Count(a + [sep] + b + [sep] + c, sep) == Count(a, sep) + Count(b, sep) + Count(c, sep) + 2
  {
    CountAppend(a + [sep] + b + [sep], c, sep);
    CountAppend(a + [sep] + b, [sep], sep);
    CountAppend(a + [sep], b, sep);
    CountAppend(a, [sep], sep);
  }
}
