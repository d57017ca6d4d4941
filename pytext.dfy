/** The Python `str` built-ins the modelled code relies on: whitespace,
    strip/lower, substring tests, find/replace/join, decimal rendering,
    slicing with Python's negative-bound rule, and code-point ordering with
    `sorted` of a set of strings. */
module PyText {
  import opened Wrappers

  // ---------------------------------------------------------------------------
  // Characters
  // ---------------------------------------------------------------------------

  /** The characters for which Python's `str.isspace()` holds; `str.strip()` and
      the regular-expression class `\s` use this set. */
  predicate IsSpace(c: char) {
    var n := c as int;
    (9 <= n <= 13) || (28 <= n <= 32) || n == 0x85 || n == 0xA0 || n == 0x1680
    || (0x2000 <= n <= 0x200A) || n == 0x2028 || n == 0x2029 || n == 0x202F
    || n == 0x205F || n == 0x3000
  }

  predicate IsAsciiUpper(c: char) { 'A' <= c <= 'Z' }

  predicate IsAsciiAlnum(c: char) { 'a' <= c <= 'z' || 'A' <= c <= 'Z' || '0' <= c <= '9' }

  /** `str.isalnum()` on one character: exact on ASCII, and delegated to
      `unicodeAlnum` (the Unicode letter/digit tables) above U+007F, where no
      whitespace character is a letter or a digit. */
  predicate IsAlnum(c: char, unicodeAlnum: char -> bool) {
    IsAsciiAlnum(c) || (c as int >= 128 && !IsSpace(c) && unicodeAlnum(c))
  }

  /** A character the regular-expression class `\w` matches. */
  predicate IsWordChar(c: char, unicodeAlnum: char -> bool) {
    IsAlnum(c, unicodeAlnum) || c == '_'
  }

  /** Case mapping of one character (ASCII letters only). */
  function LowerChar(c: char): (r: char)
    ensures IsSpace(r) <==> IsSpace(c)
    ensures !IsAsciiUpper(r)
    ensures !IsAsciiUpper(c) ==> r == c
  {
    if IsAsciiUpper(c) then (c as int + 32) as char else c
  }

  /** `str.lower()`. */
  function Lower(s: string): (r: string)
    ensures |r| == |s|
    ensures forall i :: 0 <= i < |s| ==> r[i] == LowerChar(s[i])
  {
    seq(|s|, i requires 0 <= i < |s| => LowerChar(s[i]))
  }

  lemma LowerIdempotent(s: string)
    ensures Lower(Lower(s)) == Lower(s)
  {
  }

  // ---------------------------------------------------------------------------
  // Stripping
  // ---------------------------------------------------------------------------

  /** The first index at or after `i` whose character is not stripped by `p`. */
  function SkipForward(s: string, i: nat, p: char -> bool): (k: nat)
    requires i <= |s|
    ensures i <= k <= |s|
    ensures forall j :: i <= j < k ==> p(s[j])
    ensures k < |s| ==> !p(s[k])
    decreases |s| - i
  {
    if i < |s| && p(s[i]) then SkipForward(s, i + 1, p) else i
  }

  /** The least index `k` in `lo..j` such that `s[k..j]` is entirely stripped by `p`. */
  function SkipBackward(s: string, j: nat, lo: nat, p: char -> bool): (k: nat)
    requires lo <= j <= |s|
    ensures lo <= k <= j
    ensures forall m :: k <= m < j ==> p(s[m])
    ensures k > lo ==> !p(s[k - 1])
    decreases j
  {
    if j > lo && p(s[j - 1]) then SkipBackward(s, j - 1, lo, p) else j
  }

  /** `s.strip(chars)` where `p` says which characters are in `chars`. */
  function StripBy(s: string, p: char -> bool): (r: string)
    ensures |r| <= |s|
    ensures r != [] ==> !p(r[0]) && !p(r[|r| - 1])
    ensures exists i :: 0 <= i <= |s| && r <= s[i..]
  {
    var i := SkipForward(s, 0, p);
    var j := SkipBackward(s, |s|, i, p);
    var r := s[i..j];
    assert r <= s[i..];
    r
  }

  lemma StripByAllStripped(s: string, p: char -> bool)
    requires forall i :: 0 <= i < |s| ==> p(s[i])
    ensures StripBy(s, p) == []
  {
  }

  /** `str.strip()`. */
  function Strip(s: string): string { StripBy(s, IsSpace) }

  /** `str.rstrip()`. */
  function RStrip(s: string): (r: string)
    ensures r <= s
    ensures r != [] ==> !IsSpace(r[|r| - 1])
    ensures forall m :: |r| <= m < |s| ==> IsSpace(s[m])
  {
    s[..SkipBackward(s, |s|, 0, IsSpace)]
  }

  /** A string whose two ends are not whitespace is left alone by `strip()`. */
  lemma StripNoop(s: string)
    requires s != [] ==> !IsSpace(s[0]) && !IsSpace(s[|s| - 1])
    ensures Strip(s) == s
  {
    if s != [] {
      assert SkipForward(s, 0, IsSpace) == 0;
      assert SkipBackward(s, |s|, 0, IsSpace) == |s|;
    }
  }

  lemma StripIdempotent(s: string)
    ensures Strip(Strip(s)) == Strip(s)
  {
    StripNoop(Strip(s));
  }

  /** Lower-casing commutes with stripping whitespace. */
  lemma {:induction false} LowerStripCommute(s: string)
    ensures Lower(Strip(s)) == Strip(Lower(s))
  {
    var l := Lower(s);
    var i := SkipForward(s, 0, IsSpace);
    var j := SkipBackward(s, |s|, i, IsSpace);
    SkipForwardLower(s, 0);
    SkipBackwardLower(s, |s|, i);
    assert Strip(s) == s[i..j];
    assert Strip(l) == l[i..j];
    LowerSlice(s, i, j);
  }

  lemma LowerSlice(s: string, i: nat, j: nat)
    requires i <= j <= |s|
    ensures Lower(s[i..j]) == Lower(s)[i..j]
  {
  }

  lemma {:induction false} SkipForwardLower(s: string, i: nat)
    requires i <= |s|
    ensures SkipForward(Lower(s), i, IsSpace) == SkipForward(s, i, IsSpace)
    decreases |s| - i
  {
    if i < |s| && IsSpace(s[i]) {
      SkipForwardLower(s, i + 1);
    }
  }

  lemma {:induction false} SkipBackwardLower(s: string, j: nat, lo: nat)
    requires lo <= j <= |s|
    ensures SkipBackward(Lower(s), j, lo, IsSpace) == SkipBackward(s, j, lo, IsSpace)
    decreases j
  {
    if j > lo && IsSpace(s[j - 1]) {
      SkipBackwardLower(s, j - 1, lo);
    }
  }

  /** A character that is not whitespace survives `strip().lower()`, lower-cased. */
  lemma StripLowerKeepsChar(s: string, c: char)
    requires Contains(s, [c]) && !IsSpace(c) && !IsAsciiUpper(c)
    ensures Contains(Lower(Strip(s)), [c])
  {
    var k :| 0 <= k <= |s| && [c] <= s[k..];
    var i := SkipForward(s, 0, IsSpace);
    var j := SkipBackward(s, |s|, i, IsSpace);
    assert s[k] == c;
    assert i <= k < j;
    var t := Lower(Strip(s));
    assert t[k - i] == c;
    assert [c] <= t[k - i..];
  }

  // ---------------------------------------------------------------------------
  // Searching
  // ---------------------------------------------------------------------------

  /** `sub in s`. */
  predicate Contains(s: string, sub: string) {
    exists i | 0 <= i <= |s| :: sub <= s[i..]
  }

  /** The least index in `i..hi` that satisfies `p`, if there is one: the
      position where a left-to-right search first succeeds. */
  function FirstFrom(i: nat, hi: nat, p: nat -> bool): (r: Option<nat>)
    requires i <= hi
    ensures r.Some? ==> i <= r.value <= hi && p(r.value) && forall j :: i <= j < r.value ==> !p(j)
    ensures r.None? ==> forall j :: i <= j <= hi ==> !p(j)
    decreases hi - i
  {
    if p(i) then Some(i) else if i == hi then None else FirstFrom(i + 1, hi, p)
  }

  /** The ASCII-case-insensitive occurrence of the lower-case word `w` at `k`. */
  predicate MatchesAt(s: string, k: nat, w: string) {
    k + |w| <= |s| && Lower(s[k..k + |w|]) == w
  }

  /** Skipping within a prefix ends where skipping in the whole string does, as
      long as it stops inside the prefix. */
  lemma SkipForwardPrefix(r: string, s: string, i: nat, p: char -> bool)
    requires r <= s && i <= |r|
    requires SkipForward(r, i, p) < |r|
    ensures SkipForward(s, i, p) == SkipForward(r, i, p)
  {
    assert forall j :: 0 <= j < |r| ==> r[j] == s[j];
  }

  /** `s.startswith(prefix)`. */
  predicate StartsWith(s: string, prefix: string) { prefix <= s }

  /** `s.endswith(suffix)`. */
  predicate EndsWith(s: string, suffix: string) {
    |suffix| <= |s| && s[|s| - |suffix|..] == suffix
  }

  /** `s.find(c)`, with `None` for Python's -1. */
  function Find(s: string, c: char): (r: Option<nat>)
    ensures r.Some? ==> r.value < |s| && s[r.value] == c
                        && forall k :: 0 <= k < r.value ==> s[k] != c
    ensures r.None? ==> forall k :: 0 <= k < |s| ==> s[k] != c
  {
    if s == [] then None
    else if s[0] == c then Some(0)
    else match Find(s[1..], c)
      case None => None
      case Some(k) => Some(k + 1)
  }

  /** `s.rfind(c)`, with `None` for Python's -1. */
  function RFind(s: string, c: char): (r: Option<nat>)
    ensures r.Some? ==> r.value < |s| && s[r.value] == c
                        && forall k :: r.value < k < |s| ==> s[k] != c
    ensures r.None? ==> forall k :: 0 <= k < |s| ==> s[k] != c
  {
    if s == [] then None
    else if s[|s| - 1] == c then Some(|s| - 1)
    else RFind(s[..|s| - 1], c)
  }

  /** `s.removesuffix(suffix)`. */
  function RemoveSuffix(s: string, suffix: string): (r: string)
    ensures EndsWith(s, suffix) ==> r + suffix == s
    ensures !EndsWith(s, suffix) ==> r == s
  {
    if EndsWith(s, suffix) then s[..|s| - |suffix|] else s
  }

  /** `s.split(sep, 1)[0]`: the text before the first `sep`, or all of `s`. */
  function BeforeFirst(s: string, sep: char): (r: string)
    ensures r <= s
    ensures forall k :: 0 <= k < |r| ==> r[k] != sep
    ensures |r| < |s| ==> s[|r|] == sep
  {
    match Find(s, sep)
    case None => s
    case Some(k) => s[..k]
  }

  /** `s.replace(old, new)`: every non-overlapping occurrence of `pat`, left to right, replaced by `rep`. */
  function ReplaceAll(s: string, pat: string, rep: string): (r: string)
    requires pat != []
    ensures !Contains(s, pat) ==> r == s
    decreases |s|
  {
    if |s| < |pat| then s
    else if pat <= s then
      assert s[0..] == s;
      rep + ReplaceAll(s[|pat|..], pat, rep)
    else
      assert !Contains(s, pat) ==> !Contains(s[1..], pat) by {
        forall i | 0 <= i <= |s| - 1 && pat <= s[1..][i..] ensures pat <= s[i + 1..] {
          assert s[1..][i..] == s[i + 1..];
        }
      }
      [s[0]] + ReplaceAll(s[1..], pat, rep)
  }

  /** `sep.join(xs)`. */
  function Join(sep: string, xs: seq<string>): string {
    if xs == [] then "" else if |xs| == 1 then xs[0] else xs[0] + sep + Join(sep, xs[1..])
  }

  lemma {:induction false} JoinSplit(sep: string, xs: seq<string>, ys: seq<string>)
    requires xs != [] && ys != []
    ensures Join(sep, xs + ys) == Join(sep, xs) + sep + Join(sep, ys)
    decreases |xs|
  {
    if |xs| == 1 {
      assert (xs + ys)[1..] == ys;
    } else {
      assert (xs + ys)[1..] == xs[1..] + ys;
      JoinSplit(sep, xs[1..], ys);
    }
  }

  /** A joined list begins with its first element. */
  lemma JoinStartsWithFirst(sep: string, xs: seq<string>)
    requires xs != []
    ensures xs[0] <= Join(sep, xs)
  {
  }

  /** A joined list ends with its last element. */
  lemma {:induction false} JoinEndsWithLast(sep: string, xs: seq<string>)
    requires xs != []
    ensures EndsWith(Join(sep, xs), xs[|xs| - 1])
    decreases |xs|
  {
    if |xs| > 1 {
      JoinEndsWithLast(sep, xs[1..]);
      var rest := Join(sep, xs[1..]);
      var whole := xs[0] + sep + rest;
      assert whole[|whole| - |rest|..] == rest;
    }
  }

  // ---------------------------------------------------------------------------
  // Numbers and slices
  // ---------------------------------------------------------------------------

  function DigitChar(d: nat): char
    requires d < 10
  {
    "0123456789"[d]
  }

  /** `str(n)` for a non-negative integer. */
  function NatToString(n: nat): (r: string)
    ensures r != []
    ensures forall k :: 0 <= k < |r| ==> '0' <= r[k] <= '9'
  {
    if n < 10 then [DigitChar(n)] else NatToString(n / 10) + [DigitChar(n % 10)]
  }

  /** `str(i)` for any integer. */
  function IntToString(i: int): string {
    if i < 0 then "-" + NatToString(-i) else NatToString(i)
  }

  /** `xs[:n]`, including Python's reading of a negative `n` as counted from the end. */
  function SliceTo<T>(xs: seq<T>, n: int): (r: seq<T>)
    ensures r <= xs
    ensures n >= 0 ==> |r| == if n < |xs| then n else |xs|
    ensures n < 0 ==> |r| == if |xs| + n > 0 then |xs| + n else 0
  {
    if n >= 0 then (if n < |xs| then xs[..n] else xs)
    else if |xs| + n > 0 then xs[..|xs| + n] else []
  }

  // ---------------------------------------------------------------------------
  // Ordering and sorted()
  // ---------------------------------------------------------------------------

  /** Python's `<` on strings: lexicographic by code point, a proper prefix first. */
  predicate StrLt(a: string, b: string) {
    if a == [] then b != []
    else if b == [] then false
    else if a[0] != b[0] then a[0] < b[0]
    else StrLt(a[1..], b[1..])
  }

  lemma {:induction false} StrLtIrreflexive(a: string)
    ensures !StrLt(a, a)
  {
    if a != [] { StrLtIrreflexive(a[1..]); }
  }

  lemma {:induction false} StrLtTransitive(a: string, b: string, c: string)
    requires StrLt(a, b) && StrLt(b, c)
    ensures StrLt(a, c)
  {
    if a != [] && b != [] && c != [] && a[0] == b[0] && b[0] == c[0] {
      StrLtTransitive(a[1..], b[1..], c[1..]);
    }
  }

  lemma {:induction false} StrLtTotal(a: string, b: string)
    ensures a == b || StrLt(a, b) || StrLt(b, a)
  {
    if a != [] && b != [] && a[0] == b[0] {
      StrLtTotal(a[1..], b[1..]);
      if a[1..] == b[1..] {
        assert a == [a[0]] + a[1..] && b == [b[0]] + b[1..];
      }
    }
  }

  /** A sequence in strictly ascending order (so without repetitions). */
  predicate StrictlySorted(xs: seq<string>) {
    forall i, j :: 0 <= i < j < |xs| ==> StrLt(xs[i], xs[j])
  }

  predicate IsLeast(m: string, s: set<string>) {
    m in s && forall x :: x in s ==> x == m || StrLt(m, x)
  }

  lemma {:induction false} LeastExists(s: set<string>)
    requires s != {}
    ensures exists m :: IsLeast(m, s)
    decreases |s|
  {
    var y :| y in s;
    if s == {y} {
      assert IsLeast(y, s);
    } else {
      LeastExists(s - {y});
      var m :| IsLeast(m, s - {y});
      StrLtTotal(m, y);
      if StrLt(m, y) {
        assert IsLeast(m, s);
      } else {
        forall x | x in s ensures x == y || StrLt(y, x) {
          if x != y && x != m { StrLtTransitive(y, m, x); }
        }
        assert IsLeast(y, s);
      }
    }
  }

  lemma LeastUnique(s: set<string>)
    ensures forall a, b :: IsLeast(a, s) && IsLeast(b, s) ==> a == b
  {
    forall a, b | IsLeast(a, s) && IsLeast(b, s) ensures a == b {
      if a != b {
        assert StrLt(a, b) && StrLt(b, a);
        StrLtTransitive(a, b, a);
        StrLtIrreflexive(a);
      }
    }
  }

  /** `sorted(s)` for a set of strings. */
  function SortedSet(s: set<string>): (r: seq<string>)
    ensures |r| == |s|
    ensures forall x :: x in r <==> x in s
    ensures StrictlySorted(r)
    decreases |s|
  {
    if s == {} then []
    else
      LeastExists(s);
      LeastUnique(s);
      var m :| IsLeast(m, s);
      var rest := SortedSet(s - {m});
      assert forall k :: 0 <= k < |rest| ==> StrLt(m, rest[k]) by {
        forall k | 0 <= k < |rest| ensures StrLt(m, rest[k]) {
          assert rest[k] in rest;
        }
      }
      [m] + rest
  }
}
