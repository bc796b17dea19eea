/** The handful of Python `str` operations the scraper relies on, stated over
    `seq<char>`: `strip`, `split` with a one-character separator, `split(sep, 1)`,
    `splitlines`, `startswith`, `replace(old, new, 1)`, decimal rendering of
    integers, and code-point ordering of strings (what `sorted` uses). */
module Text {

  /** Exactly the characters for which Python's `str.isspace()` holds. */
  predicate IsSpace(c: char) {
    c == ' ' || ('\t' <= c <= '\r') || ('\U{1c}' <= c <= '\U{1f}') ||
    c == '\U{85}' || c == '\U{a0}' || c == '\U{1680}' ||
    ('\U{2000}' <= c <= '\U{200a}') || c == '\U{2028}' || c == '\U{2029}' ||
    c == '\U{202f}' || c == '\U{205f}' || c == '\U{3000}'
  }

  /** The line boundaries recognised by Python's `str.splitlines()`. */
  predicate IsLineBreak(c: char) {
    c == '\n' || c == '\r' || c == '\U{0b}' || c == '\U{0c}' ||
    c == '\U{1c}' || c == '\U{1d}' || c == '\U{1e}' || c == '\U{85}' ||
    c == '\U{2028}' || c == '\U{2029}'
  }

  predicate IsDigit(c: char) { '0' <= c <= '9' }

  /** Every character of `s` from `lo` up to (not including) `hi` is whitespace. */
  predicate SpaceBetween(s: string, lo: int, hi: int)
    requires 0 <= lo && hi <= |s|
  {
    forall k :: lo <= k < hi ==> IsSpace(s[k])
  }

  predicate AllSpace(s: string) { SpaceBetween(s, 0, |s|) }

  predicate AllDigits(s: string) { forall i :: 0 <= i < |s| ==> IsDigit(s[i]) }

  /** A string with no whitespace at either end: what `strip()` produces. */
  predicate IsStripped(s: string) {
    s == [] || (!IsSpace(s[0]) && !IsSpace(s[|s| - 1]))
  }

  /** The end of the run of whitespace that starts at `i`. */
  function SkipSpace(s: string, i: nat): (k: nat)
    requires i <= |s|
    ensures i <= k <= |s| && SpaceBetween(s, i, k)
    ensures k < |s| ==> !IsSpace(s[k])
    decreases |s| - i
  {
    if i < |s| && IsSpace(s[i]) then SkipSpace(s, i + 1) else i
  }

  /** The start of the run of whitespace that ends just before `j`. */
  function SkipSpaceBack(s: string, j: nat): (k: nat)
    requires j <= |s|
    ensures k <= j && SpaceBetween(s, k, j)
    ensures k > 0 ==> !IsSpace(s[k - 1])
  {
    if j > 0 && IsSpace(s[j - 1]) then SkipSpaceBack(s, j - 1) else j
  }

  /** `s[i..j]` is what is left of `s` once whitespace is cut from both ends. */
  predicate TrimmedAt(s: string, i: int, j: int) {
    0 <= i <= j <= |s| && SpaceBetween(s, 0, i) && SpaceBetween(s, j, |s|)
  }

  /** Python's `s.strip()`. */
  function Strip(s: string): string {
    var i := SkipSpace(s, 0);
    var j := SkipSpaceBack(s, |s|);
    if i < j then s[i..j] else []
  }

  /** The strip of `s` is a slice of `s`, everything cut off is whitespace, it
      has no whitespace at either end, and it is empty exactly when `s` is all
      whitespace. */
  lemma StripFacts(s: string)
    ensures IsStripped(Strip(s))
    ensures exists i, j :: TrimmedAt(s, i, j) && Strip(s) == s[i..j]
    ensures Strip(s) == [] <==> AllSpace(s)
  {
    var i := SkipSpace(s, 0);
    var j := SkipSpaceBack(s, |s|);
    if i < j {
      assert TrimmedAt(s, i, j);
    } else {
      assert TrimmedAt(s, i, i);
    }
  }

  /** A stripped string is its own strip. */
  lemma StripOfStripped(s: string)
    requires IsStripped(s)
    ensures Strip(s) == s
  {
    assert s[0..|s|] == s;
  }

  /** `strip` is idempotent. */
  lemma StripIdempotent(s: string)
    ensures Strip(Strip(s)) == Strip(s)
  {
    StripFacts(s);
    StripOfStripped(Strip(s));
  }

  /** The run of whitespace from `i` ends at the first non-space `k`. */
  lemma {:induction false} SkipSpaceTo(s: string, i: nat, k: nat)
    requires i <= k < |s| && SpaceBetween(s, i, k) && !IsSpace(s[k])
    ensures SkipSpace(s, i) == k
    decreases k - i
  {
    if i < k {
      SkipSpaceTo(s, i + 1, k);
    }
  }

  /** The run of whitespace ending before `j` starts just after the last
      non-space `s[k - 1]`. */
  lemma {:induction false} SkipSpaceBackTo(s: string, j: nat, k: nat)
    requires 0 < k <= j <= |s| && SpaceBetween(s, k, j) && !IsSpace(s[k - 1])
    ensures SkipSpaceBack(s, j) == k
    decreases j - k
  {
    if k < j {
      SkipSpaceBackTo(s, j - 1, k);
    }
  }

  /** Stripping whitespace around a non-empty stripped string gives that
      string. */
  lemma StripPadded(before: string, t: string, after: string)
    requires AllSpace(before) && AllSpace(after) && t != [] && IsStripped(t)
    ensures Strip(before + t + after) == t
  {
    var s := before + t + after;
    var i := |before|;
    var j := |before| + |t|;
    assert s[i] == t[0] && s[j - 1] == t[|t| - 1];
    forall k | 0 <= k < i ensures IsSpace(s[k]) {
      assert s[k] == before[k];
    }
    forall k | j <= k < |s| ensures IsSpace(s[k]) {
      assert s[k] == after[k - j];
    }
    SkipSpaceTo(s, 0, i);
    SkipSpaceBackTo(s, |s|, j);
    assert s[i..j] == t;
  }

  function IndexOf(s: string, c: char): (i: nat)
    requires c in s
    ensures i < |s| && s[i] == c && c !in s[..i]
  {
    if s[0] == c then 0 else 1 + IndexOf(s[1..], c)
  }

  /** Python's `s.split(sep)` for a one-character separator. */
  function Split(s: string, sep: char): (parts: seq<string>)
    ensures |parts| >= 1
    ensures forall k :: 0 <= k < |parts| ==> sep !in parts[k]
    decreases |s|
  {
    if sep !in s then [s]
    else
      var i := IndexOf(s, sep);
      [s[..i]] + Split(s[i + 1..], sep)
  }

  /** The inverse of `Split`: Python's `sep.join(parts)`. */
  function Join(parts: seq<string>, sep: char): string {
    if parts == [] then ""
    else if |parts| == 1 then parts[0]
    else parts[0] + [sep] + Join(parts[1..], sep)
  }

  /** Splitting and joining again gives back the original string. */
  lemma {:induction false} JoinSplit(s: string, sep: char)
    ensures Join(Split(s, sep), sep) == s
    decreases |s|
  {
    if sep in s {
      var i := IndexOf(s, sep);
      var rest := Split(s[i + 1..], sep);
      SplitAtFirst(s, sep);
      JoinSplit(s[i + 1..], sep);
      JoinCons(s[..i], rest, sep);
      assert s == s[..i] + [sep] + s[i + 1..];
    }
  }

  lemma SplitAtFirst(s: string, sep: char)
    requires sep in s
    ensures Split(s, sep) == [s[..IndexOf(s, sep)]] + Split(s[IndexOf(s, sep) + 1..], sep)
  {
  }

  lemma JoinCons(a: string, rest: seq<string>, sep: char)
    requires |rest| >= 1
    ensures Join([a] + rest, sep) == a + [sep] + Join(rest, sep)
  {
    assert ([a] + rest)[1..] == rest;
  }

  /** Joining pieces that do not contain the separator and splitting again
      gives back the pieces. */
  lemma {:induction false} SplitJoin(parts: seq<string>, sep: char)
    requires |parts| >= 1
    requires forall k :: 0 <= k < |parts| ==> sep !in parts[k]
    ensures Split(Join(parts, sep), sep) == parts
  {
    if |parts| > 1 {
      var s := Join(parts, sep);
      var p0 := parts[0];
      assert s == p0 + [sep] + Join(parts[1..], sep);
      assert s[|p0|] == sep;
      assert s[..|p0|] == p0;
      assert sep in s;
      IndexOfPrefix(s, sep, p0);
      assert s[|p0| + 1..] == Join(parts[1..], sep);
      SplitJoin(parts[1..], sep);
    }
  }

  lemma IndexOfPrefix(s: string, c: char, p: string)
    requires |p| < |s| && s[..|p|] == p && c !in p && s[|p|] == c
    ensures IndexOf(s, c) == |p|
  {
    var i := IndexOf(s, c);
    assert s[..i][..] == s[..i];
  }

  /** Python's `s.split(sep, 1)` for a string that contains `sep`: the text
      before and after its first occurrence. */
  function SplitOnce(s: string, sep: char): (halves: (string, string))
    requires sep in s
    ensures s == halves.0 + [sep] + halves.1 && sep !in halves.0
  {
    var i := IndexOf(s, sep);
    assert s == s[..i] + [sep] + s[i + 1..];
    (s[..i], s[i + 1..])
  }

  /** Python's `s.splitlines()`: pieces between line boundaries, `\r\n` counting as
      one boundary, and no trailing empty piece after a final boundary. */
  function SplitLines(s: string): (lines: seq<string>)
    ensures forall k :: 0 <= k < |lines| ==> SingleLine(lines[k])
    decreases |s|
  {
    if s == [] then []
    else if SingleLine(s) then [s]
    else
      var i := FirstLineBreak(s);
      var width := if s[i] == '\r' && i + 1 < |s| && s[i + 1] == '\n' then 2 else 1;
      [s[..i]] + SplitLines(s[i + width..])
  }

  /** `s` holds no line boundary. */
  predicate SingleLine(s: string) {
    forall j :: 0 <= j < |s| ==> !IsLineBreak(s[j])
  }

  /** The strip of a single line is a single line. */
  lemma StripSingleLine(s: string)
    requires SingleLine(s)
    ensures SingleLine(Strip(s))
  {
    var a := SkipSpace(s, 0);
    var b := SkipSpaceBack(s, |s|);
    if a < b {
      forall j | 0 <= j < b - a ensures !IsLineBreak(s[a..b][j]) {
        assert s[a..b][j] == s[a + j];
      }
    }
  }

  function FirstLineBreak(s: string): (i: nat)
    requires !SingleLine(s)
    ensures i < |s| && IsLineBreak(s[i])
    ensures forall j :: 0 <= j < i ==> !IsLineBreak(s[j])
  {
    if IsLineBreak(s[0]) then 0 else 1 + FirstLineBreak(s[1..])
  }

  predicate StartsWith(s: string, prefix: string) {
    |prefix| <= |s| && s[..|prefix|] == prefix
  }

  predicate OccursAt(s: string, pat: string, i: nat) {
    i <= |s| && StartsWith(s[i..], pat)
  }

  /** The position of the first occurrence of `pat` in `s`, as `str.find` gives it. */
  function Find(s: string, pat: string): (r: Option<nat>)
    ensures r.Some? ==> OccursAt(s, pat, r.value)
    ensures r.Some? ==> forall j :: 0 <= j < r.value ==> !OccursAt(s, pat, j)
    ensures r.None? ==> forall j :: 0 <= j <= |s| ==> !OccursAt(s, pat, j)
  {
    FindFrom(s, pat, 0)
  }

  function FindFrom(s: string, pat: string, i: nat): (r: Option<nat>)
    requires i <= |s| + 1
    ensures r.Some? ==> i <= r.value && OccursAt(s, pat, r.value)
    ensures r.Some? ==> forall j :: i <= j < r.value ==> !OccursAt(s, pat, j)
    ensures r.None? ==> forall j :: i <= j <= |s| ==> !OccursAt(s, pat, j)
    decreases |s| + 1 - i
  {
    if i > |s| then None
    else if StartsWith(s[i..], pat) then Some(i)
    else FindFrom(s, pat, i + 1)
  }

  /** Python's `s.replace(pat, rep, 1)` for a non-empty pattern: the first
      occurrence, if any, is replaced and nothing else changes. */
  function ReplaceFirst(s: string, pat: string, rep: string): (r: string)
    requires pat != []
    ensures Find(s, pat).None? ==> r == s
    ensures Find(s, pat).Some? ==>
      var i := Find(s, pat).value;
      s == s[..i] + pat + s[i + |pat|..] && r == s[..i] + rep + s[i + |pat|..]
  {
    match Find(s, pat)
    case None => s
    case Some(i) =>
      assert s[i..][..|pat|] == pat;
      assert s == s[..i] + s[i..][..|pat|] + s[i + |pat|..];
      s[..i] + rep + s[i + |pat|..]
  }

  function DigitChar(d: nat): char
    requires d < 10
  {
    ['0', '1', '2', '3', '4', '5', '6', '7', '8', '9'][d]
  }

  /** Python's `str(n)` for a natural number. */
  function NatToString(n: nat): (s: string)
    ensures s != [] && AllDigits(s)
  {
    if n < 10 then [DigitChar(n)] else NatToString(n / 10) + [DigitChar(n % 10)]
  }

  /** Python's `str(i)` for an integer. */
  function IntToString(i: int): string {
    if i < 0 then "-" + NatToString(-i) else NatToString(i)
  }

  /** The value of a string of decimal digits: the inverse of `NatToString`. */
  function DigitsValue(s: string): nat
    requires AllDigits(s)
  {
    if s == [] then 0 else 10 * DigitsValue(s[..|s| - 1]) + (s[|s| - 1] as int - '0' as int)
  }

  lemma {:induction false} DigitsValueOfNatToString(n: nat)
    ensures DigitsValue(NatToString(n)) == n
  {
    if n >= 10 {
      var s := NatToString(n);
      assert s[..|s| - 1] == NatToString(n / 10);
      DigitsValueOfNatToString(n / 10);
    }
  }

  /** Strict code-point (lexicographic) order on strings, as Python compares `str`. */
  predicate Below(a: string, b: string) {
    if a == [] then b != []
    else if b == [] then false
    else if a[0] != b[0] then a[0] < b[0]
    else Below(a[1..], b[1..])
  }

  lemma {:induction false} BelowIrreflexive(a: string)
    ensures !Below(a, a)
  {
    if a != [] { BelowIrreflexive(a[1..]); }
  }

  lemma {:induction false} BelowTransitive(a: string, b: string, c: string)
    requires Below(a, b) && Below(b, c)
    ensures Below(a, c)
  {
    if a != [] && a[0] == b[0] && b[0] == c[0] {
      BelowTransitive(a[1..], b[1..], c[1..]);
    }
  }

  lemma {:induction false} BelowTotal(a: string, b: string)
    requires a != b
    ensures Below(a, b) || Below(b, a)
  {
    if a != [] && b != [] && a[0] == b[0] {
      assert a == [a[0]] + a[1..] && b == [b[0]] + b[1..];
      BelowTotal(a[1..], b[1..]);
    }
  }

  import opened Wrappers
}
