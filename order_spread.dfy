/** The HTML fallback of the name resolver: finding the id in a listing page by
    searching for the regular expression
    `Market_LoadOrderSpread\(\s*(\d+)\s*\)` and taking its group from the
    leftmost match, as `re.search` does. `\s` is Python's whitespace (`IsSpace`);
    `\d` is taken as the ASCII digits. */
module OrderSpread {
  import opened Wrappers
  import opened Text

  const Marker: string := "Market_LoadOrderSpread("

  /** The end of the run of digits that starts at `i`. */
  function SkipDigits(s: string, i: nat): (k: nat)
    requires i <= |s|
    ensures i <= k <= |s| && AllDigits(s[i..k])
    ensures k < |s| ==> !IsDigit(s[k])
    decreases |s| - i
  {
    if i < |s| && IsDigit(s[i]) then SkipDigits(s, i + 1) else i
  }

  /** The text of a call `Market_LoadOrderSpread(` whitespace digits whitespace `)`. */
  function CallText(w1: string, digits: string, w2: string): string {
    Marker + w1 + digits + w2 + ")"
  }

  /** `text` has, at position `p`, a call whose argument is `digits`. */
  ghost predicate CallAt(text: string, p: nat, digits: string) {
    p <= |text| && digits != [] && AllDigits(digits) &&
    exists w1, w2 :: AllSpace(w1) && AllSpace(w2) && StartsWith(text[p..], CallText(w1, digits, w2))
  }

  /** The group of a match of the pattern anchored at `p`, if the pattern matches
      there. Whitespace and digits are disjoint, so the greedy runs never need to
      backtrack. */
  function MatchAt(text: string, p: nat): (r: Option<string>)
    requires p <= |text|
  {
    if !StartsWith(text[p..], Marker) then None
    else
      var a := p + |Marker|;
      var b := SkipSpace(text, a);
      var c := SkipDigits(text, b);
      var d := SkipSpace(text, c);
      if b < c && d < |text| && text[d] == ')' then Some(text[b..c]) else None
  }

  /** Every match `MatchAt` reports is a call standing at `p`. */
  lemma MatchAtSound(text: string, p: nat)
    requires p <= |text|
    ensures MatchAt(text, p).Some? ==> CallAt(text, p, MatchAt(text, p).value)
  {
    if MatchAt(text, p).Some? {
      var a := p + |Marker|;
      var b := SkipSpace(text, a);
      var c := SkipDigits(text, b);
      var d := SkipSpace(text, c);
      var w1, digits, w2 := text[a..b], text[b..c], text[c..d];
      SpaceSlice(text, a, b);
      SpaceSlice(text, c, d);
      assert text[p..a] == Marker by {
        assert text[p..][..|Marker|] == Marker;
      }
      SliceJoin(text, p, a, b);
      SliceJoin(text, p, b, c);
      SliceJoin(text, p, c, d);
      SliceJoin(text, p, d, d + 1);
      assert text[d..d + 1] == ")";
      assert text[p..d + 1] == CallText(w1, digits, w2);
      assert text[p..][..d + 1 - p] == text[p..d + 1];
      assert StartsWith(text[p..], CallText(w1, digits, w2));
    }
  }

  /** A run of whitespace, cut out, is all whitespace. */
  lemma SpaceSlice(s: string, i: nat, j: nat)
    requires i <= j <= |s| && SpaceBetween(s, i, j)
    ensures AllSpace(s[i..j])
  {
    forall k | 0 <= k < j - i ensures IsSpace(s[i..j][k]) {
      assert s[i..j][k] == s[i + k];
    }
  }

  /** The converse of `SpaceSlice`. */
  lemma SpaceUnslice(s: string, i: nat, j: nat)
    requires i <= j <= |s| && AllSpace(s[i..j])
    ensures SpaceBetween(s, i, j)
  {
    forall k | i <= k < j ensures IsSpace(s[k]) {
      assert s[k] == s[i..j][k - i];
    }
  }

  lemma DigitsUnslice(s: string, i: nat, j: nat)
    requires i <= j <= |s| && AllDigits(s[i..j])
    ensures forall k :: i <= k < j ==> IsDigit(s[k])
  {
    forall k | i <= k < j ensures IsDigit(s[k]) {
      assert s[k] == s[i..j][k - i];
    }
  }

  /** Two adjacent slices make the slice across both. */
  lemma SliceJoin(s: string, i: nat, j: nat, k: nat)
    requires i <= j <= k <= |s|
    ensures s[i..k] == s[i..j] + s[j..k]
  {
  }

  /** The pieces of a call text, by position. */
  lemma CallTextPieces(w1: string, digits: string, w2: string)
    ensures var call := CallText(w1, digits, w2);
      var m := |Marker|; var b := m + |w1|; var c := b + |digits|; var d := c + |w2|;
      |call| == d + 1 && call[..m] == Marker && call[m..b] == w1 && call[b..c] == digits &&
      call[c..d] == w2 && call[d] == ')'
  {
    var call := CallText(w1, digits, w2);
    var m := |Marker|;
    var b := m + |w1|;
    var c := b + |digits|;
    assert call == (((Marker + w1) + digits) + w2) + ")";
    assert call[..c + |w2|] == ((Marker + w1) + digits) + w2;
    assert call[..c] == (Marker + w1) + digits;
    assert call[..b] == Marker + w1;
  }

  lemma SliceOfSlice(s: string, i: nat, j: nat, k: nat, l: nat)
    requires i <= j <= |s| && k <= l <= j - i
    ensures s[i..j][k..l] == s[i + k..i + l]
  {
    assert |s[i..j][k..l]| == l - k;
    forall x | 0 <= x < l - k ensures s[i..j][k..l][x] == s[i + k..i + l][x] {
      assert s[i..j][k..l][x] == s[i..j][k + x];
    }
  }

  /** Where the call stands, the text from `p` on reads marker, `w1`, `digits`,
      `w2` and the closing parenthesis, in that order. */
  lemma CallSlices(text: string, p: nat, w1: string, digits: string, w2: string)
    requires p <= |text| && StartsWith(text[p..], CallText(w1, digits, w2))
    ensures var a := p + |Marker|; var b := a + |w1|; var c := b + |digits|; var d := c + |w2|;
      d < |text| && text[p..a] == Marker && text[a..b] == w1 && text[b..c] == digits &&
      text[c..d] == w2 && text[d] == ')'
  {
    var call := CallText(w1, digits, w2);
    var a := p + |Marker|;
    var b := a + |w1|;
    var c := b + |digits|;
    var d := c + |w2|;
    CallTextPieces(w1, digits, w2);
    var seg := text[p..d + 1];
    assert seg == call by {
      assert text[p..][..|call|] == call;
    }
    SliceOfSlice(text, p, d + 1, 0, a - p);
    SliceOfSlice(text, p, d + 1, a - p, b - p);
    SliceOfSlice(text, p, d + 1, b - p, c - p);
    SliceOfSlice(text, p, d + 1, c - p, d - p);
    assert text[d] == seg[d - p];
  }

  /** Conversely, wherever the call text stands the pattern matches, with the
      call's argument as its group: `MatchAt` finds every match and nothing else. */
  lemma CallAtMatches(text: string, p: nat, w1: string, digits: string, w2: string)
    requires p <= |text| && digits != [] && AllDigits(digits) && AllSpace(w1) && AllSpace(w2)
    requires StartsWith(text[p..], CallText(w1, digits, w2))
    ensures MatchAt(text, p) == Some(digits)
  {
    var a := p + |Marker|;
    var b := a + |w1|;
    var c := b + |digits|;
    var d := c + |w2|;
    CallSlices(text, p, w1, digits, w2);
    assert text[p..][..|Marker|] == Marker;
    SpaceUnslice(text, a, b);
    DigitsUnslice(text, b, c);
    SpaceUnslice(text, c, d);
    assert text[b] == digits[0];
    SkipSpaceStops(text, a, b);
    SkipDigitsStops(text, b, c);
    SkipSpaceStops(text, c, d);
  }

  lemma {:induction false} SkipSpaceStops(s: string, i: nat, j: nat)
    requires i <= j < |s| && SpaceBetween(s, i, j) && !IsSpace(s[j])
    ensures SkipSpace(s, i) == j
    decreases j - i
  {
    if i < j { SkipSpaceStops(s, i + 1, j); }
  }

  lemma {:induction false} SkipDigitsStops(s: string, i: nat, j: nat)
    requires i <= j < |s| && (forall k :: i <= k < j ==> IsDigit(s[k])) && !IsDigit(s[j])
    ensures SkipDigits(s, i) == j
    decreases j - i
  {
    if i < j { SkipDigitsStops(s, i + 1, j); }
  }

  /** `re.search` from position `p` on: where the leftmost match at or after
      `p` starts. */
  function SearchFrom(text: string, p: nat): (r: Option<nat>)
    requires p <= |text|
    ensures r.None? ==> forall q :: p <= q <= |text| ==> MatchAt(text, q).None?
    ensures r.Some? ==> p <= r.value <= |text| && MatchAt(text, r.value).Some? &&
                        forall q :: p <= q < r.value ==> MatchAt(text, q).None?
    decreases |text| - p
  {
    if MatchAt(text, p).Some? then Some(p)
    else if p == |text| then None
    else SearchFrom(text, p + 1)
  }

  /** The id the listing page carries: the group of the first match in `text`,
      or `None` when the pattern occurs nowhere. */
  function FindItemNameId(text: string): (r: Option<string>)
    ensures r.None? <==> forall q :: 0 <= q <= |text| ==> MatchAt(text, q).None?
    ensures r.Some? ==> exists q :: 0 <= q <= |text| && MatchAt(text, q) == r &&
                                    forall q' :: 0 <= q' < q ==> MatchAt(text, q').None?
  {
    match SearchFrom(text, 0)
    case None => None
    case Some(q) => MatchAt(text, q)
  }

  /** A found id is a non-empty run of digits standing in a call in the page. */
  lemma FoundIdIsCall(text: string)
    requires FindItemNameId(text).Some?
    ensures var id := FindItemNameId(text).value;
      id != [] && AllDigits(id) && exists q :: 0 <= q <= |text| && CallAt(text, q, id)
  {
    var q := SearchFrom(text, 0).value;
    MatchAtSound(text, q);
  }

  /** A page whose text is a prefix without any call followed by a call gives
      that call's argument. */
  lemma FirstCallWins(prefix: string, w1: string, digits: string, w2: string, rest: string)
    requires digits != [] && AllDigits(digits) && AllSpace(w1) && AllSpace(w2)
    requires forall q :: 0 <= q < |prefix| ==> MatchAt(prefix + CallText(w1, digits, w2) + rest, q).None?
    ensures FindItemNameId(prefix + CallText(w1, digits, w2) + rest) == Some(digits)
  {
    var call := CallText(w1, digits, w2);
    var text := prefix + call + rest;
    assert text[|prefix|..][..|call|] == call;
    CallAtMatches(text, |prefix|, w1, digits, w2);
  }
}
