/** Already-decoded JSON values, as Python's `json` module hands them to the
    scraper, together with the Python built-ins the scraper applies to them:
    truthiness (`if not x`), `dict.get`, `int(x)`, `float(x)` and `str(x)`. */
module PyJson {
  import opened Wrappers
  import opened Text

  /** A decoded JSON document. JSON `null` and Python's `None` coincide. */
  datatype Json =
    | JNull
    | JBool(b: bool)
    | JInt(i: int)
    | JFloat(f: real)
    | JStr(s: string)
    | JArr(items: seq<Json>)
    | JObj(fields: map<string, Json>)

  /** The Python built-in exceptions the modelled code can raise on bad data. */
  datatype PyException = TypeError | ValueError | AttributeError | KeyError

  /** Python truthiness: `None`, `False`, zero, and empty strings, lists and
      dicts are falsy. */
  predicate Truthy(v: Json) {
    match v
    case JNull => false
    case JBool(b) => b
    case JInt(i) => i != 0
    case JFloat(f) => f != 0.0
    case JStr(s) => s != []
    case JArr(items) => items != []
    case JObj(fields) => fields != map[]
  }

  /** `d.get(key, default)`. */
  function GetOr(fields: map<string, Json>, key: string, default: Json): (v: Json)
    ensures key in fields ==> v == fields[key]
    ensures key !in fields ==> v == default
  {
    if key in fields then fields[key] else default
  }

  /** `d.get(key)`: a missing key reads as `None`. */
  function Get(fields: map<string, Json>, key: string): Json {
    GetOr(fields, key, JNull)
  }

  /** Truncation toward zero, as `int(x)` does for a float. */
  function Trunc(f: real): (n: int)
    ensures f >= 0.0 ==> n as real <= f < n as real + 1.0
    ensures f < 0.0 ==> n as real - 1.0 < f <= n as real
  {
    if f >= 0.0 then f.Floor else -((-f).Floor)
  }

  /** A sign and the digits after it: `+`/`-` is optional. */
  function SignAndDigits(t: string): (string, bool) {
    if t != [] && (t[0] == '-' || t[0] == '+') then (t[1..], t[0] == '-') else (t, false)
  }

  /** The integer literals `int()` reads, once stripped: ASCII digits, with
      an optional sign in front of at least one of them. */
  predicate IntLiteral(t: string) {
    && t != []
    && (IsDigit(t[0]) || (|t| >= 2 && (t[0] == '+' || t[0] == '-')))
    && forall k :: 0 < k < |t| ==> IsDigit(t[k])
  }

  /** `int(s)` for a string: surrounding whitespace, an optional sign and at
      least one ASCII digit. */
  function ParseIntLiteral(s: string): (r: Option<int>)
    ensures r.Some? <==> IntLiteral(Strip(s))
    ensures Strip(s) != [] && AllDigits(Strip(s)) ==> r == Some(DigitsValue(Strip(s)))
    ensures r.Some? && r.value < 0 ==> Strip(s)[0] == '-'
  {
    var t := Strip(s);
    var (digits, negative) := SignAndDigits(t);
    if digits == [] || !AllDigits(digits) then
      assert t != [] && (t[0] == '+' || t[0] == '-') ==> forall k :: 0 < k < |t| ==> t[k] == digits[k - 1];
      None
    else
      var n: int := DigitsValue(digits);
      Some(if negative then -n else n)
  }

  /** Rendering an integer and reading it back gives the integer. */
  lemma ParseIntLiteralOfIntToString(i: int)
    ensures ParseIntLiteral(IntToString(i)) == Some(i)
  {
    var n := if i < 0 then -i else i;
    var t := IntToString(i);
    var digits := NatToString(n);
    assert !IsSpace(t[0]) && !IsSpace(t[|t| - 1]);
    StripOfStripped(t);
    if i < 0 {
      assert t[1..] == digits;
    } else {
      assert t[0] != '-' && t[0] != '+';
    }
    DigitsValueOfNatToString(n);
  }

  /** Whitespace around a rendered integer is ignored: `int(" 250\n")` is
      250. */
  lemma ParseIntLiteralPadded(before: string, i: int, after: string)
    requires AllSpace(before) && AllSpace(after)
    ensures ParseIntLiteral(before + IntToString(i) + after) == Some(i)
  {
    var t := IntToString(i);
    assert t != [] && !IsSpace(t[0]) && !IsSpace(t[|t| - 1]);
    StripPadded(before, t, after);
    ParseIntLiteralOfIntToString(i);
    StripOfStripped(t);
  }

  function Pow10(k: nat): (p: nat)
    ensures p >= 1
  {
    if k == 0 then 1 else 10 * Pow10(k - 1)
  }

  /** The unsigned part of a decimal literal `float()` reads: ASCII digits
      and at most one decimal point, with at least one digit. */
  predicate PlainDecimal(u: string) {
    && (forall k :: 0 <= k < |u| ==> IsDigit(u[k]) || u[k] == '.')
    && (forall i, j :: 0 <= i < j < |u| && u[i] == '.' ==> u[j] != '.')
    && (exists k :: 0 <= k < |u| && IsDigit(u[k]))
  }

  /** The decimal literals `float()` reads, once stripped: a plain decimal with
      an optional sign in front. */
  predicate DecimalLiteral(t: string) {
    PlainDecimal(if t != [] && (t[0] == '+' || t[0] == '-') then t[1..] else t)
  }

  /** With a decimal point, a plain decimal is a run of digits, the point, and
      a run of digits, not both empty. */
  lemma PlainDecimalWithPoint(u: string)
    requires '.' in u
    ensures var (whole, frac) := SplitOnce(u, '.');
      PlainDecimal(u) <==> |whole| + |frac| > 0 && AllDigits(whole) && AllDigits(frac)
  {
    var (whole, frac) := SplitOnce(u, '.');
    var p := |whole|;
    assert u[p] == '.';
    forall k | 0 <= k < p ensures u[k] == whole[k] {}
    forall k | 0 <= k < |frac| ensures u[p + 1 + k] == frac[k] {}
    if PlainDecimal(u) {
      assert AllDigits(whole);
      forall k | 0 <= k < |frac| ensures IsDigit(frac[k]) {
        assert u[p + 1 + k] != '.';
      }
      var k :| 0 <= k < |u| && IsDigit(u[k]);
      assert k != p;
    }
    if |whole| + |frac| > 0 && AllDigits(whole) && AllDigits(frac) {
      forall k | 0 <= k < |u| ensures IsDigit(u[k]) || u[k] == '.' {
        if k > p {
          assert u[k] == frac[k - p - 1];
        }
      }
      forall i, j | 0 <= i < j < |u| && u[i] == '.' ensures u[j] != '.' {
        if i >= p {
          assert u[j] == frac[j - p - 1];
        }
      }
      if p > 0 {
        assert IsDigit(u[0]);
      } else {
        assert IsDigit(u[p + 1]);
      }
    }
  }

  /** Without a decimal point, a plain decimal is a non-empty run of
      digits. */
  lemma PlainDecimalWithoutPoint(u: string)
    requires '.' !in u
    ensures PlainDecimal(u) <==> u != [] && AllDigits(u)
  {
    if u != [] && AllDigits(u) {
      assert IsDigit(u[0]);
    }
  }

  /** The value of the digits after a decimal point: their value over ten to
      the power of their number. */
  function Fraction(digits: string): real
    requires AllDigits(digits)
  {
    DigitsValue(digits) as real / Pow10(|digits|) as real
  }

  /** The value of an unsigned decimal: digits with at most one decimal point
      and at least one digit. */
  function UnsignedDecimal(u: string): Option<real> {
    if '.' in u then
      var (whole, frac) := SplitOnce(u, '.');
      if |whole| + |frac| == 0 || !AllDigits(whole) || !AllDigits(frac) then None
      else Some(DigitsValue(whole) as real + Fraction(frac))
    else if u == [] || !AllDigits(u) then None
    else Some(DigitsValue(u) as real)
  }

  /** `float(s)` for a string in plain decimal notation: surrounding whitespace,
      an optional sign, digits with at most one decimal point and at least one
      digit. */
  function ParseDecimalLiteral(s: string): (r: Option<real>)
    ensures r.Some? ==> Strip(s) != []
  {
    var (body, negative) := SignAndDigits(Strip(s));
    match UnsignedDecimal(body)
    case None => None
    case Some(m) => Some(if negative then -m else m)
  }

  /** `float()` reads exactly the decimal literals; every other string raises
      `ValueError`. */
  lemma ParseDecimalLiteralAccepts(s: string)
    ensures ParseDecimalLiteral(s).Some? <==> DecimalLiteral(Strip(s))
  {
    var t := Strip(s);
    var (body, negative) := SignAndDigits(t);
    assert body == if t != [] && (t[0] == '+' || t[0] == '-') then t[1..] else t;
    if '.' in body {
      PlainDecimalWithPoint(body);
    } else {
      PlainDecimalWithoutPoint(body);
    }
  }

  /** `float()` and `int()` agree on integer literals. */
  lemma ParseDecimalOfIntLiteral(s: string)
    requires ParseIntLiteral(s).Some?
    ensures ParseDecimalLiteral(s) == Some(ParseIntLiteral(s).value as real)
  {
    var (body, negative) := SignAndDigits(Strip(s));
    assert '.' !in body;
  }

  /** Splitting digits, a point and digits at the point gives the two runs
      of digits back. */
  lemma SplitOnceAtPoint(w: string, f: string)
    requires AllDigits(w)
    ensures '.' in w + "." + f && SplitOnce(w + "." + f, '.') == (w, f)
  {
    var body := w + "." + f;
    assert body[|w|] == '.';
    var (h0, h1) := SplitOnce(body, '.');
    assert h0 == w;
    assert h1 == body[|w| + 1..] == f;
  }

  lemma UnsignedDecimalOfParts(w: string, f: string)
    requires AllDigits(w) && AllDigits(f) && w != [] && f != []
    ensures UnsignedDecimal(w + "." + f) == Some(DigitsValue(w) as real + Fraction(f))
  {
    SplitOnceAtPoint(w, f);
  }

  /** A minus in front of a literal that starts with a digit negates what
      `float()` reads, and rejects what it rejects. */
  lemma ParseDecimalLiteralNegated(u: string)
    requires u != [] && IsDigit(u[0]) && !IsSpace(u[|u| - 1])
    ensures ParseDecimalLiteral("-" + u) ==
            match ParseDecimalLiteral(u) case Some(x) => Some(-x) case None => None
  {
    var t := "-" + u;
    assert t[|t| - 1] == u[|u| - 1] && t[1..] == u;
    StripOfStripped(t);
    StripOfStripped(u);
  }

  /** Digits, a point and digits read back as the value of the whole digits
      plus the value of the fraction digits scaled by their number:
      `float("12.05")` is 12 + 5/100. */
  lemma ParseDecimalLiteralOfParts(w: string, f: string)
    requires w != [] && f != [] && AllDigits(w) && AllDigits(f)
    ensures ParseDecimalLiteral(w + "." + f) == Some(DigitsValue(w) as real + Fraction(f))
  {
    var body := w + "." + f;
    assert body[0] == w[0] && body[|body| - 1] == f[|f| - 1];
    StripOfStripped(body);
    UnsignedDecimalOfParts(w, f);
  }

  /** Python's `int(v)`. */
  function PyInt(v: Json): (r: Result<int, PyException>)
    ensures v.JInt? ==> r == Success(v.i)
    ensures (v.JNull? || v.JArr? || v.JObj?) ==> r == Failure(TypeError)
  {
    match v
    case JBool(b) => Success(if b then 1 else 0)
    case JInt(i) => Success(i)
    case JFloat(f) => Success(Trunc(f))
    case JStr(s) =>
      (match ParseIntLiteral(s)
       case Some(n) => Success(n)
       case None => Failure(ValueError))
    case _ => Failure(TypeError)
  }

  /** Python's `float(v)`. */
  function PyFloat(v: Json): (r: Result<real, PyException>)
    ensures v.JFloat? ==> r == Success(v.f)
    ensures v.JInt? ==> r == Success(v.i as real)
    ensures (v.JNull? || v.JArr? || v.JObj?) ==> r == Failure(TypeError)
  {
    match v
    case JBool(b) => Success(if b then 1.0 else 0.0)
    case JInt(i) => Success(i as real)
    case JFloat(f) => Success(f)
    case JStr(s) =>
      (match ParseDecimalLiteral(s)
       case Some(x) => Success(x)
       case None => Failure(ValueError))
    case _ => Failure(TypeError)
  }

  /** Python's `str(v)` for the values whose rendering the scraper can meet as an
      id: `None`, booleans, integers and strings. Floats, lists and dicts give
      `None` here (see README, "Left out"). */
  function PyStr(v: Json): (r: Option<string>)
    ensures v.JStr? ==> r == Some(v.s)
    ensures v.JInt? && v.i >= 0 ==> r.Some? && r.value != [] && AllDigits(r.value)
  {
    match v
    case JNull => Some("None")
    case JBool(b) => Some(if b then "True" else "False")
    case JInt(i) => Some(IntToString(i))
    case JStr(s) => Some(s)
    case _ => None
  }

  /** The strings of a list whose elements are all strings. */
  function StringsOf(items: seq<Json>): (r: Option<seq<string>>)
    ensures r.Some? ==> |r.value| == |items| && forall k :: 0 <= k < |items| ==> items[k] == JStr(r.value[k])
  {
    if items == [] then Some([])
    else if !items[0].JStr? then None
    else
      match StringsOf(items[1..])
      case None => None
      case Some(rest) => Some([items[0].s] + rest)
  }

  function StringItems(strs: seq<string>): (items: seq<Json>)
    ensures |items| == |strs|
  {
    if strs == [] then [] else [JStr(strs[0])] + StringItems(strs[1..])
  }

  /** Reading back a list of strings written as JSON strings gives the list. */
  lemma {:induction false} StringsOfStringItems(strs: seq<string>)
    ensures StringsOf(StringItems(strs)) == Some(strs)
  {
    if strs != [] {
      var items := StringItems(strs);
      assert items == [JStr(strs[0])] + StringItems(strs[1..]);
      assert items[1..] == StringItems(strs[1..]);
      StringsOfStringItems(strs[1..]);
      assert items[0] == JStr(strs[0]);
      assert [strs[0]] + strs[1..] == strs;
    }
  }
}
