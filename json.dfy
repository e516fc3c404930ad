/**
 * Decoded JSON values, and the few Python operations the two services apply
 * to them: truthiness (`if not x`), equality (`==`), `dict.get` with a
 * default, and the `int()` / `float()` coercions.
 *
 * JSON integers and JSON floats are both kept as one exact `real`. Python's
 * `==`, truthiness, `int()` and `float()` give the same answer for `2` and
 * `2.0`, but the services can still tell them apart elsewhere: a `user_id` of
 * `2.0` is formatted into the verification URL as `/users/2.0`, which the
 * user service's integer route does not match, and it is echoed back as
 * `2.0`. The model does not keep that distinction.
 */
module JsonValues {
  import opened Wrappers

  datatype Json =
    | JNull
    | JBool(b: bool)
    | JNum(n: real)
    | JStr(s: string)
    | JArray(items: seq<Json>)
    | JObject(fields: map<string, Json>)

  /** Python truthiness: `None`, `False`, zero and empty containers are false. */
  predicate Truthy(v: Json)
    ensures !Truthy(v) <==> v in {JNull, JBool(false), JNum(0.0), JStr(""), JArray([]), JObject(map[])}
  {
    match v
    case JNull => false
    case JBool(b) => b
    case JNum(n) => n != 0.0
    case JStr(s) => |s| > 0
    case JArray(items) => |items| > 0
    case JObject(fields) => |fields| > 0
  }

  /** The number a value stands for in a Python comparison (`True == 1`). */
  function NumericValue(v: Json): Option<real> {
    match v
    case JBool(b) => Some(if b then 1.0 else 0.0)
    case JNum(n) => Some(n)
    case _ => None
  }

  /** Python `==` on decoded JSON: numbers and booleans compare by value, everything else structurally. */
  predicate PyEq(a: Json, b: Json)
    ensures a == b ==> PyEq(a, b)
    ensures a.JStr? || b.JStr? ==> (PyEq(a, b) <==> a == b)
    ensures a.JNum? && b.JNum? ==> (PyEq(a, b) <==> a.n == b.n)
    ensures a.JNum? && b.JBool? ==> (PyEq(a, b) <==> a.n == if b.b then 1.0 else 0.0)
    ensures a.JNull? ==> (PyEq(a, b) <==> b.JNull?)
  {
    if NumericValue(a).Some? || NumericValue(b).Some? then NumericValue(a) == NumericValue(b) else a == b
  }

  lemma PyEqIsEquivalence(a: Json, b: Json, c: Json)
    ensures PyEq(a, a)
    ensures PyEq(a, b) ==> PyEq(b, a)
    ensures PyEq(a, b) && PyEq(b, c) ==> PyEq(a, c)
  {
  }

  /** `d.get(key, default)` on a JSON object. */
  function GetOr(d: map<string, Json>, key: string, default: Json): (v: Json)
    ensures key in d ==> v == d[key]
    ensures key !in d ==> v == default
  {
    if key in d then d[key] else default
  }

  /** What a Python coercion gives: a value, or the exception it raises. */
  datatype Coerced<T> = Value(value: T) | ValueError | TypeError

  /** Python `int(x)` of a float: truncation toward zero. */
  function Truncate(r: real): (t: int)
    ensures 0.0 <= r ==> 0 <= t && t as real <= r < t as real + 1.0
    ensures r < 0.0 ==> t <= 0 && t as real - 1.0 < r <= t as real
  {
    if r >= 0.0 then r.Floor else -((-r).Floor)
  }

  /** Python `int(v)` on a decoded JSON value. */
  function IntOf(v: Json): (c: Coerced<int>)
    ensures v.JBool? ==> c == Value(if v.b then 1 else 0)
    ensures v.JNum? ==> c == Value(Truncate(v.n))
    ensures v.JStr? ==> (c.Value? <==> ParseInt(v.s).Some?)
    ensures v.JStr? && c.Value? ==> Some(c.value) == ParseInt(v.s)
    ensures c.TypeError? <==> v.JNull? || v.JArray? || v.JObject?
  {
    match v
    case JNull => TypeError
    case JBool(b) => Value(if b then 1 else 0)
    case JNum(n) => Value(Truncate(n))
    case JStr(s) => (match ParseInt(s) case Some(i) => Value(i) case None => ValueError)
    case JArray(_) => TypeError
    case JObject(_) => TypeError
  }

  /** Python `float(v)` on a decoded JSON value (exactly, without binary rounding). */
  function FloatOf(v: Json): (c: Coerced<real>)
    ensures v.JBool? ==> c == Value(if v.b then 1.0 else 0.0)
    ensures v.JNum? ==> c == Value(v.n)
    ensures v.JStr? ==> (c.Value? <==> ParseDecimal(v.s).Some?)
    ensures v.JStr? && c.Value? ==> Some(c.value) == ParseDecimal(v.s)
    ensures c.TypeError? <==> v.JNull? || v.JArray? || v.JObject?
  {
    match v
    case JNull => TypeError
    case JBool(b) => Value(if b then 1.0 else 0.0)
    case JNum(n) => Value(n)
    case JStr(s) => (match ParseDecimal(s) case Some(r) => Value(r) case None => ValueError)
    case JArray(_) => TypeError
    case JObject(_) => TypeError
  }

  // ---------------------------------------------------------------------------
  // Numeric literals inside strings: an optional sign, ASCII digits and, for
  // float(), an optional fraction.

  predicate IsDigit(c: char) {
    '0' <= c <= '9'
  }

  predicate AllDigits(s: string) {
    forall i :: 0 <= i < |s| ==> IsDigit(s[i])
  }

  /** The number a run of decimal digits denotes, most significant first. */
  function DigitsValue(s: string): nat
    requires AllDigits(s)
  {
    if s == [] then 0 else 10 * DigitsValue(s[..|s| - 1]) + (s[|s| - 1] as int - '0' as int)
  }

  function Pow10(k: nat): (p: nat)
    ensures p > 0
  {
    if k == 0 then 1 else 10 * Pow10(k - 1)
  }

  /** Splits off a leading `+` or `-`; the boolean says whether the number is negated. */
  function Sign(s: string): (bool, string) {
    if |s| > 0 && (s[0] == '-' || s[0] == '+') then (s[0] == '-', s[1..]) else (false, s)
  }

  function Signed(negative: bool, r: real): real {
    if negative then -r else r
  }

  /**
   * CPython's default `sys.get_int_max_str_digits()`: `int()` raises
   * ValueError on a decimal string with more digits than this, and `str()`
   * refuses to render an integer that has more.
   */
  const MaxStrDigits: nat := 4300

  /** The integer literals `int()` accepts: a sign, then between one and `MaxStrDigits` digits. */
  function ParseInt(s: string): (r: Option<int>)
    ensures r.Some? <==> 0 < |Sign(s).1| <= MaxStrDigits && AllDigits(Sign(s).1)
    ensures r.Some? && r.value < 0 ==> s[0] == '-'
    ensures r.Some? && AllDigits(s) ==> r.value >= 0
  {
    var (negative, body) := Sign(s);
    if 0 < |body| <= MaxStrDigits && AllDigits(body) then
      var magnitude: int := DigitsValue(body);
      Some(if negative then -magnitude else magnitude)
    else None
  }

  /** Index of the first `.` in `s`, or `|s|` when there is none. */
  function FindDot(s: string): (k: nat)
    ensures k <= |s|
    ensures k < |s| ==> s[k] == '.'
    ensures forall i :: 0 <= i < k ==> s[i] != '.'
  {
    if s == [] || s[0] == '.' then 0 else 1 + FindDot(s[1..])
  }

  /** Digits with at most one `.` among them and at least one digit (`5`, `5.`, `.5`, `5.25`). */
  predicate DecimalShape(b: string) {
    && (forall i :: 0 <= i < |b| ==> IsDigit(b[i]) || b[i] == '.')
    && (forall i, j :: 0 <= i < j < |b| && b[i] == '.' ==> b[j] != '.')
    && (exists i :: 0 <= i < |b| && IsDigit(b[i]))
  }

  /** Splitting at the first `.` gives two digit runs, not both empty, exactly for a decimal shape. */
  lemma DecimalShapeSplit(b: string)
    ensures var k := FindDot(b);
      DecimalShape(b) <==>
        && AllDigits(b[..k])
        && AllDigits(if k < |b| then b[k + 1..] else [])
        && |b[..k]| + |if k < |b| then b[k + 1..] else []| > 0
  {
    var k := FindDot(b);
    var whole, fraction := b[..k], if k < |b| then b[k + 1..] else [];
    if DecimalShape(b) {
      assert AllDigits(whole) by {
        forall i | 0 <= i < |whole| ensures IsDigit(whole[i]) {
          assert whole[i] == b[i];
        }
      }
      assert AllDigits(fraction) by {
        forall i | 0 <= i < |fraction| ensures IsDigit(fraction[i]) {
          assert fraction[i] == b[k + 1 + i];
        }
      }
      var d :| 0 <= d < |b| && IsDigit(b[d]);
      if d < k {
        assert |whole| > 0;
      } else {
        assert d > k && |fraction| > 0;
      }
    }
    if AllDigits(whole) && AllDigits(fraction) && |whole| + |fraction| > 0 {
      forall i | 0 <= i < |b| ensures IsDigit(b[i]) || b[i] == '.' {
        if i < k {
          assert b[i] == whole[i];
        } else if i > k {
          assert b[i] == fraction[i - k - 1];
        }
      }
      forall m | k < m < |b| ensures IsDigit(b[m]) {
        assert b[m] == fraction[m - k - 1];
      }
      if |whole| > 0 {
        assert IsDigit(b[0]) by { assert b[0] == whole[0]; }
      } else {
        assert IsDigit(b[k + 1]) by { assert b[k + 1] == fraction[0]; }
      }
    }
  }

  /** The number `whole.fraction` denotes. */
  function DecimalValue(whole: string, fraction: string): real
    requires AllDigits(whole) && AllDigits(fraction)
  {
    DigitsValue(whole) as real + DigitsValue(fraction) as real / Pow10(|fraction|) as real
  }

  /** The decimal literals `float()` accepts: a sign, then a decimal shape. */
  function ParseDecimal(s: string): (r: Option<real>)
    ensures r.Some? <==> DecimalShape(Sign(s).1)
    ensures r.Some? && r.value < 0.0 ==> s[0] == '-'
    ensures r.Some? && AllDigits(s) && |s| > 0 ==> r.value >= 0.0
  {
    var (negative, body) := Sign(s);
    var k := FindDot(body);
    var whole, fraction := body[..k], if k < |body| then body[k + 1..] else [];
    DecimalShapeSplit(body);
    if !AllDigits(whole) || !AllDigits(fraction) || |whole| + |fraction| == 0 then None
    else Some(Signed(negative, DecimalValue(whole, fraction)))
  }

  /** The digits of `w` followed by those of `f` denote `w` shifted left by `|f|` places, plus `f`. */
  lemma {:induction false} DigitsValueAppend(w: string, f: string)
    requires AllDigits(w) && AllDigits(f)
    ensures AllDigits(w + f)
    ensures DigitsValue(w + f) == DigitsValue(w) * Pow10(|f|) + DigitsValue(f)
    decreases |f|
  {
    if f == [] {
      assert w + f == w;
    } else {
      var init := f[..|f| - 1];
      DigitsValueAppend(w, init);
      assert (w + f)[..|w + f| - 1] == w + init;
      var d := f[|f| - 1] as int - '0' as int;
      calc {
        DigitsValue(w + f);
        10 * DigitsValue(w + init) + d;
        10 * (DigitsValue(w) * Pow10(|init|) + DigitsValue(init)) + d;
        { assert 10 * (DigitsValue(w) * Pow10(|init|)) == DigitsValue(w) * (10 * Pow10(|init|)); }
        DigitsValue(w) * Pow10(|f|) + DigitsValue(f);
      }
    }
  }

  /** `n = a·p + b` read as a whole part `a` and a fraction `b/p`. */
  lemma ScaleBack(n: nat, a: nat, b: nat, p: nat)
    requires p > 0 && n == a * p + b
    ensures a as real + b as real / p as real == n as real / p as real
  {
    assert (a * p) as real == a as real * p as real;
  }

  /** Where a literal `w.f` made of two digit runs splits. */
  lemma DotSplit(w: string, f: string)
    requires AllDigits(w) && AllDigits(f)
    ensures Sign(w + "." + f) == (false, w + "." + f)
    ensures FindDot(w + "." + f) == |w|
    ensures (w + "." + f)[..|w|] == w && (w + "." + f)[|w| + 1..] == f
  {
    var s := w + "." + f;
    assert s[|w|] == '.';
    assert s[0] != '-' && s[0] != '+' by {
      if |w| > 0 { assert s[0] == w[0]; }
    }
    forall i | 0 <= i < |w| ensures s[i] != '.' {
      assert s[i] == w[i];
    }
  }

  /** How `ParseDecimal` reads a literal `w.f` made of two digit runs. */
  lemma ParseDecimalOfParts(w: string, f: string)
    requires AllDigits(w) && AllDigits(f) && |w| + |f| > 0
    ensures ParseDecimal(w + "." + f) == Some(DecimalValue(w, f))
  {
    DotSplit(w, f);
  }

  lemma DecimalValueScaled(w: string, f: string)
    requires AllDigits(w) && AllDigits(f)
    ensures AllDigits(w + f)
    ensures DecimalValue(w, f) == DigitsValue(w + f) as real / Pow10(|f|) as real
  {
    DigitsValueAppend(w, f);
    ScaleBack(DigitsValue(w + f), DigitsValue(w), DigitsValue(f), Pow10(|f|));
  }

  /**
   * The value of an accepted literal `w.f`: scaled by ten to the number of
   * fraction digits, it is the integer the digits of `w` and `f` spell.
   */
  lemma ParseDecimalValue(w: string, f: string)
    requires AllDigits(w) && AllDigits(f) && |w| + |f| > 0
    ensures AllDigits(w + f)
    ensures ParseDecimal(w + "." + f) == Some(DigitsValue(w + f) as real / Pow10(|f|) as real)
  {
    ParseDecimalOfParts(w, f);
    DecimalValueScaled(w, f);
  }

  // ---------------------------------------------------------------------------
  // Partners of the parsers: decimal rendering (Python `str` of an int), and
  // agreement of the two parsers on integer literals.

  function Digit(d: nat): (c: char)
    requires d < 10
    ensures IsDigit(c) && c as int - '0' as int == d
  {
    ('0' as int + d) as char
  }

  /** The decimal digits of a natural number, without leading zeros. */
  function ShowNat(n: nat): string
    decreases n
  {
    if n < 10 then [Digit(n)] else ShowNat(n / 10) + [Digit(n % 10)]
  }

  /** Python `str(i)` for an integer. */
  function ShowInt(i: int): string {
    if i < 0 then "-" + ShowNat(-i) else ShowNat(i)
  }

  lemma {:induction false} ShowNatDigits(n: nat)
    ensures |ShowNat(n)| > 0 && AllDigits(ShowNat(n))
    ensures DigitsValue(ShowNat(n)) == n
    decreases n
  {
    if n >= 10 {
      ShowNatDigits(n / 10);
      var s := ShowNat(n);
      assert s[..|s| - 1] == ShowNat(n / 10);
    }
  }

  /**
   * `int(str(i)) == i`: the integer parser inverts decimal rendering for
   * every integer of at most `MaxStrDigits` digits, and refuses the
   * rendering of every longer one.
   */
  lemma ParseShowInt(i: int)
    ensures |ShowNat(if i < 0 then -i else i)| <= MaxStrDigits ==> ParseInt(ShowInt(i)) == Some(i)
    ensures |ShowNat(if i < 0 then -i else i)| > MaxStrDigits ==> ParseInt(ShowInt(i)) == None
  {
    if i < 0 {
      ShowNatDigits(-i);
      assert Sign(ShowInt(i)) == (true, ShowNat(-i));
    } else {
      ShowNatDigits(i);
      assert Sign(ShowInt(i)) == (false, ShowNat(i));
    }
  }

  /** `float(s) == int(s)` for every string `int()` accepts. */
  lemma ParseDecimalExtendsParseInt(s: string)
    requires ParseInt(s).Some?
    ensures ParseDecimal(s) == Some(ParseInt(s).value as real)
  {
    var (negative, body) := Sign(s);
    assert FindDot(body) == |body| by {
      assert forall i :: 0 <= i < |body| ==> body[i] != '.';
    }
    assert body[..|body|] == body;
  }
}
