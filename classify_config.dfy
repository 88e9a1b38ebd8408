/** `config_options` and `parse_data` of tomominer/classify/classify_config.py.
    The JSON documents arrive already loaded, as Python 2 values: every
    string `json.load` yields is a `unicode` object.  `in`, indexing,
    `int()`, `float()` and `str()` on them raise the exceptions Python 2
    raises on the wrong kind of value; the text `str()` gives for a float,
    a list or a dict is a parameter (`render`), and so is `abspath`. */
module ClassifyConfig {
  import opened Py

  // ----- Python operations on JSON values -----

  /** `t in s` for strings: `t` occurs somewhere in `s`. */
  predicate IsSubstring(t: string, s: string)
    decreases |s|
  {
    t <= s || (|s| > 0 && IsSubstring(t, s[1..]))
  }

  /** `key in v`. */
  function In(key: string, v: Value): Result<bool>
  {
    match v
    case VDict(entries) => Ok(key in entries)
    case VList(items) => Ok(VStr(key) in items)
    case VStr(s) => Ok(IsSubstring(key, s))
    case _ => Err("argument of type '" + TypeName(v) + "' is not iterable")
  }

  /** `v[key]` for a string key. */
  function Index(v: Value, key: string): (r: Result<Value>)
    ensures r.Ok? <==> v.VDict? && key in v.entries
  {
    match v
    case VDict(entries) => if key in entries then Ok(entries[key]) else Err("KeyError: '" + key + "'")
    case VList(_) => Err("list indices must be integers, not str")
    case VStr(_) => Err("string indices must be integers, not str")
    case _ => Err("'" + TypeName(v) + "' object has no attribute '__getitem__'")
  }

  /** `v[key] if key in v else absent`, the pattern every lookup here uses.
      A list or string that contains the key cannot be indexed by it. */
  function Get(v: Value, key: string): (r: Result<Option<Value>>)
    ensures v.VDict? ==> r == Ok(if key in v.entries then Some(v.entries[key]) else None)
    ensures r.Ok? && r.value.Some? ==> v.VDict?
  {
    match In(key, v)
    case Err(msg) => Err(msg)
    case Ok(false) => Ok(None)
    case Ok(true) =>
      match Index(v, key)
      case Err(msg) => Err(msg)
      case Ok(x) => Ok(Some(x))
  }

  /** `v[i]` for a non-negative integer index. */
  function At(v: Value, i: nat): Result<Value>
  {
    match v
    case VList(items) => if i < |items| then Ok(items[i]) else Err("list index out of range")
    case VStr(s) => if i < |s| then Ok(VStr([s[i]])) else Err("string index out of range")
    case VDict(_) => Err("KeyError: " + NatToString(i))
    case _ => Err("'" + TypeName(v) + "' object has no attribute '__getitem__'")
  }

  predicate AllDigits(s: string)
  {
    forall k :: 0 <= k < |s| ==> '0' <= s[k] <= '9'
  }

  /** The value of the decimal digits `s[lo..hi]`, or `None` when that
      range holds anything else. */
  function DigitsIn(s: string, lo: nat, hi: nat): Option<nat>
    requires lo <= hi <= |s|
    decreases hi
  {
    if hi == lo then Some(0)
    else
      match DigitsIn(s, lo, hi - 1)
      case None => None
      case Some(v) => if '0' <= s[hi - 1] <= '9' then Some(v * 10 + (s[hi - 1] as int - '0' as int)) else None
  }

  /** C's `isspace` in the default locale: space, tab, newline, vertical
      tab, form feed and carriage return. */
  predicate IsSpace(c: char)
  {
    c == ' ' || '\t' <= c <= '\r'
  }

  /** The first position of `s[i..hi]` that does not hold whitespace, or
      `hi`. */
  function SkipSpaces(s: string, i: nat, hi: nat): (k: nat)
    requires i <= hi <= |s|
    ensures i <= k <= hi
    decreases hi - i
  {
    if i < hi && IsSpace(s[i]) then SkipSpaces(s, i + 1, hi) else i
  }

  /** The end of `s[lo..j]` once its trailing whitespace is dropped. */
  function TrimEnd(s: string, lo: nat, j: nat): (k: nat)
    requires lo <= j <= |s|
    ensures lo <= k <= j
  {
    if j > lo && IsSpace(s[j - 1]) then TrimEnd(s, lo, j - 1) else j
  }

  /** An optional sign and at least one decimal digit, nothing else, in
      `s[lo..hi]`: the exponent of a float literal. */
  function DecimalIn(s: string, lo: nat, hi: nat): Option<int>
    requires lo <= hi <= |s|
  {
    var signed := lo < hi && (s[lo] == '-' || s[lo] == '+');
    var start := if signed then lo + 1 else lo;
    var v := DigitsIn(s, start, hi);
    if start < hi && v.Some? then Some(if signed && s[lo] == '-' then -(v.value as int) else v.value)
    else None
  }

  /** What `int(s)` accepts in base 10 under Python 2, read over ASCII:
      surrounding whitespace, an optional sign, whitespace after the sign,
      and at least one digit. */
  function IntLiteral(s: string): Option<int>
  {
    var lo := SkipSpaces(s, 0, |s|);
    var hi := TrimEnd(s, lo, |s|);
    var signed := lo < hi && (s[lo] == '-' || s[lo] == '+');
    var start := if signed then SkipSpaces(s, lo + 1, hi) else lo;
    var v := DigitsIn(s, start, hi);
    if start < hi && v.Some? then Some(if signed && s[lo] == '-' then -(v.value as int) else v.value)
    else None
  }

  /** The position of the first `c` in `s[i..hi]`, or `hi`. */
  function Find(s: string, c: char, i: nat, hi: nat): (k: nat)
    requires i <= hi <= |s|
    ensures i <= k <= hi && (k < hi ==> s[k] == c)
    decreases hi - i
  {
    if i == hi then hi else if s[i] == c then i else Find(s, c, i + 1, hi)
  }

  function Pow10(n: nat): (p: nat)
    ensures p >= 1
  {
    if n == 0 then 1 else 10 * Pow10(n - 1)
  }

  /** `x` times ten to the power `e`. */
  function Scale(x: real, e: int): real
    decreases if e >= 0 then e else -e
  {
    if e == 0 then x
    else if e > 0 then Scale(x, e - 1) * 10.0
    else Scale(x, e + 1) / 10.0
  }

  /** The digits of a float literal in `s[lo..hi]`, with at most one
      decimal point and at least one digit: the digits on both sides of
      the point read as one number, scaled down by the number of digits
      after the point. */
  function Mantissa(s: string, lo: nat, hi: nat): Option<real>
    requires lo <= hi <= |s|
  {
    var d := Find(s, '.', lo, hi);
    var f: nat := if d < hi then hi - (d + 1) else 0;
    var whole := DigitsIn(s, lo, d);
    var frac := DigitsIn(s, hi - f, hi);
    if (d - lo) + f >= 1 && whole.Some? && frac.Some? then Some(Scale((whole.value * Pow10(f) + frac.value) as real, -(f as int)))
    else None
  }

  /** The position of the exponent marker `e` or `E` in `s[lo..hi]`, or
      `hi`. */
  function ExponentMark(s: string, lo: nat, hi: nat): (k: nat)
    requires lo <= hi <= |s|
    ensures lo <= k <= hi
  {
    if Find(s, 'E', lo, hi) < Find(s, 'e', lo, hi) then Find(s, 'E', lo, hi) else Find(s, 'e', lo, hi)
  }

  /** A float literal after its sign, in `s[lo..hi]`: the mantissa, then
      an optional exponent. */
  function UnsignedFloat(s: string, lo: nat, hi: nat): Option<real>
    requires lo <= hi <= |s|
  {
    var k := ExponentMark(s, lo, hi);
    var e := if k < hi then DecimalIn(s, k + 1, hi) else Some(0);
    match Mantissa(s, lo, k)
    case None => None
    case Some(m) => if e.Some? then Some(Scale(m, e.value)) else None
  }

  /** A float literal without surrounding whitespace, in `s[lo..hi]`: an
      optional sign, then the unsigned literal. */
  function SignedFloat(s: string, lo: nat, hi: nat): Option<real>
    requires lo <= hi <= |s|
  {
    var signed := lo < hi && (s[lo] == '-' || s[lo] == '+');
    var x := UnsignedFloat(s, if signed then lo + 1 else lo, hi);
    if x.Some? && signed && s[lo] == '-' then Some(-x.value) else x
  }

  /** The finite values `float(s)` accepts under Python 2, read over
      ASCII: surrounding whitespace, an optional sign, digits with at most
      one decimal point and at least one digit, and an optional exponent. */
  function FloatLiteral(s: string): Option<real>
  {
    var lo := SkipSpaces(s, 0, |s|);
    SignedFloat(s, lo, TrimEnd(s, lo, |s|))
  }

  /** `int(v)`: floats truncate toward zero. */
  function IntOf(v: Value): (r: Result<int>)
    ensures v.VInt? ==> r == Ok(v.i)
    ensures v.VFloat? ==> r.Ok? && -1.0 < v.r - r.value as real < 1.0
    ensures v.VFloat? && v.r >= 0.0 ==> r.Ok? && 0 <= r.value && r.value as real <= v.r
    ensures v.VFloat? && v.r < 0.0 ==> r.Ok? && r.value <= 0 && v.r <= r.value as real
  {
    match v
    case VBool(b) => Ok(if b then 1 else 0)
    case VInt(i) => Ok(i)
    case VFloat(x) => Ok(if x >= 0.0 then x.Floor else -((-x).Floor))
    case VStr(s) =>
      if IntLiteral(s).Some? then Ok(IntLiteral(s).value)
      else Err("invalid literal for int() with base 10: '" + s + "'")
    case _ => Err("int() argument must be a string or a number, not '" + TypeName(v) + "'")
  }

  /** `float(v)`. */
  function FloatOf(v: Value): (r: Result<real>)
    ensures v.VFloat? ==> r == Ok(v.r)
    ensures v.VInt? ==> r == Ok(v.i as real)
  {
    match v
    case VBool(b) => Ok(if b then 1.0 else 0.0)
    case VInt(i) => Ok(i as real)
    case VFloat(x) => Ok(x)
    case VStr(s) =>
      if FloatLiteral(s).Some? then Ok(FloatLiteral(s).value)
      else Err("could not convert string to float: " + s)
    case _ => Err("float() argument must be a string or a number")
  }

  predicate IsAscii(s: string)
  {
    forall k :: 0 <= k < |s| ==> s[k] as int < 128
  }

  /** The text `str()` gives for a float, a list or a dict. */
  type Render = Value -> string

  /** `str(u)` of a `unicode` string: its ASCII encoding, which fails on
      any other character. */
  function Encode(u: string): (r: Result<string>)
    ensures r.Ok? <==> IsAscii(u)
    ensures r.Ok? ==> r.value == u
  {
    if IsAscii(u) then Ok(u)
    else Err("'ascii' codec can't encode character: ordinal not in range(128)")
  }

  /** `str(v)` under Python 2.  A JSON string is `unicode`. */
  function Str(v: Value, render: Render): (r: Result<string>)
    ensures v.VStr? ==> r == Encode(v.s)
    ensures !v.VStr? ==> r.Ok?
  {
    match v
    case VNone => Ok("None")
    case VBool(b) => Ok(if b then "True" else "False")
    case VInt(i) => Ok(IntToString(i))
    case VStr(s) => Encode(s)
    case _ => Ok(render(v))
  }

  // ----- properties of the conversions -----

  /** `DigitsIn` accepts exactly the digit strings, with their value. */
  lemma {:induction false} DigitsInValue(s: string, n: nat)
    requires n <= |s|
    ensures DigitsIn(s, 0, n) == if AllDigits(s[..n]) then Some(DigitsValue(s[..n])) else None
  {
    if n > 0 {
      DigitsInValue(s, n - 1);
      var p := s[..n];
      var q := s[..n - 1];
      assert p[..n - 1] == q && p[n - 1] == s[n - 1];
      if AllDigits(p) {
        assert AllDigits(q) by {
          forall k | 0 <= k < |q| ensures '0' <= q[k] <= '9' {
            assert q[k] == p[k];
          }
        }
      } else if AllDigits(q) {
        assert !('0' <= s[n - 1] <= '9') by {
          if '0' <= s[n - 1] <= '9' {
            forall k | 0 <= k < |p| ensures '0' <= p[k] <= '9' {
              if k < n - 1 { assert p[k] == q[k]; }
            }
          }
        }
      }
    }
  }

  /** A whole digit string reads as its value. */
  lemma {:induction false} DigitsRead(d: string)
    requires AllDigits(d)
    ensures DigitsIn(d, 0, |d|) == Some(DigitsValue(d))
  {
    DigitsInValue(d, |d|);
    assert d[..|d|] == d;
  }

  /** Digits read the same after any prefix. */
  lemma {:induction false} DigitsInSuffix(p: string, t: string, lo: nat, hi: nat)
    requires lo <= hi <= |t|
    ensures DigitsIn(p + t, |p| + lo, |p| + hi) == DigitsIn(t, lo, hi)
    decreases hi
  {
    if lo < hi {
      DigitsInSuffix(p, t, lo, hi - 1);
      assert (p + t)[|p| + (hi - 1)] == t[hi - 1];
    }
  }

  /** Digits read the same before any suffix. */
  lemma {:induction false} DigitsInPrefix(a: string, r: string, lo: nat, hi: nat)
    requires lo <= hi <= |a|
    ensures DigitsIn(a + r, lo, hi) == DigitsIn(a, lo, hi)
    decreases hi
  {
    if lo < hi {
      DigitsInPrefix(a, r, lo, hi - 1);
      assert (a + r)[hi - 1] == a[hi - 1];
    }
  }

  /** The first position of `c` from `i` on is the one before which, from
      `i`, no `c` occurs. */
  lemma {:induction false} FindFirst(s: string, c: char, i: nat, hi: nat, k: nat)
    requires i <= k <= hi <= |s| && (k < hi ==> s[k] == c)
    requires forall j :: i <= j < k ==> s[j] != c
    ensures Find(s, c, i, hi) == k
    decreases k - i
  {
    if i < k {
      FindFirst(s, c, i + 1, hi, k);
    }
  }

  /** Searching for a character gives the same place after any prefix. */
  lemma {:induction false} FindSuffix(p: string, t: string, c: char, i: nat, hi: nat)
    requires i <= hi <= |t|
    ensures Find(p + t, c, |p| + i, |p| + hi) == |p| + Find(t, c, i, hi)
    decreases hi - i
  {
    if i < hi {
      assert (p + t)[|p| + i] == t[i];
      if t[i] != c {
        FindSuffix(p, t, c, i + 1, hi);
      }
    }
  }

  lemma {:induction false} DecimalSuffix(p: string, t: string, lo: nat, hi: nat)
    requires lo <= hi <= |t|
    ensures DecimalIn(p + t, |p| + lo, |p| + hi) == DecimalIn(t, lo, hi)
  {
    if lo < hi {
      assert (p + t)[|p| + lo] == t[lo];
      DigitsInSuffix(p, t, lo + 1, hi);
    }
    DigitsInSuffix(p, t, lo, hi);
  }

  lemma {:induction false} MantissaSuffix(p: string, t: string, lo: nat, hi: nat)
    requires lo <= hi <= |t|
    ensures Mantissa(p + t, |p| + lo, |p| + hi) == Mantissa(t, lo, hi)
  {
    FindSuffix(p, t, '.', lo, hi);
    var d := Find(t, '.', lo, hi);
    var f: nat := if d < hi then hi - (d + 1) else 0;
    DigitsInSuffix(p, t, lo, d);
    DigitsInSuffix(p, t, hi - f, hi);
  }

  /** An unsigned float literal reads the same after any prefix. */
  lemma {:induction false} UnsignedSuffix(p: string, t: string, lo: nat, hi: nat)
    requires lo <= hi <= |t|
    ensures UnsignedFloat(p + t, |p| + lo, |p| + hi) == UnsignedFloat(t, lo, hi)
  {
    FindSuffix(p, t, 'e', lo, hi);
    FindSuffix(p, t, 'E', lo, hi);
    var k := ExponentMark(t, lo, hi);
    if k < hi {
      DecimalSuffix(p, t, k + 1, hi);
    }
    MantissaSuffix(p, t, lo, k);
  }

  /** A digit string reads as its value with `float()`'s grammar. */
  lemma {:induction false} DigitsUnsigned(d: string)
    requires d != [] && AllDigits(d)
    ensures UnsignedFloat(d, 0, |d|) == Some(DigitsValue(d) as real)
  {
    FindFirst(d, 'e', 0, |d|, |d|);
    FindFirst(d, 'E', 0, |d|, |d|);
    FindFirst(d, '.', 0, |d|, |d|);
    DigitsRead(d);
  }

  /** `float()` of a minus sign and text that does not end in whitespace
      is the negated value of the text read after a sign. */
  lemma {:induction false} NegativeFloatRead(u: string)
    requires u != [] ==> !IsSpace(u[|u| - 1])
    ensures FloatLiteral("-" + u) == (if UnsignedFloat(u, 0, |u|).Some? then Some(-UnsignedFloat(u, 0, |u|).value) else None)
  {
    var s := "-" + u;
    assert s[0] == '-' && s[|s| - 1] == (if u == [] then '-' else u[|u| - 1]);
    UnsignedSuffix("-", u, 0, |u|);
  }

  /** A digit string reads with `int()` as its value. */
  lemma {:induction false} DigitsIntRead(d: string, n: nat)
    requires d != [] && AllDigits(d) && DigitsValue(d) == n
    ensures IntLiteral(d) == Some(n)
  {
    assert '0' <= d[0] <= '9' && '0' <= d[|d| - 1] <= '9';
    DigitsRead(d);
  }

  /** A digit string after a minus sign reads with `int()` as the negated
      value. */
  lemma {:induction false} NegatedIntRead(d: string, i: int)
    requires d != [] && AllDigits(d) && DigitsValue(d) == -i
    ensures IntLiteral("-" + d) == Some(i)
  {
    var s := "-" + d;
    assert s[0] == '-' && '0' <= s[1] <= '9' && '0' <= s[|s| - 1] <= '9';
    DigitsInSuffix("-", d, 0, |d|);
    DigitsRead(d);
  }

  /** A digit string reads with `float()` as its value. */
  lemma {:induction false} DigitsFloatRead(d: string, n: nat)
    requires d != [] && AllDigits(d) && DigitsValue(d) == n
    ensures FloatLiteral(d) == Some(n as real)
  {
    assert '0' <= d[0] <= '9' && '0' <= d[|d| - 1] <= '9';
    DigitsUnsigned(d);
  }

  /** A digit string after a minus sign reads with `float()` as the
      negated value. */
  lemma {:induction false} NegatedFloatRead(d: string, i: int)
    requires d != [] && AllDigits(d) && DigitsValue(d) == -i
    ensures FloatLiteral("-" + d) == Some(i as real)
  {
    assert '0' <= d[|d| - 1] <= '9';
    DigitsUnsigned(d);
    NegativeFloatRead(d);
  }

  /** `str()` of an int reads back with `int()` and `float()` to the same
      number. */
  lemma {:induction false} StrIntRoundTrip(i: int, render: Render)
    ensures Str(VInt(i), render) == Ok(IntToString(i))
    ensures IntOf(VStr(IntToString(i))) == Ok(i)
    ensures FloatOf(VStr(IntToString(i))) == Ok(i as real)
  {
    IntToStringReads(i);
    LiteralReads(IntToString(i), i);
  }

  lemma {:induction false} IntToStringReads(i: int)
    ensures IntLiteral(IntToString(i)) == Some(i)
    ensures FloatLiteral(IntToString(i)) == Some(i as real)
  {
    if i < 0 {
      NegativeStringReads(i);
    } else {
      NatStringReads(i);
    }
  }

  /** `str(i)` of a number that is not negative reads back to `i`. */
  lemma {:induction false} NatStringReads(i: int)
    requires i >= 0
    ensures IntLiteral(IntToString(i)) == Some(i)
    ensures FloatLiteral(IntToString(i)) == Some(i as real)
  {
    NatToStringRoundTrip(i);
    DigitsIntRead(NatToString(i), i);
    DigitsFloatRead(NatToString(i), i);
  }

  /** `str(i)` of a negative number reads back to `i`. */
  lemma {:induction false} NegativeStringReads(i: int)
    requires i < 0
    ensures IntLiteral(IntToString(i)) == Some(i)
    ensures FloatLiteral(IntToString(i)) == Some(i as real)
  {
    NatToStringRoundTrip(-i);
    NegatedIntRead(NatToString(-i), i);
    NegatedFloatRead(NatToString(-i), i);
  }

  lemma {:induction false} LiteralReads(s: string, i: int)
    requires IntLiteral(s) == Some(i) && FloatLiteral(s) == Some(i as real)
    ensures IntOf(VStr(s)) == Ok(i) && FloatOf(VStr(s)) == Ok(i as real)
  {
  }

  /** `float("a.b")` for digit strings `a` and `b` is `a` plus `b` tenths,
      hundredths and so on. */
  lemma {:induction false} FloatOfDecimal(a: string, b: string)
    requires AllDigits(a) && AllDigits(b) && |a| + |b| >= 1
    ensures FloatOf(VStr(a + "." + b)) == Ok(DigitsValue(a) as real + DigitsValue(b) as real / Pow10(|b|) as real)
  {
    DecimalRead(a, b);
    ScaledFraction(DigitsValue(a), DigitsValue(b), |b|);
  }

  /** `float("a.b")` reads the digits of `a` and `b` as one number and
      scales it down by the length of `b`. */
  lemma {:induction false} DecimalRead(a: string, b: string)
    requires AllDigits(a) && AllDigits(b) && |a| + |b| >= 1
    ensures FloatLiteral(a + "." + b) == Some(Scale((DigitsValue(a) * Pow10(|b|) + DigitsValue(b)) as real, -|b|))
  {
    var s := a + "." + b;
    assert forall j :: 0 <= j < |s| ==> s[j] == '.' || '0' <= s[j] <= '9';
    assert s[0] != '-' && s[0] != '+' && !IsSpace(s[0]) && !IsSpace(s[|s| - 1]);
    FindFirst(s, 'e', 0, |s|, |s|);
    FindFirst(s, 'E', 0, |s|, |s|);
    MantissaPoint(a, b);
  }

  /** The mantissa `a.b` is the digits of `a` and `b` read as one number,
      scaled down by the length of `b`. */
  lemma {:induction false} MantissaPoint(a: string, b: string)
    requires AllDigits(a) && AllDigits(b) && |a| + |b| >= 1
    ensures Mantissa(a + "." + b, 0, |a| + 1 + |b|) == Some(Scale((DigitsValue(a) * Pow10(|b|) + DigitsValue(b)) as real, -|b|))
  {
    PointFound(a, b);
    PointDigits(a, b);
  }

  /** The first '.' of `a.b`, for digits `a`, is the one after `a`. */
  lemma PointFound(a: string, b: string)
    requires AllDigits(a)
    ensures Find(a + "." + b, '.', 0, |a| + 1 + |b|) == |a|
  {
    var s := a + "." + b;
    assert forall j :: 0 <= j < |a| ==> s[j] == a[j];
    assert s[|a|] == '.';
    FindFirst(s, '.', 0, |s|, |a|);
  }

  /** The digits on either side of the point of `a.b` read as `a` and `b`. */
  lemma PointDigits(a: string, b: string)
    requires AllDigits(a) && AllDigits(b)
    ensures DigitsIn(a + "." + b, 0, |a|) == Some(DigitsValue(a))
    ensures DigitsIn(a + "." + b, |a| + 1, |a| + 1 + |b|) == Some(DigitsValue(b))
  {
    WholeDigits(a, b);
    var p := a + ".";
    DigitsInSuffix(p, b, 0, |b|);
    DigitsRead(b);
  }

  lemma WholeDigits(a: string, b: string)
    requires AllDigits(a)
    ensures DigitsIn(a + "." + b, 0, |a|) == Some(DigitsValue(a))
  {
    DigitsInPrefix(a + ".", b, 0, |a|);
    DigitsInPrefix(a, ".", 0, |a|);
    DigitsRead(a);
  }

  lemma {:induction false} ScaledFraction(x: nat, y: nat, k: nat)
    ensures Scale((x * Pow10(k) + y) as real, -(k as int)) == x as real + y as real / Pow10(k) as real
  {
    ScaleDown((x * Pow10(k) + y) as real, k);
    DecimalSplit(x, y, Pow10(k));
  }

  /** Scaling by a negative power of ten divides by that power. */
  lemma {:induction false} ScaleDown(y: real, k: nat)
    ensures Scale(y, -(k as int)) == y / Pow10(k) as real
  {
    if k > 0 {
      ScaleDown(y, k - 1);
      var p := Pow10(k - 1) as real;
      assert Pow10(k) as real == 10.0 * p;
      assert (y / p) / 10.0 == y / (10.0 * p);
    }
  }

  lemma {:induction false} DecimalSplit(x: nat, y: nat, p: nat)
    requires p >= 1
    ensures (x * p + y) as real / p as real == x as real + y as real / p as real
  {
  }

  // ----- config_options -----

  const NoClusterMethod := "No clustering or unrecognized clustering method!"

  /** Every field of a `config_options` object. */
  datatype Options = Options(
    root: string,
    iterations: int,
    logLevel: int,
    dimReductionDims: Value,
    dimReductionMaxFeatures: Value,
    dimReductionIterations: Value,
    dimReductionUseFftAvg: Value,
    gaussSmoothingSigma: real,
    clusterUseFftAvg: bool,
    clusterMinSize: Value,
    doClustering: bool,
    clusterMethod: Option<string>,
    kmeansK: Value,
    kmeansIterations: Value,
    alignCorrThreshold: real,
    givenTemplates: seq<(string, string)>,
    L: int)

  /** The values `__init__` assigns. */
  const Defaults := Options(
    root := "./",
    iterations := 10,
    logLevel := 0,
    dimReductionDims := VInt(100),
    dimReductionMaxFeatures := VInt(1000),
    dimReductionIterations := VInt(15),
    dimReductionUseFftAvg := VBool(true),
    gaussSmoothingSigma := 0.0,
    clusterUseFftAvg := true,
    clusterMinSize := VInt(0),
    doClustering := false,
    clusterMethod := None,
    kmeansK := VInt(0),
    kmeansIterations := VInt(10),
    alignCorrThreshold := 1.0,
    givenTemplates := [],
    L := 36)

  /** `(str(x[0]), str(x[1]))` of one given_templates entry, evaluated
      left to right. */
  function TemplatePair(item: Value, render: Render): Result<(string, string)>
  {
    match At(item, 0)
    case Err(msg) => Err(msg)
    case Ok(first) =>
      match Str(first, render)
      case Err(msg) => Err(msg)
      case Ok(vol) =>
        match At(item, 1)
        case Err(msg) => Err(msg)
        case Ok(second) =>
          match Str(second, render)
          case Err(msg) => Err(msg)
          case Ok(mask) => Ok((vol, mask))
  }

  /** The pairs the given_templates loop appends for indices `i..n`, and
      the exception that stops it, if any. */
  function TemplatesFrom(gts: Value, i: nat, n: nat, render: Render): (seq<(string, string)>, Option<string>)
    decreases n - i
  {
    if i >= n then ([], None)
    else match At(gts, i)
      case Err(msg) => ([], Some(msg))
      case Ok(item) =>
        match TemplatePair(item, render)
        case Err(msg) => ([], Some(msg))
        case Ok(pair) =>
          var rest := TemplatesFrom(gts, i + 1, n, render);
          ([pair] + rest.0, rest.1)
  }

  /** The whole given_templates loop, including `len()`. */
  function Templates(gts: Value, render: Render): (seq<(string, string)>, Option<string>)
  {
    match Length(gts)
    case None => ([], Some("object of type '" + TypeName(gts) + "' has no len()"))
    case Some(n) => TemplatesFrom(gts, 0, n, render)
  }

  /** A list of two-element lists whose entries `str()` accepts is
      appended pair by pair, in order. */
  lemma {:induction false} TemplatesOfPairs(items: seq<Value>, i: nat, render: Render)
    requires i <= |items|
    requires forall k :: 0 <= k < |items| ==> items[k].VList? && |items[k].items| >= 2
    requires forall k :: 0 <= k < |items| ==>
      Str(items[k].items[0], render).Ok? && Str(items[k].items[1], render).Ok?
    ensures TemplatesFrom(VList(items), i, |items|, render).1 == None
    ensures var ps := TemplatesFrom(VList(items), i, |items|, render).0;
      |ps| == |items| - i &&
      forall k :: 0 <= k < |ps| ==>
        ps[k] == (Str(items[i + k].items[0], render).value, Str(items[i + k].items[1], render).value)
    decreases |items| - i
  {
    if i < |items| {
      TemplatesOfPairs(items, i + 1, render);
    }
  }

  /** A template path with a character outside ASCII stops the loop: the
      entry is not appended and `str()`'s exception is raised. */
  lemma {:induction false} TemplatesStopAtNonAscii(items: seq<Value>, i: nat, render: Render)
    requires i < |items| && items[i].VList? && |items[i].items| >= 1
    requires items[i].items[0].VStr? && !IsAscii(items[i].items[0].s)
    ensures TemplatesFrom(VList(items), i, |items|, render) == ([], Some(Encode(items[i].items[0].s).error))
  {
  }

  /** The `cluster` section: the new options and the exception, if any.
      do_clustering is set before anything in the section is read. */
  function Cluster(o: Options, cluster: Value): (Options, Outcome)
  {
    var o := o.(doClustering := true);
    match Get(cluster, "min_size")
    case Err(e) => (o, Raised(e))
    case Ok(minSize) =>
      var o := if minSize.Some? then o.(clusterMinSize := minSize.value) else o;
      match DimensionReduction(o, cluster)
      case (o, Raised(e)) => (o, Raised(e))
      case (o, Completed) => ClusterMethod(o, cluster)
  }

  /** The clustering method of the `cluster` section: 'kmeans' first, then
      'hierarchical', otherwise an exception.  The method is recorded as
      'kmeans' before `cluster['kmeans']` is read, so a section that
      contains the word without being a dict keeps it and raises. */
  function ClusterMethod(o: Options, cluster: Value): (Options, Outcome)
  {
    match In("kmeans", cluster)
    case Err(e) => (o, Raised(e))
    case Ok(hasKmeans) =>
      if hasKmeans then
        var o := o.(clusterMethod := Some("kmeans"));
        match Index(cluster, "kmeans")
        case Err(e) => (o, Raised(e))
        case Ok(kmeans) => Kmeans(o, kmeans)
      // `'kmeans' in cluster` did not raise, so neither does this test.
      else if In("hierarchical", cluster) == Ok(true) then (o.(clusterMethod := Some("hierarchical")), Completed)
      else (o, Raised(NoClusterMethod))
  }

  /** The `kmeans` subsection of `cluster`. */
  function Kmeans(o: Options, kmeans: Value): (Options, Outcome)
  {
    match Get(kmeans, "k")
    case Err(e) => (o, Raised(e))
    case Ok(k) =>
      var o := if k.Some? then o.(kmeansK := k.value) else o;
      match Get(kmeans, "iterations")
      case Err(e) => (o, Raised(e))
      case Ok(it) => (if it.Some? then o.(kmeansIterations := it.value) else o, Completed)
  }

  /** The `dimension_reduction` subsection of `cluster`. */
  function DimensionReduction(o: Options, cluster: Value): (Options, Outcome)
  {
    match Get(cluster, "dimension_reduction")
    case Err(e) => (o, Raised(e))
    case Ok(None) => (o, Completed)
    case Ok(Some(d)) => DimReductionSizes(o, d)
  }

  /** `dims` and `max_features` of the subsection, then the rest. */
  function DimReductionSizes(o: Options, d: Value): (Options, Outcome)
  {
    match Get(d, "dims")
    case Err(e) => (o, Raised(e))
    case Ok(dims) =>
      var o := if dims.Some? then o.(dimReductionDims := dims.value) else o;
      match Get(d, "max_features")
      case Err(e) => (o, Raised(e))
      case Ok(mf) => DimReductionRuns(if mf.Some? then o.(dimReductionMaxFeatures := mf.value) else o, d)
  }

  /** `iterations` and `use_fft_avg` of the subsection. */
  function DimReductionRuns(o: Options, d: Value): (Options, Outcome)
  {
    match Get(d, "iterations")
    case Err(e) => (o, Raised(e))
    case Ok(it) =>
      var o := if it.Some? then o.(dimReductionIterations := it.value) else o;
      match Get(d, "use_fft_avg")
      case Err(e) => (o, Raised(e))
      case Ok(fft) => (if fft.Some? then o.(dimReductionUseFftAvg := fft.value) else o, Completed)
  }

  /** The `template` section. */
  function Template(o: Options, template: Value, render: Render): (Options, Outcome)
  {
    match Get(template, "align_corr_threshold")
    case Err(e) => (o, Raised(e))
    case Ok(t) =>
      if t.Some? && FloatOf(t.value).Err? then (o, Raised(FloatOf(t.value).error))
      else GivenTemplates(if t.Some? then o.(alignCorrThreshold := FloatOf(t.value).value) else o, template, render)
  }

  /** The given_templates entries of the `template` section, appended. */
  function GivenTemplates(o: Options, template: Value, render: Render): (Options, Outcome)
  {
    match Get(template, "given_templates")
    case Err(e) => (o, Raised(e))
    case Ok(None) => (o, Completed)
    case Ok(Some(gts)) =>
      var (pairs, err) := Templates(gts, render);
      (o.(givenTemplates := o.givenTemplates + pairs), if err.None? then Completed else Raised(err.value))
  }

  /** `int(conf[key])` into a field when the key is present. */
  function IntField(conf: map<string, Value>, key: string): Result<Option<int>>
  {
    if key !in conf then Ok(None)
    else match IntOf(conf[key])
      case Err(e) => Err(e)
      case Ok(i) => Ok(Some(i))
  }

  /** `parse_config` on a loaded top-level JSON object: every change made
      before an exception stays made. */
  function Configure(o: Options, conf: map<string, Value>, render: Render): (Options, Outcome)
  {
    var (o, out) := TopLevelInts(o, conf);
    if out.Raised? then (o, out)
    else
      var (o, out) := if "cluster" in conf then Cluster(o, conf["cluster"]) else (o, Completed);
      if out.Raised? then (o, out)
      else
        var (o, out) := if "template" in conf then Template(o, conf["template"], render) else (o, Completed);
        if out.Raised? then (o, out)
        else
          match IntField(conf, "L")
          case Err(e) => (o, Raised(e))
          case Ok(l) => (if l.Some? then o.(L := l.value) else o, Completed)
  }

  /** `iterations` and `log_level`, converted with `int()`. */
  function TopLevelInts(o: Options, conf: map<string, Value>): (Options, Outcome)
  {
    match IntField(conf, "iterations")
    case Err(e) => (o, Raised(e))
    case Ok(it) =>
      var o := if it.Some? then o.(iterations := it.value) else o;
      match IntField(conf, "log_level")
      case Err(e) => (o, Raised(e))
      case Ok(ll) => (if ll.Some? then o.(logLevel := ll.value) else o, Completed)
  }

  /** A document without any of the recognised keys changes nothing. */
  lemma {:induction false} ConfigureEmpty(o: Options, conf: map<string, Value>, render: Render)
    requires "iterations" !in conf && "log_level" !in conf && "cluster" !in conf
    requires "template" !in conf && "L" !in conf
    ensures Configure(o, conf, render) == (o, Completed)
  {
  }

  /** Top-level integers are converted with `int()` and only when present;
      a value `int()` rejects raises before anything else changes. */
  lemma {:induction false} ConfigureTopLevelInts(o: Options, conf: map<string, Value>, render: Render)
    ensures "iterations" in conf && IntOf(conf["iterations"]).Err? ==>
      Configure(o, conf, render) == (o, Raised(IntOf(conf["iterations"]).error))
    ensures Configure(o, conf, render).1.Completed? ==>
      && Configure(o, conf, render).0.iterations == (if "iterations" in conf then IntOf(conf["iterations"]).value else o.iterations)
      && Configure(o, conf, render).0.logLevel == (if "log_level" in conf then IntOf(conf["log_level"]).value else o.logLevel)
      && Configure(o, conf, render).0.L == (if "L" in conf then IntOf(conf["L"]).value else o.L)
  {
    var (o1, out1) := TopLevelInts(o, conf);
    TopLevelIntsRead(o, conf);
    if out1.Completed? {
      var (o2, out2) := if "cluster" in conf then Cluster(o1, conf["cluster"]) else (o1, Completed);
      if "cluster" in conf {
        ClusterKeepsTopLevel(o1, conf["cluster"]);
      }
      if out2.Completed? {
        if "template" in conf {
          TemplateKeepsTopLevel(o2, conf["template"], render);
        }
      }
    }
  }

  /** `iterations` and `log_level` read with `int()`, or the first error. */
  lemma TopLevelIntsRead(o: Options, conf: map<string, Value>)
    ensures var (o1, out1) := TopLevelInts(o, conf);
      && ("iterations" in conf && IntOf(conf["iterations"]).Err? ==>
            (o1, out1) == (o, Raised(IntOf(conf["iterations"]).error)))
      && (out1.Completed? ==>
            && o1.iterations == (if "iterations" in conf then IntOf(conf["iterations"]).value else o.iterations)
            && o1.logLevel == (if "log_level" in conf then IntOf(conf["log_level"]).value else o.logLevel)
            && o1.L == o.L)
  {
  }

  /** The fields converted at the top level. */
  predicate SameTopLevel(a: Options, b: Options)
  {
    a.iterations == b.iterations && a.logLevel == b.logLevel && a.L == b.L
  }

  lemma {:induction false} ClusterKeepsTopLevel(o: Options, c: Value)
    ensures SameTopLevel(Cluster(o, c).0, o)
  {
    var o1 := o.(doClustering := true);
    if Get(c, "min_size").Ok? {
      var o2 := if Get(c, "min_size").value.Some? then o1.(clusterMinSize := Get(c, "min_size").value.value) else o1;
      DimensionReductionKeepsTopLevel(o2, c);
      ClusterMethodKeepsTopLevel(DimensionReduction(o2, c).0, c);
    }
  }

  lemma {:induction false} DimensionReductionKeepsTopLevel(o: Options, c: Value)
    ensures SameTopLevel(DimensionReduction(o, c).0, o)
  {
    var dimRed := Get(c, "dimension_reduction");
    if dimRed.Ok? && dimRed.value.Some? {
      DimReductionSizesKeepsTopLevel(o, dimRed.value.value);
    }
  }

  lemma {:induction false} DimReductionSizesKeepsTopLevel(o: Options, d: Value)
    ensures SameTopLevel(DimReductionSizes(o, d).0, o)
  {
    var dims := Get(d, "dims");
    var mf := Get(d, "max_features");
    if dims.Ok? && mf.Ok? {
      var o1 := if dims.value.Some? then o.(dimReductionDims := dims.value.value) else o;
      var o2 := if mf.value.Some? then o1.(dimReductionMaxFeatures := mf.value.value) else o1;
      DimReductionRunsKeepsTopLevel(o2, d);
    }
  }

  lemma {:induction false} DimReductionRunsKeepsTopLevel(o: Options, d: Value)
    ensures SameTopLevel(DimReductionRuns(o, d).0, o)
  {
  }

  lemma {:induction false} ClusterMethodKeepsTopLevel(o: Options, c: Value)
    ensures SameTopLevel(ClusterMethod(o, c).0, o)
  {
    if In("kmeans", c) == Ok(true) && Index(c, "kmeans").Ok? {
      KmeansKeepsTopLevel(o.(clusterMethod := Some("kmeans")), Index(c, "kmeans").value);
    }
  }

  lemma {:induction false} KmeansKeepsTopLevel(o: Options, k: Value)
    ensures SameTopLevel(Kmeans(o, k).0, o)
  {
  }

  lemma {:induction false} TemplateKeepsTopLevel(o: Options, t: Value, render: Render)
    ensures SameTopLevel(Template(o, t, render).0, o)
  {
  }

  /** A `cluster` object turns clustering on, even when the section is then
      rejected; 'kmeans' wins over 'hierarchical', and a section naming
      neither raises. */
  lemma {:induction false} ClusterMethodChoice(o: Options, cluster: map<string, Value>)
    requires "dimension_reduction" in cluster ==> cluster["dimension_reduction"].VDict?
    requires "kmeans" in cluster ==> cluster["kmeans"].VDict?
    ensures Cluster(o, VDict(cluster)).0.doClustering
    ensures "kmeans" in cluster ==>
      Cluster(o, VDict(cluster)) .0.clusterMethod == Some("kmeans") && Cluster(o, VDict(cluster)).1.Completed?
    ensures "kmeans" !in cluster && "hierarchical" in cluster ==>
      Cluster(o, VDict(cluster)) .0.clusterMethod == Some("hierarchical") && Cluster(o, VDict(cluster)).1.Completed?
    ensures "kmeans" !in cluster && "hierarchical" !in cluster ==>
      Cluster(o, VDict(cluster)) .0.clusterMethod == o.clusterMethod && Cluster(o, VDict(cluster)).1 == Raised(NoClusterMethod)
  {
    var o1 := o.(doClustering := true);
    var o2 := if "min_size" in cluster then o1.(clusterMinSize := cluster["min_size"]) else o1;
    DimensionReductionKeeps(o2, VDict(cluster));
    var o3 := DimensionReduction(o2, VDict(cluster)).0;
    assert Cluster(o, VDict(cluster)) == ClusterMethod(o3, VDict(cluster));
    assert In("hierarchical", VDict(cluster)) == Ok("hierarchical" in cluster);
  }

  /** A `cluster` string or list that contains 'kmeans' records the method
      and then raises, since it cannot be indexed by a string. */
  lemma {:induction false} ClusterKmeansUnindexable(o: Options, cluster: Value)
    requires cluster.VStr? || cluster.VList?
    requires In("kmeans", cluster) == Ok(true)
    ensures ClusterMethod(o, cluster).0 == o.(clusterMethod := Some("kmeans"))
    ensures ClusterMethod(o, cluster).1 == Raised(if cluster.VStr? then "string indices must be integers, not str"
                                                  else "list indices must be integers, not str")
  {
  }

  /** `section[key]` when the dict `section` holds it, else `current`. */
  function Setting(section: map<string, Value>, key: string, current: Value): Value
  {
    if key in section then section[key] else current
  }

  /** The entries of a sub-dict of `cluster`, or none when it is absent. */
  function Subsection(cluster: map<string, Value>, name: string): map<string, Value>
  {
    if name in cluster && cluster[name].VDict? then cluster[name].entries else map[]
  }

  /** Of a `cluster` dict whose subsections are dicts, every recognised
      setting is copied when present and kept otherwise. */
  lemma {:induction false} ClusterFieldsCopied(o: Options, cluster: map<string, Value>)
    requires "dimension_reduction" in cluster ==> cluster["dimension_reduction"].VDict?
    requires "kmeans" in cluster ==> cluster["kmeans"].VDict?
    ensures var o' := Cluster(o, VDict(cluster)).0;
      var dr := Subsection(cluster, "dimension_reduction");
      var km := Subsection(cluster, "kmeans");
      && o'.clusterMinSize == Setting(cluster, "min_size", o.clusterMinSize)
      && o'.dimReductionDims == Setting(dr, "dims", o.dimReductionDims)
      && o'.dimReductionMaxFeatures == Setting(dr, "max_features", o.dimReductionMaxFeatures)
      && o'.dimReductionIterations == Setting(dr, "iterations", o.dimReductionIterations)
      && o'.dimReductionUseFftAvg == Setting(dr, "use_fft_avg", o.dimReductionUseFftAvg)
      && o'.kmeansK == Setting(km, "k", o.kmeansK)
      && o'.kmeansIterations == Setting(km, "iterations", o.kmeansIterations)
  {
    var o1 := o.(doClustering := true);
    var o2 := if "min_size" in cluster then o1.(clusterMinSize := cluster["min_size"]) else o1;
    DimensionReductionKeeps(o2, VDict(cluster));
    DimensionReductionCopies(o2, cluster);
    var o3 := DimensionReduction(o2, VDict(cluster)).0;
    assert Cluster(o, VDict(cluster)) == ClusterMethod(o3, VDict(cluster));
    KmeansCopies(o3, cluster);
  }

  lemma {:induction false} DimensionReductionCopies(o: Options, cluster: map<string, Value>)
    requires "dimension_reduction" in cluster ==> cluster["dimension_reduction"].VDict?
    ensures var o' := DimensionReduction(o, VDict(cluster)).0;
      var dr := Subsection(cluster, "dimension_reduction");
      && o' == o.(dimReductionDims := Setting(dr, "dims", o.dimReductionDims),
                  dimReductionMaxFeatures := Setting(dr, "max_features", o.dimReductionMaxFeatures),
                  dimReductionIterations := Setting(dr, "iterations", o.dimReductionIterations),
                  dimReductionUseFftAvg := Setting(dr, "use_fft_avg", o.dimReductionUseFftAvg))
  {
    if "dimension_reduction" in cluster {
      DimReductionSizesCopies(o, cluster["dimension_reduction"].entries);
    }
  }

  lemma DimReductionSizesCopies(o: Options, d: map<string, Value>)
    ensures DimReductionSizes(o, VDict(d)).0
         == o.(dimReductionDims := Setting(d, "dims", o.dimReductionDims),
               dimReductionMaxFeatures := Setting(d, "max_features", o.dimReductionMaxFeatures),
               dimReductionIterations := Setting(d, "iterations", o.dimReductionIterations),
               dimReductionUseFftAvg := Setting(d, "use_fft_avg", o.dimReductionUseFftAvg))
  {
    DimReductionRunsCopies(o.(dimReductionDims := Setting(d, "dims", o.dimReductionDims),
                              dimReductionMaxFeatures := Setting(d, "max_features", o.dimReductionMaxFeatures)), d);
  }

  lemma DimReductionRunsCopies(o: Options, d: map<string, Value>)
    ensures DimReductionRuns(o, VDict(d)).0
         == o.(dimReductionIterations := Setting(d, "iterations", o.dimReductionIterations),
               dimReductionUseFftAvg := Setting(d, "use_fft_avg", o.dimReductionUseFftAvg))
  {
  }

  lemma {:induction false} KmeansCopies(o: Options, cluster: map<string, Value>)
    requires "kmeans" in cluster ==> cluster["kmeans"].VDict?
    ensures var o' := ClusterMethod(o, VDict(cluster)).0;
      var km := Subsection(cluster, "kmeans");
      && o'.clusterMinSize == o.clusterMinSize
      && o'.dimReductionDims == o.dimReductionDims
      && o'.dimReductionMaxFeatures == o.dimReductionMaxFeatures
      && o'.dimReductionIterations == o.dimReductionIterations
      && o'.dimReductionUseFftAvg == o.dimReductionUseFftAvg
      && o'.kmeansK == Setting(km, "k", o.kmeansK)
      && o'.kmeansIterations == Setting(km, "iterations", o.kmeansIterations)
  {
    assert In("kmeans", VDict(cluster)) == Ok("kmeans" in cluster);
  }

  lemma {:induction false} DimensionReductionKeeps(o: Options, cluster: Value)
    requires cluster.VDict? && ("dimension_reduction" in cluster.entries ==> cluster.entries["dimension_reduction"].VDict?)
    ensures DimensionReduction(o, cluster).1.Completed?
    ensures DimensionReduction(o, cluster).0.doClustering == o.doClustering
    ensures DimensionReduction(o, cluster).0.clusterMethod == o.clusterMethod
  {
  }

  /** given_templates entries are appended after the ones already held. */
  lemma {:induction false} TemplateAppends(o: Options, template: map<string, Value>, render: Render)
    requires "align_corr_threshold" !in template && "given_templates" in template
    ensures Template(o, VDict(template), render).0.givenTemplates == o.givenTemplates + Templates(template["given_templates"], render).0
    ensures Template(o, VDict(template), render).1.Completed? <==> Templates(template["given_templates"], render).1.None?
  {
  }

  /** A `config_options` object. */
  class ConfigOptions {
    var root: string
    var iterations: int
    var logLevel: int
    var dimReductionDims: Value
    var dimReductionMaxFeatures: Value
    var dimReductionIterations: Value
    var dimReductionUseFftAvg: Value
    var gaussSmoothingSigma: real
    var clusterUseFftAvg: bool
    var clusterMinSize: Value
    var doClustering: bool
    var clusterMethod: Option<string>
    var kmeansK: Value
    var kmeansIterations: Value
    var alignCorrThreshold: real
    var givenTemplates: seq<(string, string)>
    var L: int

    function Snapshot(): Options
      reads this
    {
      Options(root, iterations, logLevel, dimReductionDims, dimReductionMaxFeatures,
              dimReductionIterations, dimReductionUseFftAvg, gaussSmoothingSigma, clusterUseFftAvg,
              clusterMinSize, doClustering, clusterMethod, kmeansK, kmeansIterations,
              alignCorrThreshold, givenTemplates, L)
    }

    /** `__init__`: every field at its default. */
    constructor ()
      ensures Snapshot() == Defaults
    {
      root := "./";
      iterations := 10;
      logLevel := 0;
      dimReductionDims := VInt(100);
      dimReductionMaxFeatures := VInt(1000);
      dimReductionIterations := VInt(15);
      dimReductionUseFftAvg := VBool(true);
      gaussSmoothingSigma := 0.0;
      clusterUseFftAvg := true;
      clusterMinSize := VInt(0);
      doClustering := false;
      clusterMethod := None;
      kmeansK := VInt(0);
      kmeansIterations := VInt(10);
      alignCorrThreshold := 1.0;
      givenTemplates := [];
      L := 36;
    }

    /** Overwrite the fields for the keys present in the `cluster` section. */
    method ParseCluster(cluster: Value) returns (out: Outcome)
      modifies this
      ensures (Snapshot(), out) == Cluster(old(Snapshot()), cluster)
    {
      doClustering := true;
      var minSize := Get(cluster, "min_size");
      if minSize.Err? {
        return Raised(minSize.error);
      }
      if minSize.value.Some? {
        clusterMinSize := minSize.value.value;
      }
      out := ParseDimensionReduction(cluster);
      if out.Raised? {
        return;
      }
      out := ParseClusterMethod(cluster);
    }

    /** The `dimension_reduction` subsection. */
    method ParseDimensionReduction(cluster: Value) returns (out: Outcome)
      modifies this
      ensures (Snapshot(), out) == DimensionReduction(old(Snapshot()), cluster)
    {
      var dimRed := Get(cluster, "dimension_reduction");
      if dimRed.Err? {
        return Raised(dimRed.error);
      }
      if dimRed.value.None? {
        return Completed;
      }
      out := ParseDimReductionSizes(dimRed.value.value);
    }

    method ParseDimReductionSizes(d: Value) returns (out: Outcome)
      modifies this
      ensures (Snapshot(), out) == DimReductionSizes(old(Snapshot()), d)
    {
      var dims := Get(d, "dims");
      if dims.Err? {
        return Raised(dims.error);
      }
      if dims.value.Some? {
        dimReductionDims := dims.value.value;
      }
      var mf := Get(d, "max_features");
      if mf.Err? {
        return Raised(mf.error);
      }
      if mf.value.Some? {
        dimReductionMaxFeatures := mf.value.value;
      }
      out := ParseDimReductionRuns(d);
    }

    method ParseDimReductionRuns(d: Value) returns (out: Outcome)
      modifies this
      ensures (Snapshot(), out) == DimReductionRuns(old(Snapshot()), d)
    {
      var it := Get(d, "iterations");
      if it.Err? {
        return Raised(it.error);
      }
      if it.value.Some? {
        dimReductionIterations := it.value.value;
      }
      var fft := Get(d, "use_fft_avg");
      if fft.Err? {
        return Raised(fft.error);
      }
      if fft.value.Some? {
        dimReductionUseFftAvg := fft.value.value;
      }
      return Completed;
    }

    /** The method choice: 'kmeans' with its parameters, else
        'hierarchical', else an exception. */
    method ParseClusterMethod(cluster: Value) returns (out: Outcome)
      modifies this
      ensures (Snapshot(), out) == ClusterMethod(old(Snapshot()), cluster)
    {
      var hasKmeans := In("kmeans", cluster);
      if hasKmeans.Err? {
        return Raised(hasKmeans.error);
      }
      if hasKmeans.value {
        clusterMethod := Some("kmeans");
        var kmeans := Index(cluster, "kmeans");
        if kmeans.Err? {
          return Raised(kmeans.error);
        }
        var k := Get(kmeans.value, "k");
        if k.Err? {
          return Raised(k.error);
        }
        if k.value.Some? {
          kmeansK := k.value.value;
        }
        var it := Get(kmeans.value, "iterations");
        if it.Err? {
          return Raised(it.error);
        }
        if it.value.Some? {
          kmeansIterations := it.value.value;
        }
        return Completed;
      }
      var hier := In("hierarchical", cluster);
      if hier == Ok(true) {
        clusterMethod := Some("hierarchical");
        return Completed;
      }
      return Raised(NoClusterMethod);
    }

    /** Overwrite the threshold and append the given templates, one entry
        at a time. */
    method ParseTemplate(template: Value, render: Render) returns (out: Outcome)
      modifies this
      ensures (Snapshot(), out) == Template(old(Snapshot()), template, render)
    {
      var t := Get(template, "align_corr_threshold");
      if t.Err? {
        return Raised(t.error);
      }
      if t.value.Some? {
        var x := FloatOf(t.value.value);
        if x.Err? {
          return Raised(x.error);
        }
        alignCorrThreshold := x.value;
      }
      out := ParseGivenTemplates(template, render);
    }

    /** Append the given templates, one entry at a time. */
    method ParseGivenTemplates(template: Value, render: Render) returns (out: Outcome)
      modifies this
      ensures (Snapshot(), out) == GivenTemplates(old(Snapshot()), template, render)
    {
      var g := Get(template, "given_templates");
      if g.Err? {
        return Raised(g.error);
      }
      if g.value.None? {
        return Completed;
      }
      var gts := g.value.value;
      var n := Length(gts);
      if n.None? {
        assert givenTemplates + [] == givenTemplates;
        return Raised("object of type '" + TypeName(gts) + "' has no len()");
      }
      out := AppendTemplates(gts, n.value, render);
    }

    /** The `for i in range(n)` loop over the given templates, appending one
        pair per item until an item fails. */
    method AppendTemplates(gts: Value, n: nat, render: Render) returns (out: Outcome)
      modifies this
      ensures var (pairs, err) := TemplatesFrom(gts, 0, n, render);
        (Snapshot(), out) == (old(Snapshot()).(givenTemplates := old(givenTemplates) + pairs),
                              if err.None? then Completed else Raised(err.value))
    {
      var i := 0;
      while i < n
        invariant 0 <= i <= n
        invariant Snapshot() == old(Snapshot()).(givenTemplates := givenTemplates)
        invariant old(givenTemplates) + TemplatesFrom(gts, 0, n, render).0 == givenTemplates + TemplatesFrom(gts, i, n, render).0
        invariant TemplatesFrom(gts, 0, n, render).1 == TemplatesFrom(gts, i, n, render).1
        decreases n - i
      {
        var item := At(gts, i);
        if item.Err? {
          assert givenTemplates + [] == givenTemplates;
          return Raised(item.error);
        }
        var pair := TemplatePair(item.value, render);
        if pair.Err? {
          assert givenTemplates + [] == givenTemplates;
          return Raised(pair.error);
        }
        ghost var rest := TemplatesFrom(gts, i + 1, n, render).0;
        assert givenTemplates + ([pair.value] + rest) == (givenTemplates + [pair.value]) + rest;
        givenTemplates := givenTemplates + [pair.value];
        i := i + 1;
      }
      assert givenTemplates + [] == givenTemplates;
      return Completed;
    }

    /** `parse_config` after the JSON document is loaded. */
    method ParseConfig(conf: map<string, Value>, render: Render) returns (out: Outcome)
      modifies this
      ensures (Snapshot(), out) == Configure(old(Snapshot()), conf, render)
    {
      out := ParseTopLevelInts(conf);
      if out.Raised? {
        return;
      }
      if "cluster" in conf {
        out := ParseCluster(conf["cluster"]);
        if out.Raised? {
          return;
        }
      }
      if "template" in conf {
        out := ParseTemplate(conf["template"], render);
        if out.Raised? {
          return;
        }
      }
      if "L" in conf {
        var x := IntOf(conf["L"]);
        if x.Err? {
          return Raised(x.error);
        }
        L := x.value;
      }
      return Completed;
    }

    /** `iterations` and `log_level`. */
    method ParseTopLevelInts(conf: map<string, Value>) returns (out: Outcome)
      modifies this
      ensures (Snapshot(), out) == TopLevelInts(old(Snapshot()), conf)
    {
      if "iterations" in conf {
        var x := IntOf(conf["iterations"]);
        if x.Err? {
          return Raised(x.error);
        }
        iterations := x.value;
      }
      if "log_level" in conf {
        var x := IntOf(conf["log_level"]);
        if x.Err? {
          return Raised(x.error);
        }
        logLevel := x.value;
      }
      return Completed;
    }
  }

  // ----- parse_data -----

  /** One subtomogram record: volume path, mask path, ZYZ angle, shift. */
  datatype Sub = Sub(vol: string, mask: string, angle: seq<real>, loc: seq<real>)

  /** The message of `raise Exception(repr(record))`; the repr itself is
      not modelled. */
  const MissingKey := "record lacks 'subtomogram' or 'mask'"
  /** A bare `raise` with no active exception, under Python 2. */
  const BareRaise := "exceptions must be old-style classes or derived from BaseException, not NoneType"

  /** An absolute path is kept; a relative one is resolved by `abspath`. */
  function Path(v: Value, absPath: string -> string): (r: Result<string>)
    ensures v.VStr? ==> r.Ok?
  {
    match v
    case VStr(s) => Ok(if StartsWithChar(s, '/') then s else absPath(s))
    case _ => Err("'" + TypeName(v) + "' object has no attribute 'startswith'")
  }

  /** `[float(_) for _ in v]` for a value whose length must be 3. */
  function Vector3(v: Value): (r: Result<seq<real>>)
    ensures r.Ok? ==> |r.value| == 3 && Length(v) == Some(3)
    ensures Length(v).Some? && Length(v).value != 3 ==> r == Err(BareRaise)
    ensures v.VList? && |v.items| == 3 && (forall k :: 0 <= k < 3 ==> FloatOf(v.items[k]).Ok?) ==>
      r == Ok([FloatOf(v.items[0]).value, FloatOf(v.items[1]).value, FloatOf(v.items[2]).value])
    ensures v.VList? && |v.items| == 3 && r.Ok? ==> forall k :: 0 <= k < 3 ==> FloatOf(v.items[k]) == Ok(r.value[k])
  {
    match Length(v)
    case None => Err("object of type '" + TypeName(v) + "' has no len()")
    case Some(n) =>
      if n != 3 then Err(BareRaise)
      else match v
        case VList(items) =>
          if FloatOf(items[0]).Err? then Err(FloatOf(items[0]).error)
          else if FloatOf(items[1]).Err? then Err(FloatOf(items[1]).error)
          else if FloatOf(items[2]).Err? then Err(FloatOf(items[2]).error)
          else Ok([FloatOf(items[0]).value, FloatOf(items[1]).value, FloatOf(items[2]).value])
        case VStr(s) =>
          if FloatOf(VStr([s[0]])).Err? then Err(FloatOf(VStr([s[0]])).error)
          else if FloatOf(VStr([s[1]])).Err? then Err(FloatOf(VStr([s[1]])).error)
          else if FloatOf(VStr([s[2]])).Err? then Err(FloatOf(VStr([s[2]])).error)
          else Ok([FloatOf(VStr([s[0]])).value, FloatOf(VStr([s[1]])).value, FloatOf(VStr([s[2]])).value])
        case _ => Err("dict iteration order is not modelled")
  }

  /** An optional vector: three zeros when the key is absent. */
  function OptionalVector(record: Value, key: string): Result<seq<real>>
  {
    match Get(record, key)
    case Err(e) => Err(e)
    case Ok(None) => Ok([0.0, 0.0, 0.0])
    case Ok(Some(v)) => Vector3(v)
  }

  /** One record of `parse_data`, checked in the order the loop body
      checks it. */
  function ParseRecord(record: Value, absPath: string -> string): Result<Sub>
  {
    match Get(record, "subtomogram")
    case Err(e) => Err(e)
    case Ok(None) => Err(MissingKey)
    case Ok(Some(volValue)) =>
      match Path(volValue, absPath)
      case Err(e) => Err(e)
      case Ok(vol) =>
        match Get(record, "mask")
        case Err(e) => Err(e)
        case Ok(None) => Err(MissingKey)
        case Ok(Some(maskValue)) =>
          match Path(maskValue, absPath)
          case Err(e) => Err(e)
          case Ok(mask) =>
            match OptionalVector(record, "angle")
            case Err(e) => Err(e)
            case Ok(angle) =>
              match OptionalVector(record, "loc")
              case Err(e) => Err(e)
              case Ok(loc) =>
                match Encode(vol)
                case Err(e) => Err(e)
                case Ok(vol) =>
                  match Encode(mask)
                  case Err(e) => Err(e)
                  case Ok(mask) => Ok(Sub(vol, mask, angle, loc))
  }

  /** The record-level rules: both paths are required; angle and loc are
      three numbers, zeros when absent; any other length raises; both paths
      must be ASCII for `str()`. */
  lemma {:induction false} ParseRecordRules(record: map<string, Value>, absPath: string -> string)
    ensures "subtomogram" !in record ==> ParseRecord(VDict(record), absPath) == Err(MissingKey)
    ensures "subtomogram" in record && record["subtomogram"].VStr? && "mask" !in record ==>
      ParseRecord(VDict(record), absPath) == Err(MissingKey)
    ensures "angle" in record && Length(record["angle"]).Some? && Length(record["angle"]).value != 3 ==>
      ParseRecord(VDict(record), absPath).Err?
    ensures "loc" in record && Length(record["loc"]).Some? && Length(record["loc"]).value != 3 ==>
      ParseRecord(VDict(record), absPath).Err?
    ensures ParseRecord(VDict(record), absPath).Ok? ==>
      var sub := ParseRecord(VDict(record), absPath).value;
      && |sub.angle| == 3 && |sub.loc| == 3
      && ("angle" !in record ==> sub.angle == [0.0, 0.0, 0.0])
      && ("loc" !in record ==> sub.loc == [0.0, 0.0, 0.0])
      && sub.vol == (var p := record["subtomogram"].s; if StartsWithChar(p, '/') then p else absPath(p))
      && sub.mask == (var p := record["mask"].s; if StartsWithChar(p, '/') then p else absPath(p))
      && IsAscii(sub.vol) && IsAscii(sub.mask)
  {
  }

  /** The whole list: every record parsed, or the first exception. */
  function ParseAll(conf: seq<Value>, absPath: string -> string): Result<seq<Sub>>
    decreases |conf|
  {
    if conf == [] then Ok([])
    else match ParseRecord(conf[0], absPath)
      case Err(e) => Err(e)
      case Ok(sub) =>
        match ParseAll(conf[1..], absPath)
        case Err(e) => Err(e)
        case Ok(subs) => Ok([sub] + subs)
  }

  /** The parse succeeds exactly when every record does, with one tuple per
      record in input order. */
  lemma {:induction false} ParseAllSucceeds(conf: seq<Value>, absPath: string -> string)
    ensures ParseAll(conf, absPath).Ok? <==> forall i :: 0 <= i < |conf| ==> ParseRecord(conf[i], absPath).Ok?
    ensures ParseAll(conf, absPath).Ok? ==>
      |ParseAll(conf, absPath).value| == |conf| &&
      forall i :: 0 <= i < |conf| ==> ParseAll(conf, absPath).value[i] == ParseRecord(conf[i], absPath).value
    decreases |conf|
  {
    if conf != [] {
      ParseAllSucceeds(conf[1..], absPath);
      assert forall i :: 0 <= i < |conf[1..]| ==> conf[1..][i] == conf[i + 1];
      if ParseAll(conf, absPath).Ok? {
        var rest := ParseAll(conf[1..], absPath).value;
        forall i | 0 <= i < |conf|
          ensures ParseRecord(conf[i], absPath).Ok? && ParseAll(conf, absPath).value[i] == ParseRecord(conf[i], absPath).value
        {
          if i > 0 {
            assert ParseAll(conf, absPath).value[i] == rest[i - 1];
          }
        }
      }
    }
  }

  /** A failed parse reports the error of the first invalid record. */
  lemma {:induction false} ParseAllFirstError(conf: seq<Value>, absPath: string -> string)
    ensures ParseAll(conf, absPath).Err? ==>
      exists i :: 0 <= i < |conf| && ParseRecord(conf[i], absPath).Err? &&
        ParseAll(conf, absPath).error == ParseRecord(conf[i], absPath).error &&
        forall j :: 0 <= j < i ==> ParseRecord(conf[j], absPath).Ok?
    decreases |conf|
  {
    if conf != [] {
      if ParseRecord(conf[0], absPath).Ok? && ParseAll(conf[1..], absPath).Err? {
        ParseAllFirstError(conf[1..], absPath);
        var i :| 0 <= i < |conf[1..]| && ParseRecord(conf[1..][i], absPath).Err? &&
          ParseAll(conf[1..], absPath).error == ParseRecord(conf[1..][i], absPath).error &&
          forall j :: 0 <= j < i ==> ParseRecord(conf[1..][j], absPath).Ok?;
        assert conf[i + 1] == conf[1..][i];
        forall j | 0 <= j < i + 1
          ensures ParseRecord(conf[j], absPath).Ok?
        {
          if j > 0 {
            assert conf[j] == conf[1..][j - 1];
          }
        }
      }
    }
  }

  /** A parse of the rest of the list with `subs` already parsed in front. */
  function AfterParsed(subs: seq<Sub>, r: Result<seq<Sub>>): Result<seq<Sub>>
  {
    match r
    case Err(e) => Err(e)
    case Ok(rest) => Ok(subs + rest)
  }

  /** One turn of `parse_data`'s loop: an invalid record ends the parse
      with its error, a valid one moves into the parsed prefix. */
  lemma {:induction false} ParseAllStep(conf: seq<Value>, i: nat, absPath: string -> string, subs: seq<Sub>)
    requires i < |conf|
    ensures ParseRecord(conf[i], absPath).Err? ==>
      AfterParsed(subs, ParseAll(conf[i..], absPath)) == Err(ParseRecord(conf[i], absPath).error)
    ensures ParseRecord(conf[i], absPath).Ok? ==>
      AfterParsed(subs, ParseAll(conf[i..], absPath))
        == AfterParsed(subs + [ParseRecord(conf[i], absPath).value], ParseAll(conf[i + 1..], absPath))
  {
    assert conf[i..][0] == conf[i] && conf[i..][1..] == conf[i + 1..];
    var sub := ParseRecord(conf[i], absPath);
    var tail := ParseAll(conf[i + 1..], absPath);
    if sub.Ok? && tail.Ok? {
      assert subs + ([sub.value] + tail.value) == (subs + [sub.value]) + tail.value;
    }
  }

  /** `parse_data` on the loaded JSON list. */
  method ParseData(conf: seq<Value>, absPath: string -> string) returns (r: Result<seq<Sub>>)
    ensures r == ParseAll(conf, absPath)
  {
    var subs: seq<Sub> := [];
    var i := 0;
    assert conf[0..] == conf;
    assert ParseAll(conf, absPath).Ok? ==> [] + ParseAll(conf, absPath).value == ParseAll(conf, absPath).value;
    while i < |conf|
      invariant 0 <= i <= |conf|
      invariant ParseAll(conf, absPath) == AfterParsed(subs, ParseAll(conf[i..], absPath))
    {
      ParseAllStep(conf, i, absPath, subs);
      var sub := ParseRecord(conf[i], absPath);
      if sub.Err? {
        return Err(sub.error);
      }
      subs := subs + [sub.value];
      i := i + 1;
    }
    assert conf[i..] == [] && subs + [] == subs;
    return Ok(subs);
  }
}
