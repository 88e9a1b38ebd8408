/** Python-level values and helpers shared by every module of the model.

    Task arguments, task results and RPC payloads are arbitrary Python
    objects; `Value` covers the kinds the modelled code inspects.  `Obj` is a
    Python object seen only through its attributes (what `hasattr`, `getattr`
    and `callable` observe), used for the registered instances that the
    worker and the RPC server resolve method names against. */
module Py {

  datatype Option<T> = None | Some(value: T)

  /** An operation that either returns a value or raises an exception with a message. */
  datatype Result<T> = Ok(value: T) | Err(error: string)

  /** An operation without a value that either completes or raises. */
  datatype Outcome = Completed | Raised(error: string)

  datatype Value =
    | VNone
    | VBool(b: bool)
    | VInt(i: int)                      // int or long
    | VFloat(r: real)
    | VStr(s: string)
    | VList(items: seq<Value>)          // list or tuple
    | VDict(entries: map<string, Value>)

  /** `sys.maxint` on a 64-bit build of Python 2: integers beyond
      `[-MaxInt - 1, MaxInt]` are of type `long`, not `int`. */
  const MaxInt: int := 0x7FFF_FFFF_FFFF_FFFF

  /** An integer Python 2 represents as an `int` rather than a `long`. */
  predicate IsMachineInt(i: int)
  {
    -MaxInt - 1 <= i <= MaxInt
  }

  /** The name Python 2 reports for the type of a value. */
  function TypeName(v: Value): string
  {
    match v
    case VNone => "NoneType"
    case VBool(_) => "bool"
    case VInt(i) => if IsMachineInt(i) then "int" else "long"
    case VFloat(_) => "float"
    case VStr(_) => "str"
    case VList(_) => "list"
    case VDict(_) => "dict"
  }

  /** The number of items a value unpacks into, if it is iterable. */
  function Length(v: Value): Option<nat>
  {
    match v
    case VStr(s) => Some(|s|)
    case VList(items) => Some(|items|)
    case VDict(entries) => Some(|entries|)
    case _ => None
  }

  /** A Python object as seen through attribute lookup. */
  datatype Obj = Obj(attrs: map<string, Obj>, isCallable: bool)

  /** `s.startswith(c)` for a one-character prefix. */
  predicate StartsWithChar(s: string, c: char)
  {
    |s| > 0 && s[0] == c
  }

  /** `s.split(sep)` for a one-character separator: the pieces between
      separators, so there is always at least one piece. */
  function Split(s: string, sep: char): (parts: seq<string>)
    ensures |parts| >= 1
    ensures forall k :: 0 <= k < |parts| ==> sep !in parts[k]
  {
    if s == [] then [""]
    else if s[0] == sep then [""] + Split(s[1..], sep)
    else
      var rest := Split(s[1..], sep);
      [[s[0]] + rest[0]] + rest[1..]
  }

  /** `sep.join(parts)`. */
  function Join(parts: seq<string>, sep: char): string
    requires |parts| >= 1
  {
    if |parts| == 1 then parts[0] else parts[0] + [sep] + Join(parts[1..], sep)
  }

  /** Splitting loses nothing: joining the pieces gives the name back. */
  lemma {:induction false} JoinSplit(s: string, sep: char)
    ensures Join(Split(s, sep), sep) == s
  {
    if s == [] {
    } else if s[0] == sep {
      JoinSplit(s[1..], sep);
      assert s == [sep] + s[1..];
    } else {
      var rest := Split(s[1..], sep);
      JoinSplit(s[1..], sep);
      if |rest| == 1 {
        assert s == [s[0]] + s[1..];
      } else {
        assert Join(rest, sep) == rest[0] + [sep] + Join(rest[1..], sep);
        assert Join([[s[0]] + rest[0]] + rest[1..], sep)
            == [s[0]] + rest[0] + [sep] + Join(rest[1..], sep);
        assert s == [s[0]] + s[1..];
      }
    }
  }

  function DigitChar(d: nat): char
    requires d < 10
  {
    "0123456789"[d]
  }

  /** `str(n)` for a natural number: its decimal digits, most significant first. */
  function NatToString(n: nat): (s: string)
    ensures |s| >= 1
  {
    if n < 10 then [DigitChar(n)] else NatToString(n / 10) + [DigitChar(n % 10)]
  }

  /** `str(i)` for an integer. */
  function IntToString(i: int): string
  {
    if i < 0 then "-" + NatToString(-i) else NatToString(i)
  }

  /** The value of a decimal digit string; meant for strings of digits
      only, where any other character would count as 0. */
  function DigitsValue(s: string): nat
  {
    if s == [] then 0 else DigitsValue(s[..|s| - 1]) * 10 + DigitValue(s[|s| - 1])
  }

  function DigitValue(c: char): nat
  {
    if '0' <= c <= '9' then c as int - '0' as int else 0
  }

  /** Printing a number gives digits only, and reading them back gives
      the number. */
  lemma {:induction false} NatToStringRoundTrip(n: nat)
    ensures forall k :: 0 <= k < |NatToString(n)| ==> '0' <= NatToString(n)[k] <= '9'
    ensures DigitsValue(NatToString(n)) == n
  {
    if n >= 10 {
      var s := NatToString(n);
      NatToStringRoundTrip(n / 10);
      assert s[..|s| - 1] == NatToString(n / 10);
    }
  }

  /** Concatenation regrouped, for callers that name each partial sum. */
  lemma ConcatAssoc<T>(a: seq<T>, h: seq<T>, t: seq<T>, ah: seq<T>, ht: seq<T>, aht: seq<T>)
    requires ah == a + h && ht == h + t && aht == ah + t
    ensures aht == a + ht
  {
  }
}
