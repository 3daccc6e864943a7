/** The small part of JavaScript that the screens' decision rules rely on:
    JSON-like values, `Object.keys(..).length === 0`, `Array.prototype.findIndex`,
    number-to-text conversion in template strings, and `parseInt`. */
module Js {

  /** `null` (or a failed backend call) versus a value. */
  datatype Option<+T> = None | Some(value: T)

  /** A JSON-like value as the screens receive it from the backend or build it
      themselves. An absent key of an `Obj` stands for `undefined`. */
  datatype Value = Num(n: int) | Str(s: string) | Bool(b: bool) | Obj(fields: map<string, Value>)

  /** The object literal `{}`. */
  const EmptyObject: Value := Obj(map[])

  /** `Object.keys(v).length === 0`. Numbers and booleans have no own keys;
      a string has one key per character. */
  predicate HasNoKeys(v: Value)
  {
    match v
    case Obj(f) => |f| == 0
    case Str(s) => |s| == 0
    case _ => true
  }

  /** JavaScript truthiness: zero, the empty string and `false` are falsy; every
      object is truthy. */
  predicate Truthy(v: Value)
  {
    match v
    case Num(n) => n != 0
    case Str(s) => |s| > 0
    case Bool(b) => b
    case Obj(_) => true
  }

  /** `s.findIndex(p)`: the smallest index whose entry satisfies `p`, or -1. */
  function FindIndex<T>(s: seq<T>, p: T -> bool): (r: int)
    ensures -1 <= r < |s|
    ensures r >= 0 ==> p(s[r]) && forall j :: 0 <= j < r ==> !p(s[j])
    ensures r == -1 ==> forall j :: 0 <= j < |s| ==> !p(s[j])
  {
    if |s| == 0 then -1
    else if p(s[0]) then 0
    else
      var k := FindIndex(s[1..], p);
      if k == -1 then -1 else k + 1
  }

  predicate IsDigit(c: char)
  {
    '0' <= c <= '9'
  }

  predicate AllDigits(s: string)
  {
    forall i :: 0 <= i < |s| ==> IsDigit(s[i])
  }

  function DigitChar(d: nat): (c: char)
    requires d < 10
    ensures IsDigit(c) && c as int - '0' as int == d
  {
    ('0' as int + d) as char
  }

  /** The decimal text of a natural number, as a template string shows it. */
  function NatToDecimal(n: nat): (s: string)
    ensures |s| > 0 && AllDigits(s)
    decreases n
  {
    if n < 10 then [DigitChar(n)] else NatToDecimal(n / 10) + [DigitChar(n % 10)]
  }

  /** The decimal text of an integer, as a template string shows it. */
  function IntToDecimal(n: int): string
  {
    if n < 0 then "-" + NatToDecimal(-n) else NatToDecimal(n)
  }

  /** The value of a run of decimal digits, most significant first. */
  function DigitsValue(ds: string): nat
    requires AllDigits(ds)
  {
    if |ds| == 0 then 0
    else DigitsValue(ds[..|ds| - 1]) * 10 + (ds[|ds| - 1] as int - '0' as int)
  }

  /** The length of the leading run of digits of `s`. */
  function DigitRun(s: string): (k: nat)
    ensures k <= |s| && AllDigits(s[..k])
    ensures k < |s| ==> !IsDigit(s[k])
  {
    if |s| == 0 || !IsDigit(s[0]) then 0 else 1 + DigitRun(s[1..])
  }

  predicate IsSpace(c: char)
  {
    c == ' ' || c == '\t' || c == '\n' || c == '\r'
  }

  function SkipSpaces(s: string): (t: string)
    ensures |t| <= |s|
    ensures |t| > 0 ==> !IsSpace(t[0])
  {
    if |s| > 0 && IsSpace(s[0]) then SkipSpaces(s[1..]) else s
  }

  /** `parseInt(s)`: leading white space, an optional sign, then the longest run of
      decimal digits; `None` is `NaN` (no digit where one is needed). */
  function ParseInt(s: string): (r: Option<int>)
    ensures r.Some? ==> exists i :: 0 <= i < |s| && IsDigit(s[i])
  {
    var t := SkipSpaces(s);
    var negative := |t| > 0 && t[0] == '-';
    var body := if |t| > 0 && (t[0] == '-' || t[0] == '+') then t[1..] else t;
    var k := DigitRun(body);
    if k == 0 then None
    else
      assert IsDigit(body[0]);
      assert exists i :: 0 <= i < |s| && IsDigit(s[i]) by { SuffixOfSkipSpaces(s); }
      var v: int := DigitsValue(body[..k]);
      Some(if negative then -v else v)
  }

  lemma {:induction false} SuffixOfSkipSpaces(s: string)
    ensures SkipSpaces(s) == s[|s| - |SkipSpaces(s)|..]
  {
    if |s| > 0 && IsSpace(s[0]) {
      SuffixOfSkipSpaces(s[1..]);
    }
  }

  /** Reading back the decimal text of a natural number gives the number. */
  lemma {:induction false} DigitsValueOfDecimal(n: nat)
    ensures DigitsValue(NatToDecimal(n)) == n
    decreases n
  {
    var s := NatToDecimal(n);
    if n >= 10 {
      var front := NatToDecimal(n / 10);
      assert s[..|s| - 1] == front;
      DigitsValueOfDecimal(n / 10);
    }
  }

  /** `parseInt` of the text a template string gives an integer is that integer. */
  lemma ParseIntOfDecimal(n: int)
    ensures ParseInt(IntToDecimal(n)) == Some(n)
  {
    assert IntToDecimal(n) + "" == IntToDecimal(n);
    ParseIntOfDecimalThen(n, "");
  }

  /** `parseInt` stops at the first non-digit: the decimal text of an integer followed
      by anything that does not start with a digit still reads back as that integer. */
  lemma ParseIntOfDecimalThen(n: int, rest: string)
    requires |rest| == 0 || !IsDigit(rest[0])
    ensures ParseInt(IntToDecimal(n) + rest) == Some(n)
  {
    if n < 0 {
      assert IntToDecimal(n) + rest == "-" + (NatToDecimal(-n) + rest);
      ParseIntOfNegativeThen(-n, rest);
    } else {
      ParseIntOfNaturalThen(n, rest);
    }
  }

  lemma ParseIntOfNaturalThen(m: nat, rest: string)
    requires |rest| == 0 || !IsDigit(rest[0])
    ensures ParseInt(NatToDecimal(m) + rest) == Some(m)
  {
    var s := NatToDecimal(m) + rest;
    DigitsValueOfDecimal(m);
    DigitRunOfDigits(NatToDecimal(m), rest);
    assert s[..|NatToDecimal(m)|] == NatToDecimal(m);
    assert IsDigit(s[0]);
    assert SkipSpaces(s) == s;
  }

  lemma ParseIntOfNegativeThen(m: nat, rest: string)
    requires |rest| == 0 || !IsDigit(rest[0])
    ensures ParseInt("-" + (NatToDecimal(m) + rest)) == Some(-(m as int))
  {
    var body := NatToDecimal(m) + rest;
    var s := "-" + body;
    DigitsValueOfDecimal(m);
    DigitRunOfDigits(NatToDecimal(m), rest);
    assert body[..|NatToDecimal(m)|] == NatToDecimal(m);
    assert SkipSpaces(s) == s;
    assert s[1..] == body;
  }

  lemma {:induction false} DigitRunOfDigits(s: string, rest: string)
    requires AllDigits(s)
    requires |rest| == 0 || !IsDigit(rest[0])
    ensures DigitRun(s + rest) == |s|
  {
    if |s| > 0 {
      assert (s + rest)[1..] == s[1..] + rest;
      DigitRunOfDigits(s[1..], rest);
    }
  }
}
