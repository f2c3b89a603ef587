/** JavaScript runtime facts the client relies on: optional values, thrown
    values and settled promises, the truthiness of optional strings,
    `String.prototype.trim`, the decimal rendering of a status number, and the
    browser's timer table behind `setTimeout`/`clearTimeout`. */
module Js {

  datatype Option<+T> = None | Some(value: T)

  /** A value caught by `catch (error)`: either an `Error` instance, with its
      `name` and `message`, or anything else that was thrown. */
  datatype Thrown = JsError(name: string, message: string) | NonError

  /** `new Error(message)`: an `Error` whose name is "Error". */
  function NewError(message: string): (t: Thrown)
    ensures t.JsError? && t.message == message && t.name != AbortErrorName
  {
    JsError("Error", message)
  }

  const AbortErrorName: string := "AbortError"

  /** How an awaited promise settled. */
  datatype Settled<+T> = Resolved(value: T) | Rejected(reason: Thrown)

  /** Truthiness of an optional string field: `undefined` and "" are falsy. */
  predicate Truthy(s: Option<string>)
  {
    s.Some? && s.value != ""
  }

  /** `a || b` on optional strings, as used for `response.error || '...'`. */
  function OrElse(s: Option<string>, fallback: string): string
  {
    if Truthy(s) then s.value else fallback
  }

  // ---------------------------------------------------------------------------
  // String.prototype.trim

  /** The characters `trim` removes: ECMAScript WhiteSpace and LineTerminator. */
  predicate IsWhiteSpace(c: char)
  {
    c == '\t' || c == '\n' || c == '\U{000B}' || c == '\U{000C}' || c == '\r' ||
    c == ' ' || c == '\U{00A0}' || c == '\U{1680}' ||
    ('\U{2000}' <= c <= '\U{200A}') ||
    c == '\U{2028}' || c == '\U{2029}' || c == '\U{202F}' || c == '\U{205F}' ||
    c == '\U{3000}' || c == '\U{FEFF}'
  }

  /** A string made of white space only (the empty string included). */
  predicate IsBlank(s: string)
  {
    forall i :: 0 <= i < |s| ==> IsWhiteSpace(s[i])
  }

  /** Drops leading white space: the result is a suffix of `s`, what was
      dropped is white space, and the result does not start with white space. */
  function TrimStart(s: string): (r: string)
    ensures |r| <= |s| && r == s[|s| - |r|..]
    ensures r == [] || !IsWhiteSpace(r[0])
    ensures IsBlank(s[..|s| - |r|])
  {
    if s != [] && IsWhiteSpace(s[0]) then
      var r := TrimStart(s[1..]);
      assert s[..|s| - |r|] == [s[0]] + s[1..][..|s| - 1 - |r|];
      r
    else
      s
  }

  /** Drops trailing white space: the result is a prefix of `s`, what was
      dropped is white space, and the result does not end with white space. */
  function TrimEnd(s: string): (r: string)
    ensures |r| <= |s| && r == s[..|r|]
    ensures r == [] || !IsWhiteSpace(r[|r| - 1])
    ensures IsBlank(s[|r|..])
  {
    if s != [] && IsWhiteSpace(s[|s| - 1]) then
      var r := TrimEnd(s[..|s| - 1]);
      assert s[|r|..] == s[..|s| - 1][|r|..] + [s[|s| - 1]];
      r
    else
      s
  }

  /** `s.trim()`: the infix of `s` left once white space is removed from both
      ends; it neither starts nor ends with white space. */
  function Trim(s: string): (r: string)
    ensures var k := |s| - |TrimStart(s)|;
            k + |r| <= |s| && r == s[k..k + |r|] && IsBlank(s[..k]) && IsBlank(s[k + |r|..])
    ensures r == [] || (!IsWhiteSpace(r[0]) && !IsWhiteSpace(r[|r| - 1]))
  {
    var t := TrimStart(s);
    var r := TrimEnd(t);
    assert s[|s| - |t|..] == t;
    assert t[|r|..] == s[|s| - |t| + |r|..];
    r
  }

  /** `s.trim()` is falsy exactly when `s` is blank. */
  lemma {:induction false} TrimEmptyIffBlank(s: string)
    ensures Trim(s) == [] <==> IsBlank(s)
  {
    var t := TrimStart(s);
    var r := TrimEnd(t);
    if r == [] {
      // TrimStart left nothing, as t would otherwise start with non-white space
      assert t[|r|..] == t;
      assert t == [];
      assert s[..|s| - |t|] == s;
    } else {
      assert r[0] == t[0] == s[|s| - |t|];
      assert !IsWhiteSpace(s[|s| - |t|]);
    }
  }

  // ---------------------------------------------------------------------------
  // Decimal rendering of a non-negative integer, as in `${response.status}`

  predicate IsDigit(c: char)
  {
    '0' <= c <= '9'
  }

  predicate AllDigits(s: string)
  {
    forall i :: 0 <= i < |s| ==> IsDigit(s[i])
  }

  function DigitChar(d: nat): (c: char)
    requires d < 10
    ensures IsDigit(c) && c as int - '0' as int == d
  {
    ('0' as int + d) as char
  }

  /** The shortest decimal numeral of `n`: non-empty, made of digits only,
      and without a leading zero unless it is "0" itself. */
  function DecimalString(n: nat): (r: string)
    ensures r != [] && AllDigits(r)
    ensures n < 10 ==> |r| == 1
    ensures n >= 10 ==> r[0] != '0'
    decreases n
  {
    if n < 10 then [DigitChar(n)] else DecimalString(n / 10) + [DigitChar(n % 10)]
  }

  /** Reads a string of digits as a decimal number (the inverse of DecimalString). */
  function ParseDecimal(s: string): nat
    requires AllDigits(s)
  {
    if s == [] then 0
    else ParseDecimal(s[..|s| - 1]) * 10 + (s[|s| - 1] as int - '0' as int)
  }

  lemma {:induction false} ParseDecimalString(n: nat)
    ensures ParseDecimal(DecimalString(n)) == n
    decreases n
  {
    if n >= 10 {
      var r := DecimalString(n);
      assert r[..|r| - 1] == DecimalString(n / 10);
      ParseDecimalString(n / 10);
    }
  }

  /** The longest prefix of `s` made of digits. */
  function LeadingDigits(s: string): (r: string)
    ensures AllDigits(r) && |r| <= |s| && r == s[..|r|]
  {
    if s != [] && IsDigit(s[0]) then [s[0]] + LeadingDigits(s[1..]) else []
  }

  /** A numeral followed by anything that does not start with a digit can be
      read back from the front of the text. */
  lemma {:induction false} LeadingDigitsOfNumeral(digits: string, rest: string)
    requires AllDigits(digits)
    requires rest == [] || !IsDigit(rest[0])
    ensures LeadingDigits(digits + rest) == digits
  {
    if digits != [] {
      assert (digits + rest)[1..] == digits[1..] + rest;
      LeadingDigitsOfNumeral(digits[1..], rest);
    } else {
      assert digits + rest == rest;
    }
  }

  // ---------------------------------------------------------------------------
  // The browser's timer table

  /** The pending timers armed with `setTimeout`, by id, with their delays in
      milliseconds. `log` records every delay ever armed, in order. */
  class Timers {
    var armed: map<nat, nat>
    var nextId: nat
    ghost var log: seq<nat>

    ghost predicate Valid()
      reads this
    {
      forall id :: id in armed ==> id < nextId
    }

    constructor ()
      ensures Valid() && armed == map[] && log == []
    {
      armed := map[];
      nextId := 0;
      log := [];
    }

    /** `setTimeout(callback, delay)`: arms a fresh timer and returns its id. */
    method SetTimeout(delay: nat) returns (id: nat)
      requires Valid()
      modifies this
      ensures Valid()
      ensures id !in old(armed) && armed == old(armed)[id := delay]
      ensures log == old(log) + [delay]
    {
      id := nextId;
      armed := armed[id := delay];
      nextId := nextId + 1;
      log := log + [delay];
    }

    /** `clearTimeout(id)`: disarms that timer, if it is still pending. */
    method ClearTimeout(id: nat)
      requires Valid()
      modifies this
      ensures Valid()
      ensures armed == old(armed) - {id} && log == old(log)
    {
      armed := armed - {id};
    }
  }
}
