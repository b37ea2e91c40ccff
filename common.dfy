/**
 * Values and string operations shared by the models of the chatbot back end:
 * an Option type, a JSON value, and the handful of Python string operations
 * (join, strip, lower-casing, decimal formatting) the core relies on.
 */
module Common {

  datatype Option<T> = None | Some(value: T)

  /** A JSON document as `json.loads` produces it. */
  datatype Json =
    | JNull
    | JBool(b: bool)
    | JNum(n: real)
    | JStr(s: string)
    | JArr(items: seq<Json>)
    | JObj(fields: map<string, Json>)

  /** Python truthiness of a decoded JSON value (`if value:` / `not value`). */
  predicate Truthy(j: Json)
  {
    match j
    case JNull => false
    case JBool(b) => b
    case JNum(n) => n != 0.0
    case JStr(s) => s != ""
    case JArr(xs) => xs != []
    case JObj(m) => m != map[]
  }

  /** `sep.join(parts)`. */
  function Join(parts: seq<string>, sep: string): (r: string)
    ensures parts == [] ==> r == ""
    ensures |parts| == 1 ==> r == parts[0]
  {
    if parts == [] then ""
    else if |parts| == 1 then parts[0]
    else parts[0] + sep + Join(parts[1..], sep)
  }

  lemma {:induction false} JoinLength(parts: seq<string>, sep: string)
    ensures |Join(parts, sep)| == SumLengths(parts) + (if parts == [] then 0 else (|parts| - 1) * |sep|)
  {
    if |parts| > 1 {
      JoinLength(parts[1..], sep);
    }
  }

  function SumLengths(parts: seq<string>): nat
  {
    if parts == [] then 0 else |parts[0]| + SumLengths(parts[1..])
  }

  /** Joining a non-empty list whose first element is non-empty gives a non-empty string. */
  lemma JoinNonEmpty(parts: seq<string>, sep: string)
    requires |parts| > 0 && parts[0] != ""
    ensures Join(parts, sep) != ""
    ensures Join(parts, sep)[..|parts[0]|] == parts[0]
  {
  }

  /** The characters Python's `str.strip()` and `\s` treat as white space (ASCII subset). */
  predicate IsSpace(c: char)
  {
    c == ' ' || c == '\t' || c == '\n' || c == '\r' || c == '\U{000B}' || c == '\U{000C}'
  }

  predicate IsDigit(c: char)
  {
    '0' <= c <= '9'
  }

  function TrimLeft(s: string): (r: string)
    ensures |r| <= |s| && r == s[|s| - |r|..]
    ensures r == "" || !IsSpace(r[0])
    ensures forall i :: 0 <= i < |s| - |r| ==> IsSpace(s[i])
  {
    if s == [] || !IsSpace(s[0]) then s else TrimLeft(s[1..])
  }

  function TrimRight(s: string): (r: string)
    ensures |r| <= |s| && r == s[..|r|]
    ensures r == "" || !IsSpace(r[|r| - 1])
    ensures forall i :: |r| <= i < |s| ==> IsSpace(s[i])
  {
    if s == [] || !IsSpace(s[|s| - 1]) then s else TrimRight(s[..|s| - 1])
  }

  /** `s.strip()`: remove leading and trailing white space. */
  function Strip(s: string): (r: string)
  {
    TrimRight(TrimLeft(s))
  }

  /** The stripped text is empty exactly when the input is all white space. */
  lemma StripEmptyIffBlank(s: string)
    ensures Strip(s) == "" <==> forall i :: 0 <= i < |s| ==> IsSpace(s[i])
  {
  }

  /** `strip()` is idempotent. */
  lemma StripIdempotent(s: string)
    ensures Strip(Strip(s)) == Strip(s)
  {
    var r := Strip(s);
    if r != "" {
      assert !IsSpace(r[0]) by {
        var l := TrimLeft(s);
        assert r == l[..|r|];
      }
      assert TrimLeft(r) == r;
    }
  }

  /** Python's `str.lower()` restricted to ASCII letters. */
  function LowerChar(c: char): char
  {
    if 'A' <= c <= 'Z' then (c as int + 32) as char else c
  }

  function Lower(s: string): (r: string)
    ensures |r| == |s|
    ensures forall i :: 0 <= i < |s| ==> r[i] == LowerChar(s[i])
  {
    seq(|s|, i requires 0 <= i < |s| => LowerChar(s[i]))
  }

  /** `needle in haystack` for strings. */
  predicate IsSubstring(needle: string, haystack: string)
  {
    exists i :: 0 <= i <= |haystack| && needle <= haystack[i..]
  }

  function DigitChar(d: nat): char
    requires d < 10
  {
    ['0', '1', '2', '3', '4', '5', '6', '7', '8', '9'][d]
  }

  /** `str(n)` for a non-negative integer. */
  function NatToString(n: nat): (r: string)
    ensures |r| > 0
    ensures forall i :: 0 <= i < |r| ==> IsDigit(r[i])
    ensures n >= 10 ==> r[0] != '0'
  {
    if n < 10 then [DigitChar(n)] else NatToString(n / 10) + [DigitChar(n % 10)]
  }

  function DigitValue(c: char): nat
    requires IsDigit(c)
  {
    c as int - '0' as int
  }

  lemma DigitCharValue(d: nat)
    requires d < 10
    ensures IsDigit(DigitChar(d)) && DigitValue(DigitChar(d)) == d
  {
  }

  /** `int(digits)` for a string of decimal digits. */
  function DigitsValue(s: string): nat
    requires forall i :: 0 <= i < |s| ==> IsDigit(s[i])
  {
    if s == [] then 0 else DigitsValue(s[..|s| - 1]) * 10 + DigitValue(s[|s| - 1])
  }

  /** Reading back the decimal form of a number gives the number. */
  lemma {:induction false} NatToStringRoundTrip(n: nat)
    ensures DigitsValue(NatToString(n)) == n
  {
    if n >= 10 {
      NatToStringRoundTrip(n / 10);
      var s := NatToString(n);
      assert s[..|s| - 1] == NatToString(n / 10);
    }
  }

  /** `str(n)` for any integer. */
  function IntToString(n: int): (r: string)
  {
    if n < 0 then "-" + NatToString(-n) else NatToString(n)
  }

  function Sum(xs: seq<real>): real
  {
    if xs == [] then 0.0 else xs[0] + Sum(xs[1..])
  }

  lemma {:induction false} SumAppend(xs: seq<real>, ys: seq<real>)
    ensures Sum(xs + ys) == Sum(xs) + Sum(ys)
  {
    if xs == [] {
      assert xs + ys == ys;
    } else {
      assert (xs + ys)[1..] == xs[1..] + ys;
      SumAppend(xs[1..], ys);
    }
  }

  /** Non-negative terms have a non-negative sum. */
  lemma {:induction false} SumNonNegative(xs: seq<real>)
    requires forall i :: 0 <= i < |xs| ==> xs[i] >= 0.0
    ensures Sum(xs) >= 0.0
  {
    if xs != [] {
      SumNonNegative(xs[1..]);
    }
  }

  /** Σ v[i] · c[i]. */
  function Dot(vs: seq<real>, cs: seq<real>): real
    requires |vs| == |cs|
  {
    if vs == [] then 0.0 else vs[0] * cs[0] + Dot(vs[1..], cs[1..])
  }

  /** 0 ≤ x ≤ m and c ≥ 0 give 0 ≤ x · c ≤ m · c. */
  lemma ProductBounds(x: real, m: real, c: real)
    requires 0.0 <= x <= m && c >= 0.0
    ensures 0.0 <= x * c <= m * c
  {
  }

  /** With values between 0 and m and non-negative weights, 0 ≤ Σ v·c ≤ m · Σ c. */
  lemma {:induction false} DotBounds(vs: seq<real>, cs: seq<real>, m: real)
    requires |vs| == |cs|
    requires forall i :: 0 <= i < |vs| ==> 0.0 <= vs[i] <= m && cs[i] >= 0.0
    ensures 0.0 <= Dot(vs, cs) <= m * Sum(cs)
  {
    if vs != [] {
      DotBounds(vs[1..], cs[1..], m);
      ProductBounds(vs[0], m, cs[0]);
      assert m * Sum(cs) == m * cs[0] + m * Sum(cs[1..]);
    }
  }

  /** Smaller values under the same non-negative weights give a smaller sum. */
  lemma {:induction false} DotMonotone(us: seq<real>, vs: seq<real>, cs: seq<real>)
    requires |us| == |vs| == |cs|
    requires forall i :: 0 <= i < |us| ==> 0.0 <= us[i] <= vs[i] && cs[i] >= 0.0
    ensures Dot(us, cs) <= Dot(vs, cs)
  {
    if us != [] {
      DotMonotone(us[1..], vs[1..], cs[1..]);
      ProductBounds(us[0], vs[0], cs[0]);
    }
  }

  /** From avg · t = w with 0 ≤ w ≤ m · t and t > 0: 0 ≤ avg ≤ m. */
  lemma MeanBounds(avg: real, t: real, w: real, m: real)
    requires t > 0.0 && avg * t == w && 0.0 <= w <= m * t
    ensures 0.0 <= avg <= m
  {
  }

  /** Dividing by a non-zero t and multiplying back gives w again. */
  lemma DivideBack(w: real, t: real)
    requires t != 0.0
    ensures (w / t) * t == w
  {
  }

  /** From x · t = wx and y · t = wy with wx ≤ wy and t > 0: x ≤ y. */
  lemma MeanMonotone(x: real, y: real, t: real, wx: real, wy: real)
    requires t > 0.0 && x * t == wx && y * t == wy && wx <= wy
    ensures x <= y
  {
  }

  /** Python's `a[:k]` for a non-negative `k`. */
  function Take<T>(s: seq<T>, k: nat): (r: seq<T>)
    ensures |r| == if k < |s| then k else |s|
    ensures r == s[..|r|]
  {
    if k < |s| then s[..k] else s
  }

  /** Python's `a[-k:]` for `k > 0`: the last k elements, or all of them. */
  function TakeLast<T>(s: seq<T>, k: nat): (r: seq<T>)
    ensures |r| == if k < |s| then k else |s|
    ensures r == s[|s| - |r|..]
  {
    if k < |s| then s[|s| - k..] else s
  }

  /** Python's `a[i:j]` for `0 <= i`, `0 <= j`: both ends clamped to the length. */
  function Slice<T>(s: seq<T>, i: nat, j: nat): (r: seq<T>)
    ensures |r| <= |s|
    ensures i <= j <= |s| ==> r == s[i..j]
    ensures (i >= |s| || j <= i) ==> r == []
  {
    var hi := if j < |s| then j else |s|;
    if i < hi then s[i..hi] else []
  }

  predicate NoDuplicates<T(==)>(s: seq<T>)
  {
    forall i, j :: 0 <= i < j < |s| ==> s[i] != s[j]
  }

  /** Number of occurrences of `x` in `s`. */
  function Count<T(==)>(s: seq<T>, x: T): (r: nat)
    ensures r <= |s|
    ensures r == 0 <==> x !in s
  {
    if s == [] then 0 else (if s[0] == x then 1 else 0) + Count(s[1..], x)
  }

  /** Python's `list.remove(x)`: delete the first occurrence. */
  function RemoveFirst<T(==)>(s: seq<T>, x: T): (r: seq<T>)
    requires x in s
    ensures |r| == |s| - 1
    ensures multiset(r) == multiset(s) - multiset{x}
  {
    assert s == [s[0]] + s[1..];
    if s[0] == x then s[1..]
    else [s[0]] + RemoveFirst(s[1..], x)
  }

  /** Delete every occurrence of `x` (the key order left behind by `del d[x]`). */
  function RemoveAll<T(==,!new)>(s: seq<T>, x: T): (r: seq<T>)
    ensures x !in r
    ensures forall y :: y in r <==> y in s && y != x
    ensures x !in s ==> r == s
  {
    if s == [] then []
    else if s[0] == x then RemoveAll(s[1..], x)
    else [s[0]] + RemoveAll(s[1..], x)
  }

  lemma {:induction false} RemoveAllKeepsNoDuplicates<T(!new)>(s: seq<T>, x: T)
    requires NoDuplicates(s)
    ensures NoDuplicates(RemoveAll(s, x))
  {
    if s != [] {
      assert NoDuplicates(s[1..]);
      RemoveAllKeepsNoDuplicates(s[1..], x);
      assert s[0] !in s[1..];
    }
  }
}
