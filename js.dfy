/** The few pieces of JavaScript value semantics the two components rely on:
    numbers that may be NaN, truthiness, `Array.prototype.slice`, the global
    `replace(/\$/g, '')` and `String.prototype.toUpperCase` (ASCII letters). */
module Js {

  datatype Option<T> = None | Some(value: T)

  /** A JavaScript number: NaN or a finite value. Infinities are not modelled;
      arithmetic is exact (no IEEE rounding). */
  datatype Num = NaN | Finite(value: real)

  /** `!!n`: a number is falsy exactly when it is 0 or NaN. */
  predicate Truthy(n: Num) {
    n.Finite? && n.value != 0.0
  }

  /** `n || 0`: the number itself when truthy, otherwise 0. */
  function OrZero(n: Num): real {
    if Truthy(n) then n.value else 0.0
  }

  /** `a + b`; NaN is absorbing. */
  function Add(a: Num, b: Num): Num {
    if a.NaN? || b.NaN? then NaN else Finite(a.value + b.value)
  }

  /** How `Array.prototype.slice` normalises one index against the length:
      a negative index counts from the end, and the result is clamped into [0, len]. */
  function SliceIndex(i: int, len: nat): (r: nat)
    ensures r <= len
    ensures 0 <= i <= len ==> r == i
  {
    if i < 0 then (if len + i < 0 then 0 else len + i)
    else if i > len then len
    else i
  }

  /** `s.slice(start, end)`: never fails; an empty range gives the empty list. */
  function Slice<T>(s: seq<T>, start: int, end: int): (r: seq<T>)
    ensures 0 <= start <= end <= |s| ==> r == s[start..end]
    ensures 0 <= end <= start ==> r == []
    ensures |r| <= |s|
  {
    var a, b := SliceIndex(start, |s|), SliceIndex(end, |s|);
    if a < b then s[a..b] else []
  }

  /** `s.replace(/\$/g, '')`: every dollar sign removed, everything else kept in order. */
  function RemoveDollars(s: string): (r: string)
    ensures '$' !in r
    ensures |r| <= |s|
    ensures forall c :: c in r ==> c in s
  {
    if s == [] then []
    else (if s[0] == '$' then [] else [s[0]]) + RemoveDollars(s[1..])
  }

  /** Removing dollar signs distributes over concatenation. */
  lemma {:induction false} RemoveDollarsAppend(a: string, b: string)
    ensures RemoveDollars(a + b) == RemoveDollars(a) + RemoveDollars(b)
  {
    if a == [] {
      assert a + b == b;
    } else {
      assert (a + b)[0] == a[0];
      assert (a + b)[1..] == a[1..] + b;
      RemoveDollarsAppend(a[1..], b);
    }
  }

  /** A string without dollar signs is left as it is, and only such a string is;
      so removing dollar signs twice is the same as once. */
  lemma {:induction false} RemoveDollarsFixpoint(s: string)
    ensures RemoveDollars(s) == s <==> '$' !in s
    ensures RemoveDollars(RemoveDollars(s)) == RemoveDollars(s)
  {
    if s != [] {
      RemoveDollarsFixpoint(s[1..]);
      assert s == [s[0]] + s[1..];
    }
    if '$' !in RemoveDollars(s) {
      RemoveDollarsFixpointHelper(RemoveDollars(s));
    }
  }

  lemma {:induction false} RemoveDollarsFixpointHelper(s: string)
    requires '$' !in s
    ensures RemoveDollars(s) == s
  {
    if s != [] {
      assert '$' !in s[1..] by {
        forall c | c in s[1..] ensures c in s { }
      }
      RemoveDollarsFixpointHelper(s[1..]);
      assert s == [s[0]] + s[1..];
    }
  }

  /** Removing the leading currency sign of a formatted amount gives back the digits. */
  lemma StripCurrencyPrefix(digits: string)
    requires '$' !in digits
    ensures RemoveDollars("$" + digits) == digits
  {
    RemoveDollarsAppend("$", digits);
    RemoveDollarsFixpointHelper(digits);
  }

  predicate IsLower(c: char) {
    'a' <= c <= 'z'
  }

  /** `toUpperCase` on one character, for the ASCII letters. */
  function UpperChar(c: char): (r: char)
    ensures !IsLower(r)
    ensures !IsLower(c) ==> r == c
    ensures IsLower(c) ==> r as int == c as int - 32
  {
    if IsLower(c) then (c as int - 32) as char else c
  }

  /** `s.toUpperCase()`: the same length, each character upper-cased in place. */
  function ToUpperCase(s: string): (r: string)
    ensures |r| == |s|
    ensures forall i :: 0 <= i < |s| ==> r[i] == UpperChar(s[i])
  {
    if s == [] then [] else [UpperChar(s[0])] + ToUpperCase(s[1..])
  }

  /** Upper-casing is idempotent, and it leaves no lower-case letter. */
  lemma UpperCaseIdempotent(s: string)
    ensures ToUpperCase(ToUpperCase(s)) == ToUpperCase(s)
    ensures forall i :: 0 <= i < |s| ==> !IsLower(ToUpperCase(s)[i])
  {
  }
}
