/** Shared vocabulary: optional values, the outcome of a remote call, and the
    few JavaScript string operations the screens rely on (trim, ASCII case
    mapping, decimal rendering of numbers). */
module Common {

  datatype Option<T> = None | Some(value: T)

  /** The result of an awaited request: `Ok` with what the server returned, or
      `Fail` with the error's message ("" when the error carries none). */
  datatype Outcome<T> = Ok(value: T) | Fail(message: string)

  /** JavaScript truthiness of an optional string: present and non-empty. */
  predicate Truthy(s: Option<string>) {
    s.Some? && s.value != ""
  }

  /** `a || b` on strings. */
  function OrElse(s: string, fallback: string): (r: string)
    ensures r == fallback <==> s == "" || s == fallback
    ensures s != "" ==> r == s
  {
    if s != "" then s else fallback
  }

  /** A modal `Alert.alert(title, message)`. */
  datatype Alert = Alert(title: string, message: string)

  // ---------------------------------------------------------------------
  // Array.prototype.filter with a negated predicate

  /** `s.filter(x => !p(x))`. */
  function Reject<T>(s: seq<T>, p: T -> bool): (r: seq<T>)
    ensures |r| <= |s|
    ensures forall i :: 0 <= i < |r| ==> !p(r[i])
  {
    if s == [] then [] else (if p(s[0]) then [] else [s[0]]) + Reject(s[1..], p)
  }

  lemma RejectCons<T>(x: T, t: seq<T>, p: T -> bool)
    ensures Reject([x] + t, p) == (if p(x) then [] else [x]) + Reject(t, p)
  {
    assert ([x] + t)[1..] == t;
  }

  /** Filtering works piecewise, so the kept elements stay in their order. */
  lemma {:induction false} RejectAppend<T>(a: seq<T>, b: seq<T>, p: T -> bool)
    ensures Reject(a + b, p) == Reject(a, p) + Reject(b, p)
  {
    if a != [] {
      assert (a + b)[1..] == a[1..] + b;
      RejectAppend(a[1..], b, p);
      assert Reject(a + b, p) == (if p(a[0]) then [] else [a[0]]) + Reject(a[1..] + b, p);
    } else {
      assert a + b == b;
    }
  }

  /** Nothing to drop, nothing changes. */
  lemma {:induction false} RejectNothing<T>(s: seq<T>, p: T -> bool)
    requires forall i :: 0 <= i < |s| ==> !p(s[i])
    ensures Reject(s, p) == s
  {
    if s != [] {
      RejectNothing(s[1..], p);
    }
  }

  /** Exactly the dropped elements go: every other element keeps its
      multiplicity. */
  lemma {:induction false} RejectMultiset<T>(s: seq<T>, p: T -> bool)
    ensures forall x :: multiset(Reject(s, p))[x] == if p(x) then 0 else multiset(s)[x]
  {
    if s != [] {
      RejectMultiset(s[1..], p);
      assert s == [s[0]] + s[1..];
    }
  }

  /** An element is kept exactly when `s` holds it and `p` does not reject
      it. */
  lemma RejectIn<T>(s: seq<T>, p: T -> bool)
    ensures forall x :: x in Reject(s, p) <==> x in s && !p(x)
  {
    RejectMultiset(s, p);
    forall x ensures x in Reject(s, p) <==> x in s && !p(x) {
      assert x in Reject(s, p) <==> x in multiset(Reject(s, p));
      assert x in s <==> x in multiset(s);
    }
  }

  /** Every kept element comes from `s`, and every element of `s` that
      `p` does not reject is kept. */
  lemma RejectMembers<T>(s: seq<T>, p: T -> bool)
    ensures forall i :: 0 <= i < |Reject(s, p)| ==> Reject(s, p)[i] in s
    ensures forall i :: 0 <= i < |s| && !p(s[i]) ==> s[i] in Reject(s, p)
  {
    var r := Reject(s, p);
    RejectMultiset(s, p);
    forall i | 0 <= i < |r| ensures r[i] in s {
      var x := r[i];
      assert x in multiset(r);
      assert multiset(Reject(s, p))[x] == if p(x) then 0 else multiset(s)[x];
      assert x in multiset(s);
    }
    forall i | 0 <= i < |s| && !p(s[i]) ensures s[i] in r {
      var x := s[i];
      assert x in multiset(s);
      assert multiset(Reject(s, p))[x] == if p(x) then 0 else multiset(s)[x];
      assert x in multiset(r);
    }
  }

  /** Every element of `s` relates to `x` by `q`. */
  predicate AllFrom<T>(x: T, s: seq<T>, q: (T, T) -> bool) {
    forall k :: 0 <= k < |s| ==> q(x, s[k])
  }

  lemma RejectKeepsAllFrom<T>(x: T, s: seq<T>, p: T -> bool, q: (T, T) -> bool)
    requires AllFrom(x, s, q)
    ensures AllFrom(x, Reject(s, p), q)
  {
    var r := Reject(s, p);
    RejectMembers(s, p);
    forall k | 0 <= k < |r| ensures q(x, r[k]) {
      assert r[k] in s;
      var m :| 0 <= m < |s| && s[m] == r[k];
    }
  }

  /** Filtering keeps any relation that holds between every earlier and
      later element: uniqueness of ids, at most one flagged element. */
  lemma {:induction false} RejectKeepsPairwise<T>(s: seq<T>, p: T -> bool, q: (T, T) -> bool)
    requires forall i, j :: 0 <= i < j < |s| ==> q(s[i], s[j])
    ensures forall i, j :: 0 <= i < j < |Reject(s, p)| ==> q(Reject(s, p)[i], Reject(s, p)[j])
  {
    if s != [] {
      var tail := s[1..];
      assert forall i, j :: 0 <= i < j < |tail| ==> q(tail[i], tail[j]) by {
        forall i, j | 0 <= i < j < |tail| ensures q(tail[i], tail[j]) {
          assert tail[i] == s[i + 1] && tail[j] == s[j + 1];
        }
      }
      RejectKeepsPairwise(tail, p, q);
      var rt := Reject(tail, p);
      if !p(s[0]) {
        assert AllFrom(s[0], tail, q) by {
          forall k | 0 <= k < |tail| ensures q(s[0], tail[k]) {
            assert tail[k] == s[k + 1];
          }
        }
        RejectKeepsAllFrom(s[0], tail, p, q);
        PairwiseCons(s[0], rt, q);
        assert Reject(s, p) == [s[0]] + rt;
      } else {
        assert Reject(s, p) == rt;
      }
    }
  }

  lemma PairwiseCons<T>(x: T, t: seq<T>, q: (T, T) -> bool)
    requires AllFrom(x, t, q)
    requires forall i, j :: 0 <= i < j < |t| ==> q(t[i], t[j])
    ensures forall i, j :: 0 <= i < j < |[x] + t| ==> q(([x] + t)[i], ([x] + t)[j])
  {
    var r := [x] + t;
    forall i, j | 0 <= i < j < |r| ensures q(r[i], r[j]) {
      assert r[j] == t[j - 1];
      if i > 0 {
        assert r[i] == t[i - 1];
      }
    }
  }

  // ---------------------------------------------------------------------
  // String.prototype.trim

  /** The ECMAScript WhiteSpace and LineTerminator code points, which
      `String.prototype.trim` strips from both ends. */
  predicate IsWhitespace(c: char) {
    c == '\U{0009}' || c == '\U{000B}' || c == '\U{000C}' || c == ' ' ||
    c == '\U{00A0}' || c == '\U{FEFF}' || c == '\U{1680}' ||
    ('\U{2000}' <= c <= '\U{200A}') || c == '\U{202F}' || c == '\U{205F}' || c == '\U{3000}' ||
    c == '\U{000A}' || c == '\U{000D}' || c == '\U{2028}' || c == '\U{2029}'
  }

  /** A string that `trim()` turns into "". */
  predicate IsBlank(s: string) {
    forall i :: 0 <= i < |s| ==> IsWhitespace(s[i])
  }

  /** The number of whitespace characters `s` starts with. */
  function LeadingSpace(s: string): (k: nat)
    ensures k <= |s| && (k == |s| || !IsWhitespace(s[k]))
    ensures forall i :: 0 <= i < k ==> IsWhitespace(s[i])
  {
    if |s| > 0 && IsWhitespace(s[0]) then
      var k := 1 + LeadingSpace(s[1..]);
      assert forall i :: 1 <= i < k ==> s[i] == s[1..][i - 1];
      k
    else 0
  }

  /** The number of whitespace characters `s` ends with. */
  function TrailingSpace(s: string): (k: nat)
    ensures k <= |s| && (k == |s| || !IsWhitespace(s[|s| - k - 1]))
    ensures forall i :: |s| - k <= i < |s| ==> IsWhitespace(s[i])
  {
    if |s| > 0 && IsWhitespace(s[|s| - 1]) then
      var k := 1 + TrailingSpace(s[..|s| - 1]);
      assert forall i :: |s| - k <= i < |s| - 1 ==> s[i] == s[..|s| - 1][i];
      k
    else 0
  }

  function TrimStart(s: string): (r: string)
    ensures |r| <= |s| && r == s[|s| - |r|..]
    ensures r == [] || !IsWhitespace(r[0])
    ensures IsBlank(s[..|s| - |r|])
  {
    s[LeadingSpace(s)..]
  }

  function TrimEnd(s: string): (r: string)
    ensures |r| <= |s| && r == s[..|r|]
    ensures r == [] || !IsWhitespace(r[|r| - 1])
    ensures IsBlank(s[|r|..])
  {
    s[..|s| - TrailingSpace(s)]
  }

  /** `s.trim()`: the longest infix of `s` that starts and ends with a
      non-whitespace character. */
  function Trim(s: string): string {
    TrimEnd(TrimStart(s))
  }

  /** What every "required" check in the screens relies on: trimming yields the
      empty string exactly when the text is blank. */
  lemma TrimEmptyIffBlank(s: string)
    ensures Trim(s) == "" <==> IsBlank(s)
  {
    var t := TrimStart(s);
    if t == [] {
      assert s[..|s|] == s;
    } else {
      assert !IsWhitespace(t[0]);
      assert t[0] == s[|s| - |t|];
    }
  }

  /** `!s.trim()`, the test behind every "required" message. */
  predicate TrimsToEmpty(s: string)
    ensures TrimsToEmpty(s) <==> IsBlank(s)
  {
    TrimEmptyIffBlank(s);
    Trim(s) == ""
  }

  // ---------------------------------------------------------------------
  // ASCII case mapping

  function LowerChar(c: char): (r: char)
    ensures 'A' <= c <= 'Z' ==> r as int == c as int + 32
    ensures !('A' <= c <= 'Z') ==> r == c
    ensures !('A' <= r <= 'Z')
  {
    if 'A' <= c <= 'Z' then (c as int + 32) as char else c
  }

  function UpperChar(c: char): (r: char)
    ensures 'a' <= c <= 'z' ==> r as int == c as int - 32
    ensures !('a' <= c <= 'z') ==> r == c
    ensures !('a' <= r <= 'z')
  {
    if 'a' <= c <= 'z' then (c as int - 32) as char else c
  }

  /** `toLowerCase()` on ASCII letters. */
  function ToLower(s: string): (r: string)
    ensures |r| == |s|
    ensures forall i :: 0 <= i < |s| ==> r[i] == LowerChar(s[i])
  {
    seq(|s|, i requires 0 <= i < |s| => LowerChar(s[i]))
  }

  /** `toUpperCase()` on ASCII letters. */
  function ToUpper(s: string): (r: string)
    ensures |r| == |s|
    ensures forall i :: 0 <= i < |s| ==> r[i] == UpperChar(s[i])
  {
    seq(|s|, i requires 0 <= i < |s| => UpperChar(s[i]))
  }

  /** Lower-casing twice is lower-casing once, so a lookup keyed on the
      lower-cased string cannot tell `s` from `ToLower(s)`. */
  lemma ToLowerIdempotent(s: string)
    ensures ToLower(ToLower(s)) == ToLower(s)
  {
    var t := ToLower(s);
    forall i | 0 <= i < |s| ensures ToLower(t)[i] == t[i] {
      assert !('A' <= t[i] <= 'Z');
    }
  }

  // ---------------------------------------------------------------------
  // Decimal rendering of numbers, as in a template literal `${n}`

  predicate IsDigit(c: char) {
    '0' <= c <= '9'
  }

  function DigitChar(d: nat): (c: char)
    requires d < 10
    ensures IsDigit(c) && c as int - '0' as int == d
  {
    ('0' as int + d) as char
  }

  function NatToString(n: nat): (r: string)
    ensures |r| >= 1
    ensures forall i :: 0 <= i < |r| ==> IsDigit(r[i])
    ensures (|r| == 1) == (n < 10)
    ensures |r| > 1 ==> r[0] != '0'
  {
    if n < 10 then [DigitChar(n)] else NatToString(n / 10) + [DigitChar(n % 10)]
  }

  /** The value a string of decimal digits denotes. */
  function DigitsValue(s: string): nat
    requires forall i :: 0 <= i < |s| ==> IsDigit(s[i])
  {
    if s == [] then 0
    else
      assert IsDigit(s[|s| - 1]);
      DigitsValue(s[..|s| - 1]) * 10 + (s[|s| - 1] as int - '0' as int)
  }

  /** Rendering then reading back the digits gives the number again. */
  lemma {:induction false} NatToStringValue(n: nat)
    ensures DigitsValue(NatToString(n)) == n
  {
    if n >= 10 {
      NatToStringValue(n / 10);
      var s := NatToString(n);
      assert s[..|s| - 1] == NatToString(n / 10);
    }
  }

  /** Distinct numbers render as distinct strings. */
  lemma NatToStringInjective(m: nat, n: nat)
    requires NatToString(m) == NatToString(n)
    ensures m == n
  {
    NatToStringValue(m);
    NatToStringValue(n);
  }

  /** `${i}` for an integer: a '-' exactly for a negative number, then the
      decimal digits of its magnitude. */
  function IntToString(i: int): (r: string)
    ensures r != "" && (r[0] == '-' <==> i < 0)
    ensures var digits := if i < 0 then r[1..] else r;
            (forall k :: 0 <= k < |digits| ==> IsDigit(digits[k])) &&
            DigitsValue(digits) == (if i < 0 then -i else i)
  {
    NatToStringValue(if i < 0 then -i else i);
    if i >= 0 then NatToString(i) else "-" + NatToString(-i)
  }
}
