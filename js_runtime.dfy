/** The slice of JavaScript semantics that the two transaction-entry components rely on:
    nullable strings and their truthiness, the outcome of a dispatched action,
    `parseInt` with no radix (section 19.2.5 of ECMA-262), and the insertion-ordered
    key/value view that `Object.keys` / `Object.entries` give of a plain record. */
module JsRuntime {

  datatype Option<T> = None | Some(value: T)

  /** `localStorage.getItem` yields a string or `null`; `if (token)` holds exactly when
      the string is present and not empty. */
  predicate Truthy(token: Option<string>) {
    token.Some? && token.value != ""
  }

  /** Whether a call into the store returned normally or threw. */
  datatype DispatchOutcome = Returns | Throws

  // ---------------------------------------------------------------------------
  // parseInt(string) with the radix left undefined
  // ---------------------------------------------------------------------------

  /** StrWhiteSpaceChar of ECMA-262: WhiteSpace and LineTerminator code points. */
  predicate IsStrWhiteSpace(c: char) {
    || '\U{0009}' <= c <= '\U{000D}'
    || c == ' ' || c == '\U{00A0}' || c == '\U{1680}'
    || '\U{2000}' <= c <= '\U{200A}'
    || c == '\U{2028}' || c == '\U{2029}' || c == '\U{202F}'
    || c == '\U{205F}' || c == '\U{3000}' || c == '\U{FEFF}'
  }

  /** Drops the leading white space, as parseInt's first step does. */
  function TrimStart(s: string): (r: string)
    ensures |r| <= |s|
    ensures r == [] || !IsStrWhiteSpace(r[0])
  {
    if s != [] && IsStrWhiteSpace(s[0]) then TrimStart(s[1..]) else s
  }

  /** Radix 10 or 16, the only two that parseInt picks when none is given. */
  type Radix = r: nat | r == 10 || r == 16 witness 10

  predicate IsDigit(c: char, radix: Radix) {
    || '0' <= c <= '9'
    || (radix == 16 && ('a' <= c <= 'f' || 'A' <= c <= 'F'))
  }

  function DigitOf(c: char, radix: Radix): (d: nat)
    requires IsDigit(c, radix)
    ensures d < radix
    ensures d == 0 <==> c == '0'
  {
    if '0' <= c <= '9' then c as int - '0' as int
    else if 'a' <= c <= 'f' then c as int - 'a' as int + 10
    else c as int - 'A' as int + 10
  }

  predicate AllDigits(ds: string, radix: Radix) {
    forall i :: 0 <= i < |ds| ==> IsDigit(ds[i], radix)
  }

  /** The longest prefix of `s` made of digits of the radix. */
  function DigitPrefix(s: string, radix: Radix): (ds: string)
    ensures |ds| <= |s| && ds == s[..|ds|]
    ensures AllDigits(ds, radix)
    ensures |ds| == |s| || !IsDigit(s[|ds|], radix)
  {
    if s != [] && IsDigit(s[0], radix) then [s[0]] + DigitPrefix(s[1..], radix) else []
  }

  /** The mathematical value of a digit string, most significant digit first. */
  function DigitsValue(ds: string, radix: Radix): nat
    requires AllDigits(ds, radix)
  {
    if ds == [] then 0
    else DigitsValue(ds[..|ds| - 1], radix) * radix + DigitOf(ds[|ds| - 1], radix)
  }

  /** What parseInt reads after the white space: the sign, the radix it settles on
      and the text its digits are taken from. */
  datatype Numeral = Numeral(negative: bool, radix: Radix, body: string)

  function ScanNumeral(s: string): (n: Numeral)
    ensures |n.body| <= |s|
  {
    var t := TrimStart(s);
    var negative := t != [] && t[0] == '-';
    var u := if t != [] && (t[0] == '-' || t[0] == '+') then t[1..] else t;
    if |u| >= 2 && u[0] == '0' && (u[1] == 'x' || u[1] == 'X') then Numeral(negative, 16, u[2..])
    else Numeral(negative, 10, u)
  }

  /** `parseInt(s)`: `None` stands for NaN. A negative zero is the integer 0 here, which
      is harmless because `-0 === 0` holds in JavaScript. Rounding of very long
      numerals to a double is not modelled; it never turns a non-zero value into 0. */
  function ParseInt(s: string): (r: Option<int>)
    ensures r.None? <==> DigitPrefix(ScanNumeral(s).body, ScanNumeral(s).radix) == []
  {
    var n := ScanNumeral(s);
    var ds := DigitPrefix(n.body, n.radix);
    var magnitude: int := if ds == [] then 0 else DigitsValue(ds, n.radix);
    if ds == [] then None
    else if n.negative then Some(-magnitude)
    else Some(magnitude)
  }

  /** A digit string is worth nothing exactly when every digit is '0'. */
  lemma {:induction false} DigitsValueZeroIff(ds: string, radix: Radix)
    requires AllDigits(ds, radix)
    ensures DigitsValue(ds, radix) == 0 <==> forall i :: 0 <= i < |ds| ==> ds[i] == '0'
  {
    if ds != [] {
      var init := ds[..|ds| - 1];
      assert AllDigits(init, radix) by {
        forall i | 0 <= i < |init| ensures IsDigit(init[i], radix) {
          assert init[i] == ds[i];
        }
      }
      DigitsValueZeroIff(init, radix);
      var v := DigitsValue(init, radix);
      assert v * radix == 0 <==> v == 0;
      if forall i :: 0 <= i < |ds| ==> ds[i] == '0' {
        assert forall i :: 0 <= i < |init| ==> init[i] == ds[i];
      } else {
        var j :| 0 <= j < |ds| && ds[j] != '0';
        if j < |ds| - 1 {
          assert init[j] == ds[j];
        }
      }
    }
  }

  /** `parseInt(s) === 0` read as one left-to-right scan: after the white space and an
      optional sign (and a 0x / 0X prefix), a non-empty run of '0' that the end of the text
      or a character that is not a digit of the radix ends. So "", "abc" and "-" (NaN) are
      not zero, while "0", "-0", "00" and "0.5" are. */
  predicate ParsesToZero(s: string)
    decreases |s|
  {
    if s != [] && IsStrWhiteSpace(s[0]) then ParsesToZero(s[1..])
    else if s != [] && (s[0] == '-' || s[0] == '+') then UnsignedParsesToZero(s[1..])
    else UnsignedParsesToZero(s)
  }

  predicate UnsignedParsesToZero(u: string) {
    if |u| >= 2 && u[0] == '0' && (u[1] == 'x' || u[1] == 'X') then ZeroRun(u[2..], 16)
    else ZeroRun(u, 10)
  }

  /** `b` starts with a '0', and the first character after its leading zeros, if any, is
      not a digit of the radix. */
  predicate ZeroRun(b: string, radix: Radix) {
    b != [] && b[0] == '0' && ZerosThenNoDigit(b[1..], radix)
  }

  predicate ZerosThenNoDigit(b: string, radix: Radix)
    decreases |b|
  {
    b == [] || (if b[0] == '0' then ZerosThenNoDigit(b[1..], radix) else !IsDigit(b[0], radix))
  }

  lemma {:induction false} DigitPrefixZeroRun(b: string, radix: Radix)
    ensures ZeroRun(b, radix) <==>
      var ds := DigitPrefix(b, radix);
      ds != [] && forall i :: 0 <= i < |ds| ==> ds[i] == '0'
  {
    if b != [] && b[0] == '0' {
      ZerosThenNoDigitPrefix(b[1..], radix);
      var ds := DigitPrefix(b, radix);
      assert ds == [b[0]] + DigitPrefix(b[1..], radix);
      assert forall i :: 1 <= i < |ds| ==> ds[i] == DigitPrefix(b[1..], radix)[i - 1];
    }
  }

  lemma {:induction false} ZerosThenNoDigitPrefix(b: string, radix: Radix)
    ensures ZerosThenNoDigit(b, radix) <==>
      var ds := DigitPrefix(b, radix);
      forall i :: 0 <= i < |ds| ==> ds[i] == '0'
    decreases |b|
  {
    if b != [] && IsDigit(b[0], radix) {
      var ds := DigitPrefix(b, radix);
      var rest := DigitPrefix(b[1..], radix);
      assert ds == [b[0]] + rest;
      assert forall i :: 1 <= i < |ds| ==> ds[i] == rest[i - 1];
      ZerosThenNoDigitPrefix(b[1..], radix);
      if b[0] == '0' && forall i :: 0 <= i < |rest| ==> rest[i] == '0' {
        assert forall i :: 0 <= i < |ds| ==> ds[i] == '0' by {
          forall i | 0 <= i < |ds| ensures ds[i] == '0' {
            if i > 0 {
              assert ds[i] == rest[i - 1];
            }
          }
        }
      }
    }
  }

  /** The scan decides exactly `parseInt(s) === 0`. */
  lemma {:induction false} ParsesToZeroIff(s: string)
    ensures ParsesToZero(s) <==> ParseInt(s) == Some(0)
    decreases |s|
  {
    if s != [] && IsStrWhiteSpace(s[0]) {
      assert ScanNumeral(s) == ScanNumeral(s[1..]);
      ParsesToZeroIff(s[1..]);
    } else {
      TrimmedParsesToZeroIff(s);
    }
  }

  lemma TrimmedParsesToZeroIff(s: string)
    requires s == [] || !IsStrWhiteSpace(s[0])
    ensures ParsesToZero(s) <==> ParseInt(s) == Some(0)
  {
    var n := ScanNumeral(s);
    var u := if s != [] && (s[0] == '-' || s[0] == '+') then s[1..] else s;
    assert n.body == (if |u| >= 2 && u[0] == '0' && (u[1] == 'x' || u[1] == 'X') then u[2..] else u);
    assert ParsesToZero(s) == UnsignedParsesToZero(u);
    assert UnsignedParsesToZero(u) == ZeroRun(n.body, n.radix);
    var ds := DigitPrefix(n.body, n.radix);
    DigitPrefixZeroRun(n.body, n.radix);
    if ds != [] {
      DigitsValueZeroIff(ds, n.radix);
      assert ParseInt(s) == Some(0) <==> DigitsValue(ds, n.radix) == 0;
    }
  }

  /** The values a number input typically holds, as parseInt sees them. */
  lemma ParseIntOfEmptyIsNaN()
    ensures ParseInt("") == None
  {
  }

  lemma ParseIntOfZeros()
    ensures ParseInt("0") == Some(0)
    ensures ParseInt("-0") == Some(0)
    ensures ParseInt("0.5") == Some(0)
  {
    assert ParsesToZero("0") && ParsesToZero("-0") && ParsesToZero("0.5");
    ParsesToZeroIff("0");
    ParsesToZeroIff("-0");
    ParsesToZeroIff("0.5");
  }

  // ---------------------------------------------------------------------------
  // Insertion-ordered records
  // ---------------------------------------------------------------------------

  /** A plain JavaScript object whose keys are all non-numeric names keeps them in the
      order they were first assigned; `Object.entries` lists them in that order. */
  type Entries<K> = seq<(K, string)>

  /** `Object.keys`. */
  function Keys<K>(e: Entries<K>): (ks: seq<K>)
    ensures |ks| == |e| && forall i :: 0 <= i < |e| ==> ks[i] == e[i].0
  {
    seq(|e|, i requires 0 <= i < |e| => e[i].0)
  }

  /** The values of `Object.entries`, in order: what the error dialog lists. */
  function Messages<K>(e: Entries<K>): (ms: seq<string>)
    ensures |ms| == |e| && forall i :: 0 <= i < |e| ==> ms[i] == e[i].1
  {
    seq(|e|, i requires 0 <= i < |e| => e[i].1)
  }

  lemma MessagesAppend<K>(a: Entries<K>, b: Entries<K>)
    ensures Messages(a + b) == Messages(a) + Messages(b)
  {
  }
}
