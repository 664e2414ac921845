/** The three number conversions the forms rely on, over integers and integer cents:
    `parseInt(s)` (ids from `<select>` values), `parseFloat(s)` on an amount (read here as
    a whole number of cents), and `n.toFixed(2)` (the text of a computed total). */
module JsNumber {
  import opened Values

  predicate IsDigit(c: char) {
    '0' <= c <= '9'
  }

  /** The white space `parseInt` and `parseFloat` skip before a number. */
  predicate IsSpace(c: char) {
    c == ' ' || c == '\t' || c == '\n' || c == '\r'
  }

  predicate AllDigits(s: string) {
    forall i :: 0 <= i < |s| ==> IsDigit(s[i])
  }

  function DigitValue(c: char): (d: nat)
    requires IsDigit(c)
    ensures d < 10
  {
    c as int - '0' as int
  }

  function DigitChar(d: nat): (c: char)
    requires d < 10
    ensures IsDigit(c) && DigitValue(c) == d
  {
    ('0' as int + d) as char
  }

  /** Value of a run of decimal digits, most significant digit first. */
  function DigitsValue(s: string): nat
    requires AllDigits(s)
  {
    if |s| == 0 then 0 else 10 * DigitsValue(s[..|s| - 1]) + DigitValue(s[|s| - 1])
  }

  /** Length of the longest run of digits at the front of `s`. */
  function DigitRun(s: string): (n: nat)
    ensures n <= |s|
    ensures AllDigits(s[..n])
    ensures n < |s| ==> !IsDigit(s[n])
  {
    if |s| == 0 || !IsDigit(s[0]) then 0
    else
      var k := DigitRun(s[1..]);
      assert s[..1 + k] == [s[0]] + s[1..][..k];
      1 + k
  }

  /** `s` without its leading white space. */
  function TrimStart(s: string): (t: string)
    ensures |t| <= |s|
    ensures t == [] || !IsSpace(t[0])
  {
    if |s| > 0 && IsSpace(s[0]) then TrimStart(s[1..]) else s
  }

  /** Splits an optional leading sign off: whether it was `-`, and the rest. */
  function SplitSign(s: string): (bool, string) {
    if |s| > 0 && s[0] == '-' then (true, s[1..])
    else if |s| > 0 && s[0] == '+' then (false, s[1..])
    else (false, s)
  }

  function Signed(negative: bool, n: nat): int {
    if negative then -(n as int) else n
  }

  /** The digits at the front of `u` as a natural number; `None` when there are none. */
  function LeadingNat(u: string): (r: Option<nat>)
    ensures r.None? <==> (u == [] || !IsDigit(u[0]))
  {
    var n := DigitRun(u);
    if n == 0 then None else Some(DigitsValue(u[..n]))
  }

  /** `parseInt(s)` with no radix: skip leading white space, read an optional sign
      and the longest run of decimal digits, ignore the rest; `None` is `NaN`. */
  function ParseInt(s: string): Option<int> {
    var signed := SplitSign(TrimStart(s));
    match LeadingNat(signed.1)
    case None => None
    case Some(v) => Some(Signed(signed.0, v))
  }

  /** `parseInt(value)` as a field value: a number, or `NaN`. */
  function ParsedInt(value: string): (v: Scalar)
    ensures ParseInt(value).Some? ==> v == Num(ParseInt(value).value)
    ensures ParseInt(value).None? ==> v == NaN
  {
    match ParseInt(value)
    case Some(n) => Num(n)
    case None => NaN
  }

  /** Decimal text of a natural number, without leading zeros. */
  function NatToString(n: nat): (s: string)
    ensures |s| > 0 && AllDigits(s)
    ensures s[0] == '0' ==> |s| == 1
    ensures DigitsValue(s) == n
  {
    if n < 10 then [DigitChar(n)]
    else
      var front := NatToString(n / 10);
      var s := front + [DigitChar(n % 10)];
      assert s[..|s| - 1] == front;
      s
  }

  /** `String(i)` for an integer: how an id becomes an `<option>` value. */
  function IntToString(i: int): (s: string)
    ensures |s| > 0
    ensures i >= 0 ==> AllDigits(s)
    ensures i < 0 ==> s[0] == '-' && AllDigits(s[1..])
  {
    if i < 0 then "-" + NatToString(-i) else NatToString(i)
  }

  /** Value in cents of the fraction digits after the point; digits past the
      second (fractions of a cent) are dropped. */
  function FractionCents(f: string): (c: nat)
    requires AllDigits(f)
    ensures c < 100
    ensures |f| >= 2 ==> c == 10 * DigitValue(f[0]) + DigitValue(f[1])
  {
    if |f| == 0 then 0
    else if |f| == 1 then 10 * DigitValue(f[0])
    else 10 * DigitValue(f[0]) + DigitValue(f[1])
  }

  /** The fraction digits of `rest` when it starts with a decimal point. */
  function FractionDigits(rest: string): (f: string)
    ensures AllDigits(f)
    ensures |f| > 0 ==> |rest| > 1 && rest[0] == '.' && IsDigit(rest[1])
  {
    if |rest| > 0 && rest[0] == '.' then rest[1..][..DigitRun(rest[1..])] else ""
  }

  /** An unsigned amount at the front of `u`, in cents: digits, and optionally a
      point and more digits; at least one digit is needed. */
  function LeadingCents(u: string): (r: Option<nat>)
    ensures r.Some? ==> |u| > 0 && (IsDigit(u[0]) || (|u| > 1 && IsDigit(u[1])))
  {
    var n := DigitRun(u);
    var frac := FractionDigits(u[n..]);
    if n == 0 && |frac| == 0 then None
    else Some(100 * DigitsValue(u[..n]) + FractionCents(frac))
  }

  /** `parseFloat(s)` on an amount, in cents: skip leading white space, read an
      optional sign, digits, and optionally a point and more digits, ignore the rest.
      At least one digit is needed, else the result is `NaN` (`None`). */
  function ParseCents(s: string): Option<int> {
    var signed := SplitSign(TrimStart(s));
    match LeadingCents(signed.1)
    case None => None
    case Some(v) => Some(Signed(signed.0, v))
  }

  /** `parseFloat(s) || 0`: an empty or non-numeric amount counts as zero. */
  function ParseOrZero(s: string): int {
    ParseCents(s).GetOr(0)
  }

  /** Unsigned fixed-point text `q.mm` of `q` whole units and `m` cents. */
  function FixedText(q: nat, m: nat): (s: string)
    requires m < 100
    ensures |s| >= 4 && s[|s| - 3] == '.'
    ensures IsDigit(s[0]) && IsDigit(s[|s| - 2]) && IsDigit(s[|s| - 1])
  {
    NatToString(q) + "." + [DigitChar(m / 10), DigitChar(m % 10)]
  }

  /** `(c / 100).toFixed(2)`: the amount with exactly two digits after the point. */
  function FormatCents(c: int): (s: string)
    ensures |s| >= 4 && s[|s| - 3] == '.'
    ensures IsDigit(s[|s| - 2]) && IsDigit(s[|s| - 1])
    ensures (c < 0) <==> s[0] == '-'
  {
    var a := if c < 0 then -c else c;
    var t := FixedText(a / 100, a % 100);
    if c < 0 then "-" + t else t
  }

  /** A digit run followed by a non-digit (or nothing) is read exactly to its end. */
  lemma DigitRunStopsAt(d: string, rest: string)
    requires AllDigits(d)
    requires rest == [] || !IsDigit(rest[0])
    ensures DigitRun(d + rest) == |d|
    ensures (d + rest)[..|d|] == d
  {
  }

  /** Text that does not start with white space or a sign is read as it stands. */
  lemma UnsignedText(u: string)
    requires u == [] || (!IsSpace(u[0]) && u[0] != '-' && u[0] != '+')
    ensures SplitSign(TrimStart(u)) == (false, u)
  {
  }

  /** A minus sign in front of unsigned text only marks the number negative. */
  lemma NegatedText(u: string)
    requires u == [] || (!IsSpace(u[0]) && u[0] != '-' && u[0] != '+')
    ensures SplitSign(TrimStart("-" + u)) == (true, u)
  {
  }

  lemma LeadingNatOfNumeral(n: nat)
    ensures LeadingNat(NatToString(n)) == Some(n)
  {
    var d := NatToString(n);
    DigitRunStopsAt(d, []);
    assert d + [] == d;
  }

  /** Round trip of an id through an `<option>` value: `parseInt(String(i)) == i`. */
  lemma ParseIntRoundTrip(i: int)
    ensures ParseInt(IntToString(i)) == Some(i)
  {
    var a: nat := if i < 0 then -i else i;
    var d := NatToString(a);
    LeadingNatOfNumeral(a);
    if i < 0 {
      NegatedText(d);
    } else {
      UnsignedText(d);
    }
  }

  /** Reading back the text `toFixed(2)` writes for a non-negative number of cents. */
  lemma LeadingCentsOfFixed(q: nat, m: nat)
    requires m < 100
    ensures LeadingCents(FixedText(q, m)) == Some(100 * q + m)
  {
    var whole := NatToString(q);
    var frac := [DigitChar(m / 10), DigitChar(m % 10)];
    var u := FixedText(q, m);
    assert u == whole + ("." + frac);
    DigitRunStopsAt(whole, "." + frac);
    assert u[|whole|..] == "." + frac;
    assert ("." + frac)[1..] == frac;
    DigitRunStopsAt(frac, []);
    assert frac + [] == frac;
    assert FractionDigits("." + frac) == frac;
    assert FractionCents(frac) == m;
  }

  /** Round trip of a computed total: `parseFloat(x.toFixed(2))` gives back `x`
      for every whole number of cents. */
  lemma ParseCentsRoundTrip(c: int)
    ensures ParseCents(FormatCents(c)) == Some(c)
  {
    var a: nat := if c < 0 then -c else c;
    var u := FixedText(a / 100, a % 100);
    LeadingCentsOfFixed(a / 100, a % 100);
    assert 100 * (a / 100) + a % 100 == a;
    if c < 0 {
      NegatedText(u);
      assert FormatCents(c) == "-" + u;
    } else {
      UnsignedText(u);
      assert FormatCents(c) == u;
    }
  }

  /** Trimming and sign splitting only drop characters from the front: leading
      white space, then at most one sign. */
  lemma {:induction false} SignedPartIsSuffix(s: string)
    ensures var u := SplitSign(TrimStart(s)).1;
      |u| <= |s| && forall i :: 0 <= i < |u| ==> u[i] == s[|s| - |u| + i]
    ensures var d := |s| - |SplitSign(TrimStart(s)).1|;
      (forall i :: 0 <= i < d - 1 ==> IsSpace(s[i])) &&
      (d > 0 ==> IsSpace(s[d - 1]) || s[d - 1] == '-' || s[d - 1] == '+')
    decreases |s|
  {
    if |s| > 0 && IsSpace(s[0]) {
      SignedPartIsSuffix(s[1..]);
      assert forall i :: 1 <= i < |s| ==> s[i] == s[1..][i - 1];
    }
  }

  /** Text without a single digit is not a number to `parseInt` or `parseFloat`,
      so it counts as zero in a recomputed total. */
  lemma NoDigitNoNumber(s: string)
    requires forall i :: 0 <= i < |s| ==> !IsDigit(s[i])
    ensures ParseInt(s) == None
    ensures ParseCents(s) == None
    ensures ParseOrZero(s) == 0
  {
    var u := SplitSign(TrimStart(s)).1;
    SignedPartIsSuffix(s);
    if |u| > 0 {
      assert u[0] == s[|s| - |u|];
    }
    if |u| > 1 {
      assert u[1] == s[|s| - |u| + 1];
    }
  }

  /** A blank amount is `NaN` for `parseFloat` and zero for `parseFloat(...) || 0`:
      the empty text has no digit. */
  lemma BlankAmount()
    ensures ParseCents("") == None
    ensures ParseOrZero("") == 0
  {
    NoDigitNoNumber("");
  }
}
