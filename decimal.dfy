/** Decimal numbers as the two runtimes read and write them, on exact `real`s:
    JavaScript's `parseFloat` and `Number.prototype.toFixed(6)`, and Python's
    `float(str)`. Only plain decimal notation is modelled (see README). */
module Decimal {
  import opened Wrappers
  import opened Text

  /** Whitespace that JavaScript's `parseFloat` skips before the number. */
  predicate IsJsSpace(c: char) {
    c == ' ' || c == '\t' || c == '\n' || c == '\r' || c == '\U{B}' || c == '\U{C}'
    || c == '\U{A0}' || c == '\U{FEFF}' || c == '\U{1680}' || ('\U{2000}' <= c <= '\U{200A}')
    || c == '\U{2028}' || c == '\U{2029}' || c == '\U{202F}' || c == '\U{205F}' || c == '\U{3000}'
  }

  function JsTrimStart(s: string): (r: string)
    ensures |r| <= |s| && r == s[|s| - |r|..]
    ensures r != [] ==> !IsJsSpace(r[0])
  {
    if s != [] && IsJsSpace(s[0]) then JsTrimStart(s[1..]) else s
  }

  /** Number of leading decimal digits of `s`. */
  function LeadingDigits(s: string): (n: nat)
    ensures n <= |s| && AllDigits(s[..n])
    ensures n < |s| ==> !IsDigit(s[n])
  {
    if s != [] && IsDigit(s[0]) then
      var k := LeadingDigits(s[1..]);
      assert s[..k + 1] == [s[0]] + s[1..][..k];
      1 + k
    else 0
  }

  /** The value of a digit string read after a decimal point. */
  function FractionValue(f: string): real
    requires AllDigits(f)
  {
    DigitsValue(f) as real / Pow10(|f|) as real
  }

  /** The shape of the longest prefix of `s` of the form [+-] digits [. digits]:
      whether it is negative, its integer digits, its fraction digits and its
      length in characters. */
  datatype Literal = Literal(negative: bool, whole: string, fraction: string, length: nat)

  function ScanDecimal(s: string): (r: Literal)
    ensures AllDigits(r.whole) && AllDigits(r.fraction) && r.length <= |s|
  {
    var signed := s != [] && (s[0] == '-' || s[0] == '+');
    var u := if signed then s[1..] else s;
    var i := LeadingDigits(u);
    var dot := i < |u| && u[i] == '.';
    var f := if dot then LeadingDigits(u[i + 1..]) else 0;
    var frac := if dot then u[i + 1..][..f] else "";
    Literal(s != [] && s[0] == '-', u[..i], frac, (if signed then 1 else 0) + i + (if dot then 1 + f else 0))
  }

  /** The longest numeric prefix of `s` (at least one digit), as its value and
      its length in characters. */
  function DecimalPrefix(s: string): (r: Option<(real, nat)>)
    ensures r.Some? ==> 0 < r.value.1 <= |s|
  {
    var lit := ScanDecimal(s);
    if lit.whole == [] && lit.fraction == [] then None
    else
      Some((LiteralValue(lit.negative, lit.whole, lit.fraction), lit.length))
  }

  /** JavaScript's `parseFloat`: leading whitespace skipped, then the longest
      numeric prefix; `None` stands for `NaN`. */
  function ParseFloat(s: string): (r: Option<real>)
    ensures r.None? <==> DecimalPrefix(JsTrimStart(s)).None?
  {
    match DecimalPrefix(JsTrimStart(s))
    case None => None
    case Some((v, _)) => Some(v)
  }

  /** Python's `float(s)`: surrounding whitespace stripped, and then the whole
      rest must be a number, otherwise `ValueError` (`None`). */
  function PyFloat(s: string): (r: Option<real>)
    ensures r.Some? ==> PyStrip(s) != []
  {
    var t := PyStrip(s);
    match DecimalPrefix(t)
    case Some((v, n)) => if n == |t| then Some(v) else None
    case None => None
  }

  /** `x.toFixed(6)` rounds the magnitude to the nearest millionth, a tie
      going to the larger magnitude; this is the number that text denotes. */
  function Round6(x: real): real {
    var n := Millionths(x);
    if x < 0.0 then -(n as real / 1000000.0) else n as real / 1000000.0
  }

  /** The magnitude of `x` in millionths, rounded half-up. */
  function Millionths(x: real): (n: nat)
    ensures (n as real - 0.5) / 1000000.0 <= (if x < 0.0 then -x else x) < (n as real + 0.5) / 1000000.0
  {
    var a := if x < 0.0 then -x else x;
    (a * 1000000.0 + 0.5).Floor
  }

  /** The text of a number with `q` whole units and `r` millionths. */
  function FixedText(negative: bool, q: nat, r: nat): (s: string)
    requires r < 1000000
    ensures |s| >= 8 && s[|s| - 7] == '.'
  {
    Pow10Six();
    NatToStringLength(r, 6);
    Render(negative, NatToString(q), ZeroPad(NatToString(r), 6))
  }

  /** A decimal literal: optional "-", whole digits, ".", fraction digits. */
  function Render(negative: bool, whole: string, fraction: string): string {
    (if negative then "-" else "") + whole + "." + fraction
  }

  /** The number a literal with these digits denotes. */
  function LiteralValue(negative: bool, whole: string, fraction: string): real
    requires AllDigits(whole) && AllDigits(fraction)
  {
    Signed(negative, DigitsValue(whole) as real + FractionValue(fraction))
  }

  /** `m` with a minus sign in front when `negative`. */
  function Signed(negative: bool, m: real): real {
    if negative then -m else m
  }

  /** `q` whole units and `r` millionths. */
  function FromMillionths(q: nat, r: nat): real {
    q as real + r as real / 1000000.0
  }

  /** JavaScript's `x.toFixed(6)`: optional "-", integer digits, ".", and
      exactly six fraction digits. */
  function ToFixed6(x: real): (s: string)
    ensures |s| >= 8 && s[|s| - 7] == '.'
  {
    var n := Millionths(x);
    FixedText(x < 0.0, n / 1000000, n % 1000000)
  }

  lemma {:induction false} LeadingDigitsOf(d: string, rest: string)
    requires AllDigits(d)
    requires rest == [] || !IsDigit(rest[0])
    ensures LeadingDigits(d + rest) == |d|
    decreases |d|
  {
    if d != [] {
      assert (d + rest)[1..] == d[1..] + rest;
      LeadingDigitsOf(d[1..], rest);
    } else {
      assert d + rest == rest;
    }
  }

  lemma Pow10Six()
    ensures Pow10(6) == 1000000
  {
    assert Pow10(2) == 100;
    assert Pow10(4) == 10000;
  }

  /** The unsigned part of a rendered literal: the whole digits, the point,
      the fraction digits. */
  lemma UnsignedParts(ip: string, fp: string)
    requires ip != [] && AllDigits(ip) && AllDigits(fp)
    ensures var u := ip + "." + fp;
      LeadingDigits(u) == |ip| && |ip| < |u| && u[|ip|] == '.' && u[..|ip|] == ip
      && LeadingDigits(u[|ip| + 1..]) == |fp| && u[|ip| + 1..][..|fp|] == fp && |u| == |ip| + 1 + |fp|
  {
    var u := ip + "." + fp;
    LeadingDigitsOf(ip, "." + fp);
    assert u == ip + ("." + fp);
    assert u[..|ip|] == ip;
    assert u[|ip| + 1..] == fp;
    LeadingDigitsOf(fp, "");
    assert fp + "" == fp;
    assert fp[..|fp|] == fp;
  }

  /** How `ScanDecimal` reads a well-formed decimal literal in full. */
  lemma ScanLiteral(neg: bool, ip: string, fp: string)
    requires ip != [] && AllDigits(ip) && AllDigits(fp)
    ensures ScanDecimal(Render(neg, ip, fp)) == Literal(neg, ip, fp, |Render(neg, ip, fp)|)
  {
    var s := Render(neg, ip, fp);
    var u := ip + "." + fp;
    assert (if neg then s[1..] else s) == u;
    assert s[0] == (if neg then '-' else ip[0]);
    UnsignedParts(ip, fp);
  }

  /** Whole and fraction digits together denote `q + r / 10^6`. */
  lemma {:induction false} MillionthsValue(q: nat, r: nat)
    requires r < 1000000
    ensures DigitsValue(NatToString(q)) as real + FractionValue(ZeroPad(NatToString(r), 6)) == q as real + r as real / 1000000.0
  {
    var f := ZeroPad(NatToString(r), 6);
    Pow10Six();
    NatToStringLength(r, 6);
    assert |f| == 6;
    NatToStringValue(q);
    NatToStringValue(r);
    ZeroPadValue(NatToString(r), 6);
  }

  /** Reading back what `toFixed(6)` wrote gives the rounded number: the
      coordinate fields always hold a value `parseFloat` accepts. */
  lemma {:induction false} ParseToFixed6(x: real)
    ensures ParseFloat(ToFixed6(x)) == Some(Round6(x))
  {
    var n := Millionths(x);
    ParseFixedText(x < 0.0, n / 1000000, n % 1000000);
    Round6Parts(x);
    assert ToFixed6(x) == FixedText(x < 0.0, n / 1000000, n % 1000000);
  }

  lemma Round6Parts(x: real)
    ensures Round6(x) == Signed(x < 0.0, FromMillionths(Millionths(x) / 1000000, Millionths(x) % 1000000))
  {
    var n := Millionths(x);
    assert n == n / 1000000 * 1000000 + n % 1000000;
  }

  /** A well-formed literal parses to the number its digits denote. */
  lemma {:induction false} ParseLiteral(neg: bool, ip: string, fp: string)
    requires ip != [] && AllDigits(ip) && AllDigits(fp)
    ensures ParseFloat(Render(neg, ip, fp)) == Some(LiteralValue(neg, ip, fp))
  {
    var s := Render(neg, ip, fp);
    assert s[0] == (if neg then '-' else ip[0]);
    NoLeadingSpace(s);
    ScanLiteral(neg, ip, fp);
    assert DecimalPrefix(s) == Some((LiteralValue(neg, ip, fp), |s|));
  }

  /** A string opening with a sign or a digit has nothing to trim. */
  lemma NoLeadingSpace(s: string)
    requires s != [] && (s[0] == '-' || IsDigit(s[0]))
    ensures JsTrimStart(s) == s
  {
    assert !IsJsSpace(s[0]);
  }

  /** The text `toFixed(6)` writes parses back to the number it shows. */
  lemma {:induction false} ParseFixedText(negative: bool, q: nat, r: nat)
    requires r < 1000000
    ensures ParseFloat(FixedText(negative, q, r)) == Some(Signed(negative, FromMillionths(q, r)))
  {
    ParseFixedDigits(negative, q, r);
    FixedDigitsValue(negative, q, r);
  }

  lemma ParseFixedDigits(negative: bool, q: nat, r: nat)
    requires r < 1000000
    ensures ParseFloat(FixedText(negative, q, r)) == Some(LiteralValue(negative, NatToString(q), ZeroPad(NatToString(r), 6)))
  {
    ParseLiteral(negative, NatToString(q), ZeroPad(NatToString(r), 6));
  }

  lemma FixedDigitsValue(negative: bool, q: nat, r: nat)
    requires r < 1000000
    ensures LiteralValue(negative, NatToString(q), ZeroPad(NatToString(r), 6)) == Signed(negative, FromMillionths(q, r))
  {
    MillionthsValue(q, r);
  }
}
