/** The cached endpoint text "host:port" (src/client.rs, `connect` and `restore`). */
module Endpoint {
  import opened Common
  import opened Discovery

  function DigitChar(d: nat): char
    requires d < 10
  {
    ('0' as int + d) as char
  }

  /** A number in decimal, as `format!` prints it. */
  function Decimal(n: nat): (s: string)
    ensures |s| > 0
  {
    if n < 10 then [DigitChar(n)] else Decimal(n / 10) + [DigitChar(n % 10)]
  }

  function FormatEndpoint(host: string, port: Port): string { host + ":" + Decimal(port) }

  /** `rsplit_once(':')`: split at the last colon. */
  function RsplitOnce(s: string): Option<(string, string)> {
    if s == "" then None
    else
      var n := |s| - 1;
      if s[n] == ':' then Some((s[..n], ""))
      else match RsplitOnce(s[..n])
        case None => None
        case Some((left, right)) => Some((left, right + [s[n]]))
  }

  predicate IsDigit(ch: char) { '0' <= ch <= '9' }

  predicate AllDigits(s: string) { forall ch | ch in s :: IsDigit(ch) }

  function DecimalValue(s: string): nat
    requires AllDigits(s)
  {
    if s == "" then 0
    else
      var n := |s| - 1;
      assert s[n] in s;
      10 * DecimalValue(s[..n]) + (s[n] as int - '0' as int)
  }

  /** `parse::<u16>()`: an optional '+', then at least one digit, in range. */
  function ParseU16(s: string): Option<Port> {
    var digits := if |s| > 1 && s[0] == '+' then s[1..] else s;
    if digits == "" || !AllDigits(digits) then None
    else if DecimalValue(digits) < 0x1_0000 then Some(DecimalValue(digits))
    else None
  }

  /** What `restore` makes of a cached endpoint. */
  function SplitEndpoint(s: string): Option<(string, Port)> {
    match RsplitOnce(s)
    case None => None
    case Some((host, port)) =>
      match ParseU16(port)
      case None => None
      case Some(p) => Some((host, p))
  }

  lemma {:induction false} DecimalIsDigits(n: nat)
    ensures AllDigits(Decimal(n)) && DecimalValue(Decimal(n)) == n
  {
    if n >= 10 {
      DecimalIsDigits(n / 10);
      var front := Decimal(n / 10);
      assert Decimal(n)[..|front|] == front;
    }
  }

  lemma {:induction false} RsplitAtLastColon(host: string, digits: string)
    requires AllDigits(digits)
    ensures RsplitOnce(host + ":" + digits) == Some((host, digits))
  {
    var s := host + ":" + digits;
    if digits == "" {
      assert s[..|s| - 1] == host;
    } else {
      var n := |digits| - 1;
      assert s[..|s| - 1] == host + ":" + digits[..n];
      RsplitAtLastColon(host, digits[..n]);
      assert digits == digits[..n] + [digits[n]];
      assert digits[n] in digits && s[|s| - 1] == digits[n];
    }
  }

  /** For every host, colons included, and every port, splitting the cached text gives both back. */
  lemma EndpointRoundTrip(host: string, port: Port)
    ensures SplitEndpoint(FormatEndpoint(host, port)) == Some((host, port))
  {
    DecimalIsDigits(port);
    RsplitAtLastColon(host, Decimal(port));
    assert Decimal(port)[0] != '+' by {
      assert Decimal(port)[0] in Decimal(port);
    }
  }

  // ---- Any stored text at all ----

  function Zeroes(k: nat): string { seq(k, _ => '0') }

  /** A text splits into host and tail exactly when it is host, colon, tail with no colon in the tail. */
  lemma {:induction false} RsplitExactly(s: string, host: string, tail: string)
    ensures RsplitOnce(s) == Some((host, tail)) <==> s == host + ":" + tail && ':' !in tail
    ensures RsplitOnce(s) == None <==> ':' !in s
  {
    if s != "" {
      var n := |s| - 1;
      assert s == s[..n] + [s[n]];
      if s[n] == ':' {
        assert s == host + ":" + tail && ':' !in tail ==> tail == "" by {
          assert s == host + ":" + tail && tail != "" ==> s[n] == tail[|tail| - 1];
        }
        assert s == s[..n] + ":" + "";
        assert s == host + ":" + "" ==> host == s[..n];
      } else {
        var shorter := if tail == "" then "" else tail[..|tail| - 1];
        RsplitExactly(s[..n], host, shorter);
        if s == host + ":" + tail && ':' !in tail {
          assert tail != "" && s[n] == tail[|tail| - 1];
          assert tail == shorter + [s[n]];
          assert s[..n] == host + ":" + shorter;
        }
        if RsplitOnce(s) == Some((host, tail)) {
          assert tail == shorter + [s[n]];
          assert s == host + ":" + tail;
        }
      }
    }
  }

  lemma {:induction false} LeadingZeroes(k: nat, digits: string)
    requires AllDigits(digits)
    ensures AllDigits(Zeroes(k) + digits) && DecimalValue(Zeroes(k) + digits) == DecimalValue(digits)
    decreases k + |digits|
  {
    var s := Zeroes(k) + digits;
    if digits != "" {
      var n := |digits| - 1;
      LeadingZeroes(k, digits[..n]);
      assert s[..|s| - 1] == Zeroes(k) + digits[..n];
    } else if k > 0 {
      LeadingZeroes(k - 1, "");
      assert s[..|s| - 1] == Zeroes(k - 1) + "";
    }
  }

  lemma DecimalGrows(v: nat, d: nat)
    requires d < 10
    ensures Decimal(10 * v + d) == if v == 0 then [DigitChar(d)] else Decimal(v) + [DigitChar(d)]
  {
  }

  lemma OneMoreZero(k: nat)
    ensures Zeroes(k) + [DigitChar(0)] == Zeroes(k + 1)
  {
  }

  lemma Regroup(a: string, b: string, c: string)
    ensures (a + b) + c == a + (b + c)
  {
  }

  lemma LastIsDigit(digits: string)
    requires AllDigits(digits) && digits != ""
    ensures AllDigits(digits[..|digits| - 1]) && IsDigit(digits[|digits| - 1])
  {
    hide DecimalValue;
    assert digits[|digits| - 1] in digits;
  }

  lemma LastDigit(digits: string) returns (d: nat)
    requires AllDigits(digits) && digits != ""
    ensures d < 10 && digits[|digits| - 1] == DigitChar(d) && AllDigits(digits[..|digits| - 1])
    ensures DecimalValue(digits) == 10 * DecimalValue(digits[..|digits| - 1]) + d
  {
    hide AllDigits, DigitChar, DecimalValue;
    LastIsDigit(digits);
    ValueStep(digits);
    DigitOfChar(digits[|digits| - 1]);
    d := digits[|digits| - 1] as int - '0' as int;
  }

  lemma ValueStep(digits: string)
    requires AllDigits(digits) && digits != "" && AllDigits(digits[..|digits| - 1])
    ensures DecimalValue(digits) ==
            10 * DecimalValue(digits[..|digits| - 1]) + (digits[|digits| - 1] as int - '0' as int)
  {
    hide AllDigits;
  }

  lemma LastCut(s: string)
    requires s != ""
    ensures s == s[..|s| - 1] + [s[|s| - 1]]
  {
  }

  lemma DigitOfChar(ch: char)
    requires IsDigit(ch)
    ensures DigitChar(ch as int - '0' as int) == ch
  {
  }

  /** A digit string is the decimal of its value with some zeros in front. */
  lemma {:induction false} DigitsAreDecimal(digits: string) returns (k: nat)
    requires AllDigits(digits) && digits != ""
    ensures digits == Zeroes(k) + Decimal(DecimalValue(digits))
    decreases |digits|
  {
    hide Decimal, AllDigits, DigitChar, DecimalValue, Zeroes;
    var d := LastDigit(digits);
    LastCut(digits);
    var front := digits[..|digits| - 1];
    var v := DecimalValue(front);
    DecimalGrows(v, d);
    if front == "" {
      k := 0;
      NoValue();
      NoZeroes([DigitChar(d)]);
    } else {
      k := DigitsAreDecimal(front);
      if v == 0 {
        DecimalGrows(0, 0);
        OneMoreZero(k);
        k := k + 1;
      } else {
        Regroup(Zeroes(k), Decimal(v), [DigitChar(d)]);
      }
    }
  }

  lemma NoValue()
    ensures DecimalValue("") == 0
  {
  }

  lemma NoZeroes(s: string)
    ensures Zeroes(0) + s == s == "" + s
  {
  }

  /** An optional plus, some zeros, a decimal. */
  function PortText(plus: bool, k: nat, p: Port): string { (if plus then "+" else "") + (Zeroes(k) + Decimal(p)) }

  lemma PortTextParses(plus: bool, k: nat, p: Port)
    ensures ParseU16(PortText(plus, k, p)) == Some(p)
  {
    DecimalIsDigits(p);
    LeadingZeroes(k, Decimal(p));
    hide Decimal, DecimalValue;
    var s, digits := PortText(plus, k, p), Zeroes(k) + Decimal(p);
    assert digits[0] in digits;
    assert plus ==> s[1..] == digits;
    assert !plus ==> s == digits;
  }

  /** The texts that a port is read from are exactly those. */
  lemma PortTextExactly(s: string, p: Port)
    ensures ParseU16(s) == Some(p) <==> exists plus: bool, k: nat :: s == PortText(plus, k, p)
  {
    forall plus: bool, k: nat | s == PortText(plus, k, p) ensures ParseU16(s) == Some(p) {
      PortTextParses(plus, k, p);
    }
    if ParseU16(s) == Some(p) {
      var plus := |s| > 1 && s[0] == '+';
      var digits := if plus then s[1..] else s;
      assert digits != "" && AllDigits(digits) && DecimalValue(digits) == p;
      hide ParseU16, Decimal, DecimalValue;
      var k := DigitsAreDecimal(digits);
      assert plus ==> s == "+" + digits;
      assert s == PortText(plus, k, p);
    }
  }
}
