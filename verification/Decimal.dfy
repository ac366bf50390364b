/** Printing of ports and addresses (internal/registry/types.go): a decimal printer that fills a fixed buffer
    backwards. */
module Decimals {

  // ---- What a decimal numeral is ----

  predicate IsDigit(c: char) {
    '0' <= c <= '9'
  }

  function DigitValue(c: char): (d: nat)
    requires IsDigit(c)
    ensures d < 10
  {
    (c as int) - ('0' as int)
  }

  function DigitOf(d: nat): (c: char)
    requires d < 10
    ensures IsDigit(c) && DigitValue(c) == d
  {
    (('0' as int) + d) as char
  }

  /** Digits only, at least one, and no leading zero but that of zero itself. */
  predicate IsNumeral(s: string) {
    && s != ""
    && (forall c :: c in s ==> IsDigit(c))
    && (s[0] == '0' ==> |s| == 1)
  }

  /** Positional value, as a parser reads it from the left. */
  function Value(s: string): nat
    requires forall c :: c in s ==> IsDigit(c)
  {
    if s == "" then 0 else Value(s[..|s| - 1]) * 10 + DigitValue(s[|s| - 1])
  }

  function Numeral(v: nat): (s: string)
    ensures s != "" && forall c :: c in s ==> IsDigit(c)
  {
    if v < 10 then [DigitOf(v)] else Numeral(v / 10) + [DigitOf(v % 10)]
  }

  lemma {:induction false} NumeralParsesBack(v: nat)
    ensures IsNumeral(Numeral(v)) && Value(Numeral(v)) == v
    ensures v > 0 ==> Numeral(v)[0] != '0'
  {
    var s := Numeral(v);
    if v < 10 {
      assert s[..|s| - 1] == "";
    } else {
      NumeralParsesBack(v / 10);
      assert s[..|s| - 1] == Numeral(v / 10) && s[0] == Numeral(v / 10)[0];
    }
  }

  lemma {:induction false} PositiveValue(s: string)
    requires IsNumeral(s) && s[0] != '0'
    ensures Value(s) > 0
  {
    if |s| > 1 {
      PositiveValue(s[..|s| - 1]);
    }
  }

  lemma {:induction false} ValuePrintsBack(s: string)
    requires IsNumeral(s)
    ensures Numeral(Value(s)) == s
  {
    var front, last := s[..|s| - 1], s[|s| - 1];
    assert s == front + [last];
    if front != "" {
      ValuePrintsBack(front);
      PositiveValue(front);
      assert Value(s) / 10 == Value(front) && Value(s) % 10 == DigitValue(last);
    }
  }

  /** Each number has exactly one numeral. */
  lemma NumeralIsUnique(v: nat, s: string)
    ensures s == Numeral(v) <==> IsNumeral(s) && Value(s) == v
  {
    NumeralParsesBack(v);
    if IsNumeral(s) {
      ValuePrintsBack(s);
    }
  }

  // ---- The buffer ----

  const UINT64_LIMIT := 0x1_0000_0000_0000_0000

  function PowerOfTen(n: nat): (p: nat)
    ensures p >= 1
  {
    if n == 0 then 1 else 10 * PowerOfTen(n - 1)
  }

  /** A numeral has at most n digits exactly when the number is below the n-th power of ten. */
  lemma {:induction false} NumeralFits(v: nat, n: nat)
    requires n > 0
    ensures |Numeral(v)| <= n <==> v < PowerOfTen(n)
  {
    if n == 1 {
      assert PowerOfTen(1) == 10 * PowerOfTen(0);
    } else if v >= 10 {
      NumeralFits(v / 10, n - 1);
    }
  }

  lemma TwentyDigits()
    ensures PowerOfTen(19) < UINT64_LIMIT <= PowerOfTen(20)
  {
    assert PowerOfTen(5) == 100_000;
    assert PowerOfTen(10) == 10_000_000_000;
    assert PowerOfTen(15) == 1_000_000_000_000_000;
    assert PowerOfTen(19) == 10_000_000_000_000_000_000;
  }

  /** Twenty places are just enough: every 64-bit number fits, and some need them all. */
  lemma BufferIsTight()
    ensures forall v: nat :: v < UINT64_LIMIT ==> |Numeral(v)| <= 20
    ensures exists v: nat :: v < UINT64_LIMIT && |Numeral(v)| == 20
  {
    TwentyDigits();
    forall v: nat | v < UINT64_LIMIT ensures |Numeral(v)| <= 20 {
      NumeralFits(v, 20);
    }
    NumeralFits(PowerOfTen(19), 19);
    NumeralFits(PowerOfTen(19), 20);
  }

  /** The one numeral of a 64-bit number; no index leaves the buffer. */
  method UintToString(value: nat) returns (s: string)
    requires value < UINT64_LIMIT
    ensures IsNumeral(s) && Value(s) == value
  {
    NumeralParsesBack(value);
    if value == 0 {
      assert Numeral(0) == "0";
      return "0";
    }
    BufferIsTight();
    var v: nat := value;
    var buf := new char[20];
    var pos := buf.Length;
    while v > 0
      invariant 0 <= pos <= buf.Length
      invariant v > 0 ==> |Numeral(v)| <= pos && Numeral(value) == Numeral(v) + buf[pos..]
      invariant v == 0 ==> Numeral(value) == buf[pos..]
    {
      ghost var tail := buf[pos..];
      pos := pos - 1;
      buf[pos] := DigitOf(v % 10);
      assert buf[pos..] == [DigitOf(v % 10)] + tail;
      v := v / 10;
    }
    s := buf[pos..];
  }

  // ---- Addresses ----

  /** Nothing without an IP and a port. */
  function Address(ip: string, port: nat): (a: string)
    ensures a == "" <==> ip == "" || port == 0
  {
    if ip == "" || port == 0 then "" else ip + ":" + Numeral(port)
  }

  lemma LastColon(ip: string, port: nat, k: nat)
    requires ip != "" && port != 0 && k < |Address(ip, port)|
    ensures k == |ip| ==> Address(ip, port)[k] == ':'
    ensures k > |ip| ==> Address(ip, port)[k] != ':'
  {
    if k > |ip| {
      var c := Numeral(port)[k - |ip| - 1];
      assert Address(ip, port)[k] == c && c in Numeral(port);
    }
  }

  /** An address names one IP and one port, even when the IP has colons of its own. */
  lemma AddressIsUnambiguous(ip: string, port: nat, ip': string, port': nat)
    requires Address(ip, port) == Address(ip', port') != ""
    ensures ip == ip' && port == port'
  {
    var a := Address(ip, port);
    LastColon(ip, port, |ip|);
    LastColon(ip', port', |ip'|);
    LastColon(ip, port, |ip'|);
    LastColon(ip', port', |ip|);
    assert ip == a[..|ip|] && ip' == a[..|ip'|];
    assert Numeral(port) == a[|ip| + 1..] && Numeral(port') == a[|ip'| + 1..];
    NumeralParsesBack(port);
    NumeralParsesBack(port');
  }
}
