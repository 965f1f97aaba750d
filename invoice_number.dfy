/** Invoice numbers: the display format of the stored counter, and the
    counter itself, which is read and advanced once per invoice. */
module InvoiceNumber {
  import opened Wrappers

  predicate IsDigit(c: char) { '0' <= c <= '9' }

  predicate AllDigits(s: string) { forall i :: 0 <= i < |s| ==> IsDigit(s[i]) }

  function DigitChar(d: int): (c: char)
    requires 0 <= d < 10
    ensures IsDigit(c) && c as int - '0' as int == d
  {
    ('0' as int + d) as char
  }

  /** The number a string of decimal digits denotes (leading zeros allowed). */
  function DigitsValue(s: string): nat
    requires AllDigits(s)
  {
    if s == [] then 0
    else DigitsValue(s[..|s| - 1]) * 10 + (s[|s| - 1] as int - '0' as int)
  }

  function Pow10(k: nat): nat
  {
    if k == 0 then 1 else 10 * Pow10(k - 1)
  }

  /** Python's str of a natural number: its shortest decimal digits. */
  function NatToDecimal(n: nat): string
  {
    if n < 10 then [DigitChar(n)] else NatToDecimal(n / 10) + [DigitChar(n % 10)]
  }

  /** The decimal string of n is all digits, denotes n, and has no leading
      zero: 10^(length - 1) <= n < 10^length. */
  lemma {:induction false} NatToDecimalDigits(n: nat)
    ensures var s := NatToDecimal(n);
      && AllDigits(s) && DigitsValue(s) == n
      && 1 <= |s| && n < Pow10(|s|)
      && (|s| > 1 ==> Pow10(|s| - 1) <= n)
  {
    if n >= 10 {
      NatToDecimalDigits(n / 10);
      var s := NatToDecimal(n);
      assert s[..|s| - 1] == NatToDecimal(n / 10);
    }
  }

  /** Python's str of an integer: a minus sign before the digits of a
      negative number. */
  function IntToDecimal(n: int): (s: string)
  {
    if n < 0 then "-" + NatToDecimal(-n) else NatToDecimal(n)
  }

  /** Python's '{:0>w}' format: fill with '0' on the left up to width w. */
  function PadLeft(s: string, width: nat): (r: string)
    ensures |r| == if |s| < width then width else |s|
    ensures r[|r| - |s|..] == s
    ensures forall i :: 0 <= i < |r| - |s| ==> r[i] == '0'
  {
    if |s| < width then seq(width - |s|, _ => '0') + s else s
  }

  /** format_invoice_num: the counter padded to six characters, split into
      two groups of three by a space. */
  function FormatInvoiceNum(n: int): (r: string)
    ensures |r| == 7 && r[3] == ' '
  {
    var s := PadLeft(IntToDecimal(n), 6);
    s[0..3] + " " + s[3..6]
  }

  /** The inverse of the format: three digits, a space, three digits. */
  function ParseInvoiceNum(s: string): (r: Option<nat>)
    ensures r.Some? ==> r.value < 1000000
  {
    if |s| == 7 && s[3] == ' ' && AllDigits(s[..3] + s[4..]) then
      DigitsBound(s[..3] + s[4..]);
      assert Pow10(6) == 1000000;
      Some(DigitsValue(s[..3] + s[4..]))
    else None
  }

  /** A string of k digits denotes a number below 10^k. */
  lemma {:induction false} DigitsBound(s: string)
    requires AllDigits(s)
    ensures DigitsValue(s) < Pow10(|s|)
  {
    if s != [] {
      DigitsBound(s[..|s| - 1]);
    }
  }

  /** Leading zeros do not change the value. */
  lemma {:induction false} LeadingZeros(z: string, s: string)
    requires forall i :: 0 <= i < |z| ==> z[i] == '0'
    requires AllDigits(s)
    ensures AllDigits(z + s) && DigitsValue(z + s) == DigitsValue(s)
  {
    if s == [] {
      assert z + s == z;
      AllZeros(z);
    } else {
      var n := |s| - 1;
      assert (z + s)[..|z + s| - 1] == z + s[..n];
      LeadingZeros(z, s[..n]);
    }
  }

  lemma {:induction false} AllZeros(z: string)
    requires forall i :: 0 <= i < |z| ==> z[i] == '0'
    ensures AllDigits(z) && DigitsValue(z) == 0
  {
    if z != [] {
      AllZeros(z[..|z| - 1]);
    }
  }

  /** Two digit strings of the same length and value are the same string. */
  lemma {:induction false} DigitsInjective(a: string, b: string)
    requires AllDigits(a) && AllDigits(b) && |a| == |b|
    requires DigitsValue(a) == DigitsValue(b)
    ensures a == b
  {
    if a != [] {
      var n := |a| - 1;
      DigitsInjective(a[..n], b[..n]);
      assert a == a[..n] + [a[n]] && b == b[..n] + [b[n]];
    }
  }

  lemma Pow10Monotonic(i: nat, j: nat)
    requires i <= j
    ensures Pow10(i) <= Pow10(j)
    decreases j
  {
    if i < j {
      Pow10Monotonic(i, j - 1);
    }
  }

  /** For 0 <= n <= 999999 the six padded characters are the digits of n. */
  lemma SixDigits(n: int)
    requires 0 <= n < 1000000
    ensures var s := PadLeft(IntToDecimal(n), 6);
      |s| == 6 && AllDigits(s) && DigitsValue(s) == n
  {
    var d := NatToDecimal(n);
    NatToDecimalDigits(n);
    DecimalAtMostSix(n);
    var s := PadLeft(d, 6);
    var zeros := s[..6 - |d|];
    assert s == zeros + d;
    LeadingZeros(zeros, d);
  }

  /** A number below a million has at most six digits. */
  lemma DecimalAtMostSix(n: nat)
    requires n < 1000000
    ensures |NatToDecimal(n)| <= 6
  {
    var d := NatToDecimal(n);
    NatToDecimalDigits(n);
    assert Pow10(6) == 1000000;
    // Were |d| above 6, 10^6 <= 10^(|d| - 1) <= n would follow.
    Pow10Monotonic(6, if |d| > 6 then |d| - 1 else 6);
  }

  /** Round trip: in range, the formatted number parses back to itself, so
      the format is three digits, a space, and three digits. */
  lemma ParseFormatInvoiceNum(n: int)
    requires 0 <= n < 1000000
    ensures ParseInvoiceNum(FormatInvoiceNum(n)) == Some(n)
  {
    SixDigits(n);
    var s := PadLeft(IntToDecimal(n), 6);
    SplitJoin(s);
  }

  /** Splitting six characters three and three and removing the space
      gives the six characters back. */
  lemma SplitJoin(s: string)
    requires |s| == 6
    ensures var r := s[0..3] + " " + s[3..6]; r[..3] + r[4..] == s
  {
    var r := s[0..3] + " " + s[3..6];
    assert r[..3] == s[..3];
    assert r[4..] == s[3..];
  }

  /** Round trip the other way: every well-formed invoice number is the
      format of the number it parses to. */
  lemma FormatParseInvoiceNum(s: string)
    requires ParseInvoiceNum(s).Some?
    ensures FormatInvoiceNum(ParseInvoiceNum(s).value) == s
  {
    var n := ParseInvoiceNum(s).value;
    var d := s[..3] + s[4..];
    assert n == DigitsValue(d);
    SixDigits(n);
    var p := PadLeft(IntToDecimal(n), 6);
    DigitsInjective(p, d);
    JoinSplit(s);
  }

  /** Removing the space and splitting the six characters three and three
      again gives back the seven characters. */
  lemma JoinSplit(s: string)
    requires |s| == 7 && s[3] == ' '
    ensures var d := s[..3] + s[4..]; d[0..3] + " " + d[3..6] == s
  {
    var d := s[..3] + s[4..];
    assert d[0..3] == s[..3];
    assert d[3..6] == s[4..];
    assert s == s[..3] + " " + s[4..];
  }

  /** Distinct counter values in range never share an invoice number. */
  lemma FormatInvoiceNumInjective(m: int, n: int)
    requires 0 <= m < 1000000 && 0 <= n < 1000000
    requires FormatInvoiceNum(m) == FormatInvoiceNum(n)
    ensures m == n
  {
    ParseFormatInvoiceNum(m);
    ParseFormatInvoiceNum(n);
  }

  /** Three sample counters. */
  lemma FormatInvoiceNumExamples()
    ensures FormatInvoiceNum(42) == "000 042"
    ensures FormatInvoiceNum(7) == "000 007"
    ensures FormatInvoiceNum(123456) == "123 456"
  {
    Decimal42();
    Decimal7();
    assert FormatInvoiceNum(7) == "000007"[0..3] + " " + "000007"[3..6];
    Decimal123456();
  }

  lemma Decimal42()
    ensures IntToDecimal(42) == "42" && PadLeft("42", 6) == "000042"
  {
    assert NatToDecimal(4) == "4";
  }

  lemma Decimal7()
    ensures IntToDecimal(7) == "7" && PadLeft("7", 6) == "000007"
  {
  }

  lemma Decimal123456()
    ensures IntToDecimal(123456) == "123456"
  {
    assert NatToDecimal(1) == "1";
    assert NatToDecimal(12) == "12";
    assert NatToDecimal(123) == "123";
    assert NatToDecimal(1234) == "1234";
    assert NatToDecimal(12345) == "12345";
  }

  /** Above six digits only the first six characters are kept, so a
      seven-digit counter repeats an earlier invoice number. */
  lemma FormatInvoiceNumTruncatesAboveSixDigits()
    ensures FormatInvoiceNum(1000000) == FormatInvoiceNum(100000) == "100 000"
  {
    Decimal1000000();
    SplitFirstSix("1000000");
    SplitFirstSix("100000");
  }

  lemma SplitFirstSix(s: string)
    requires s == "1000000" || s == "100000"
    ensures var p := PadLeft(s, 6); p[0..3] + " " + p[3..6] == "100 000"
  {
    assert PadLeft(s, 6) == s;
  }

  lemma Decimal1000000()
    ensures IntToDecimal(100000) == "100000" && IntToDecimal(1000000) == "1000000"
  {
    assert NatToDecimal(1) == "1";
    assert NatToDecimal(10) == "10";
    assert NatToDecimal(100) == "100";
    assert NatToDecimal(1000) == "1000";
    assert NatToDecimal(10000) == "10000";
  }

  /** The stored counter of the next invoice number (a JSON file that the
      billing program reads and rewrites). */
  class InvoiceCounter {
    var stored: int

    constructor (initial: int)
      ensures stored == initial
    {
      stored := initial;
    }

    /** increment_invoice_num: stores the counter plus one and returns the
        previous value, formatted. */
    method Increment() returns (num: string)
      modifies this
      ensures stored == old(stored) + 1
      ensures num == FormatInvoiceNum(old(stored))
    {
      var current := stored;
      stored := current + 1;
      num := FormatInvoiceNum(current);
    }
  }

  /** Two invoices issued one after the other from a counter in range get
      different numbers. */
  method IssueTwo(counter: InvoiceCounter) returns (first: string, second: string)
    requires 0 <= counter.stored < 999999
    modifies counter
    ensures counter.stored == old(counter.stored) + 2
    ensures first != second
  {
    first := counter.Increment();
    second := counter.Increment();
    if first == second {
      FormatInvoiceNumInjective(counter.stored - 2, counter.stored - 1);
    }
  }
}
