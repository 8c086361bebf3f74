// Decimal numbers as Go's strconv.Atoi reads them on a 64-bit machine.
module Numbers {
  import opened Model

  const MIN_INT := -0x8000_0000_0000_0000
  const MAX_INT := 0x7fff_ffff_ffff_ffff

  predicate IsDigit(c: char) {
    '0' <= c <= '9'
  }

  predicate AllDigits(s: string) {
    forall i :: 0 <= i < |s| ==> IsDigit(s[i])
  }

  function Value(s: string): nat
    requires AllDigits(s)
  {
    if s == [] then 0 else Value(s[..|s| - 1]) * 10 + (s[|s| - 1] - '0') as nat
  }

  // An optional sign, at least one digit, and a value in range.
  function Atoi(s: string): Option<int> {
    var signed := s != [] && (s[0] == '-' || s[0] == '+');
    var digits := if signed then s[1..] else s;
    if digits == [] || !AllDigits(digits) then None
    else
      var size: int := Value(digits);
      var n := if signed && s[0] == '-' then -size else size;
      if MIN_INT <= n <= MAX_INT then Some(n) else None
  }

  function Print(n: nat): (s: string)
    ensures s != [] && AllDigits(s)
  {
    var digit := ['0' + (n % 10) as char];
    if n < 10 then digit else Print(n / 10) + digit
  }

  lemma {:induction false} PrintIsRead(n: nat)
    ensures Value(Print(n)) == n
    ensures n <= MAX_INT ==> Atoi(Print(n)) == Some(n)
  {
    var s := Print(n);
    if n >= 10 {
      PrintIsRead(n / 10);
      assert s[..|s| - 1] == Print(n / 10);
    } else {
      assert s[..|s| - 1] == [];
    }
    assert IsDigit(s[0]);
  }

  // ---- which strings are numbers ----

  function Zeros(k: nat): string {
    if k == 0 then "" else Zeros(k - 1) + "0"
  }

  function Size(n: int): nat {
    if n < 0 then -n else n
  }

  // These digits with a sign that fits n, or none.
  predicate Signed(s: string, n: int, digits: string) {
    || (n >= 0 && (s == digits || s == "+" + digits))
    || (n <= 0 && s == "-" + digits)
  }

  // s writes n: its decimal digits, with any zeros and a fitting sign before them.
  ghost predicate Numeral(s: string, n: int) {
    exists k: nat :: Signed(s, n, Zeros(k) + Print(Size(n)))
  }

  lemma OneMoreDigit(s: string, c: char)
    requires AllDigits(s) && IsDigit(c)
    ensures AllDigits(s + [c]) && Value(s + [c]) == Value(s) * 10 + (c - '0') as nat
  {
    assert (s + [c])[..|s|] == s;
  }

  lemma {:induction false} ZerosAreDigits(k: nat)
    ensures AllDigits(Zeros(k)) && Value(Zeros(k)) == 0 && |Zeros(k)| == k
  {
    if k > 0 {
      ZerosAreDigits(k - 1);
      OneMoreDigit(Zeros(k - 1), '0');
    }
  }

  lemma {:induction false} LeadingZeros(k: nat, s: string)
    requires AllDigits(s)
    ensures AllDigits(Zeros(k) + s) && Value(Zeros(k) + s) == Value(s)
  {
    ZerosAreDigits(k);
    var all := Zeros(k) + s;
    if s == [] {
      assert all == Zeros(k);
    } else {
      LeadingZeros(k, s[..|s| - 1]);
      assert all[..|all| - 1] == Zeros(k) + s[..|s| - 1];
    }
  }

  // Every string of digits is a printed number behind zeros.
  lemma {:induction false} DigitsArePrinted(s: string) returns (k: nat)
    requires s != [] && AllDigits(s)
    ensures s == Zeros(k) + Print(Value(s))
  {
    var front, n := s[..|s| - 1], Value(s);
    assert n % 10 == (s[|s| - 1] - '0') as nat && n / 10 == Value(front);
    assert s == front + [s[|s| - 1]];
    k := 0;
    if front != [] {
      k := DigitsArePrinted(front);
      if n < 10 {
        assert Print(0) == "0";
        k := k + 1;
      } else {
        assert s == Zeros(k) + (Print(n / 10) + [s[|s| - 1]]);
      }
    }
  }

  lemma SignedIsRead(s: string, n: int, digits: string)
    requires digits != [] && AllDigits(digits) && Value(digits) == Size(n)
    requires Signed(s, n, digits) && MIN_INT <= n <= MAX_INT
    ensures Atoi(s) == Some(n)
  {
    assert IsDigit(digits[0]);
    assert s == digits || s[1..] == digits;
  }

  lemma ReadIsSigned(s: string, n: int) returns (digits: string)
    requires Atoi(s) == Some(n)
    ensures digits != [] && AllDigits(digits) && Value(digits) == Size(n)
    ensures Signed(s, n, digits) && MIN_INT <= n <= MAX_INT
  {
    digits := if s[0] == '-' || s[0] == '+' then s[1..] else s;
    assert s == digits || s == [s[0]] + digits;
  }

  // Exactly the numerals of numbers in range are read, each as its own number.
  lemma AtoiReadsNumerals(s: string, n: int)
    ensures Atoi(s) == Some(n) <==> MIN_INT <= n <= MAX_INT && Numeral(s, n)
  {
    hide Atoi, Signed, Print, Zeros, Value;
    if MIN_INT <= n <= MAX_INT && Numeral(s, n) {
      var k: nat :| Signed(s, n, Zeros(k) + Print(Size(n)));
      PrintIsRead(Size(n));
      LeadingZeros(k, Print(Size(n)));
      SignedIsRead(s, n, Zeros(k) + Print(Size(n)));
    }
    if Atoi(s) == Some(n) {
      var digits := ReadIsSigned(s, n);
      var k := DigitsArePrinted(digits);
    }
  }
}
