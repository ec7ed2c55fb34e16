/** The decimal strings the match schema accepts, and the uint256 amounts the contract gets. */
module Uint256 {

  const MAX: nat := 0x1_0000000000000000_0000000000000000_0000000000000000_0000000000000000 - 1

  predicate IsDigit(c: char) {
    '0' <= c <= '9'
  }

  function DigitOf(c: char): (d: nat)
    requires IsDigit(c)
    ensures d < 10 && (d == 0 <==> c == '0')
  {
    c as int - '0' as int
  }

  function CharOf(d: nat): (c: char)
    requires d < 10
    ensures IsDigit(c) && DigitOf(c) == d
  {
    ('0' as int + d) as char
  }

  predicate AllDigits(s: string) {
    forall c :: c in s ==> IsDigit(c)
  }

  /** BigInt of a string of digits. */
  function Value(s: string): nat
    requires AllDigits(s)
  {
    if s == "" then 0 else 10 * Value(s[..|s| - 1]) + DigitOf(s[|s| - 1])
  }

  /** BigInt.toString. */
  function Print(n: nat): string {
    if n < 10 then [CharOf(n)] else Print(n / 10) + [CharOf(n % 10)]
  }

  // ----- The schema -----

  /** `^[1-9]\d*$` */
  predicate PositiveForm(s: string) {
    s != "" && AllDigits(s) && s[0] != '0'
  }

  /** `^(0|[1-9]\d*)$` */
  predicate NonNegativeForm(s: string) {
    s == "0" || PositiveForm(s)
  }

  predicate WithinUint256(s: string)
    requires AllDigits(s)
  {
    Value(s) <= MAX
  }

  predicate PositiveUint256String(s: string) {
    PositiveForm(s) && WithinUint256(s)
  }

  predicate NonNegativeUint256String(s: string) {
    NonNegativeForm(s) && WithinUint256(s)
  }

  // ----- Parsing and printing are inverse -----

  lemma {:induction false} PrintIsCanonical(n: nat)
    ensures NonNegativeForm(Print(n)) && (0 < n ==> PositiveForm(Print(n)))
    ensures Value(Print(n)) == n
  {
    if n < 10 {
      assert Print(n)[..0] == "";
      assert n == 0 ==> Print(n) == "0" by {
        assert CharOf(0) == '0';
      }
    } else {
      PrintIsCanonical(n / 10);
      assert Print(n)[..|Print(n)| - 1] == Print(n / 10);
    }
  }

  lemma {:induction false} PositiveIsPositive(s: string)
    requires PositiveForm(s)
    ensures 0 < Value(s)
  {
    if |s| > 1 {
      PositiveIsPositive(s[..|s| - 1]);
    } else {
      assert DigitOf(s[0]) != 0;
    }
  }

  lemma CharBack(c: char)
    requires IsDigit(c)
    ensures CharOf(DigitOf(c)) == c
  {
  }

  lemma DivMod10(v: nat, d: nat)
    requires d < 10
    ensures (10 * v + d) / 10 == v && (10 * v + d) % 10 == d
  {
  }

  lemma ValueStep(s: string)
    requires AllDigits(s) && s != ""
    ensures AllDigits(s[..|s| - 1]) && IsDigit(s[|s| - 1])
    ensures Value(s) == 10 * Value(s[..|s| - 1]) + DigitOf(s[|s| - 1])
  {
  }

  lemma LastDigit(s: string)
    requires AllDigits(s) && s != ""
    ensures var n := |s| - 1;
            Value(s) / 10 == Value(s[..n]) && CharOf(Value(s) % 10) == s[n] && s == s[..n] + [s[n]]
  {
    hide *;
    var n := |s| - 1;
    ValueStep(s);
    DivMod10(Value(s[..n]), DigitOf(s[n]));
    CharBack(s[n]);
  }

  lemma {:induction false} PrintedBack(s: string)
    requires NonNegativeForm(s)
    ensures Print(Value(s)) == s
  {
    var n := |s| - 1;
    LastDigit(s);
    if n == 0 {
      assert s[..0] == "" && s == [s[0]];
    } else {
      PositiveIsPositive(s[..n]);
      PrintedBack(s[..n]);
    }
  }

  /** The accepted fee strings are the printed forms of 0 to 2^256-1, each the form of one number. */
  lemma NonNegativeIsBijective(s: string)
    ensures NonNegativeUint256String(s) <==> exists n: nat :: n <= MAX && Print(n) == s
    ensures forall m: nat, n: nat :: Print(m) == Print(n) ==> m == n
  {
    if NonNegativeUint256String(s) {
      PrintedBack(s);
      assert Print(Value(s)) == s;
    }
    forall n: nat ensures NonNegativeForm(Print(n)) && Value(Print(n)) == n {
      PrintIsCanonical(n);
    }
  }

  /** The accepted amounts are the same without zero. */
  lemma PositiveIsNonNegativeButZero(s: string)
    ensures PositiveUint256String(s) <==> NonNegativeUint256String(s) && s != "0"
    ensures PositiveUint256String(s) <==> exists n: nat :: 0 < n <= MAX && Print(n) == s
  {
    NonNegativeIsBijective(s);
    if PositiveUint256String(s) {
      PositiveIsPositive(s);
      PrintedBack(s);
      assert Print(Value(s)) == s;
    }
    forall n: nat | 0 < n <= MAX && Print(n) == s ensures PositiveUint256String(s) {
      PrintIsCanonical(n);
    }
  }

  // ----- Numeric size and string length -----

  function Pow10(k: nat): nat {
    if k == 0 then 1 else 10 * Pow10(k - 1)
  }

  /** A canonical string of length k denotes a number from 10^(k-1) up to, not including, 10^k. */
  lemma {:induction false} LengthBoundsValue(s: string)
    requires PositiveForm(s)
    ensures Pow10(|s| - 1) <= Value(s) < Pow10(|s|)
  {
    if |s| == 1 {
      assert s[..0] == "" && DigitOf(s[0]) != 0 && Pow10(0) == 1;
    } else {
      LengthBoundsValue(s[..|s| - 1]);
    }
  }

  lemma {:induction false} Pow10Grows(a: nat, b: nat)
    requires a <= b
    ensures Pow10(a) <= Pow10(b)
  {
    if a < b {
      Pow10Grows(a, b - 1);
    }
  }

  lemma {:induction false} Pow10Adds(a: nat, x: nat, b: nat, y: nat)
    requires Pow10(a) == x && Pow10(b) == y
    ensures Pow10(a + b) == x * y
  {
    if b > 0 {
      Pow10Adds(a, x, b - 1, Pow10(b - 1));
      Regroup(x, Pow10(b - 1));
    }
  }

  lemma Regroup(x: nat, y: nat)
    ensures 10 * (x * y) == x * (10 * y)
  {
  }

  /** No accepted string has more than 78 digits, and every canonical one of up to 77 is accepted. */
  lemma AcceptedLength(s: string)
    requires NonNegativeForm(s)
    ensures |s| <= 77 ==> NonNegativeUint256String(s)
    ensures 78 < |s| ==> !NonNegativeUint256String(s)
  {
    if s != "0" {
      LengthBoundsValue(s);
      Pow10OfMax();
      if |s| <= 77 {
        Pow10Grows(|s|, 77);
      } else if 78 < |s| {
        Pow10Grows(78, |s| - 1);
      }
    }
  }

  lemma Pow10Of11()
    ensures Pow10(11) == 100_000_000_000
  {
    assert Pow10(4) == 10_000;
    assert Pow10(8) == 100_000_000;
  }

  /** 2^256 lies between 10^77 and 10^78. */
  lemma Pow10OfMax()
    ensures Pow10(77) <= MAX < Pow10(78)
  {
    Pow10Of11();
    var p11 := 100_000_000_000;
    Pow10Adds(11, p11, 11, p11);
    Pow10Adds(22, p11 * p11, 11, p11);
    Pow10Adds(33, p11 * p11 * p11, 33, p11 * p11 * p11);
    Pow10Adds(66, (p11 * p11 * p11) * (p11 * p11 * p11), 11, p11);
  }

  // ----- The conversion for the contract -----

  /** The amount fields of a match, as the schema carries them. */
  datatype Amounts<T> = Amounts(matchedAmount: T, makerFee: T, takerFee: T, lenderSettlementFee: T,
                                borrowerSettlementFee: T)

  predicate Accepted(a: Amounts<string>) {
    && PositiveUint256String(a.matchedAmount)
    && NonNegativeUint256String(a.makerFee) && NonNegativeUint256String(a.takerFee)
    && NonNegativeUint256String(a.lenderSettlementFee) && NonNegativeUint256String(a.borrowerSettlementFee)
  }

  function ToContract(a: Amounts<string>): Amounts<nat>
    requires Accepted(a)
  {
    Amounts(Value(a.matchedAmount), Value(a.makerFee), Value(a.takerFee),
            Value(a.lenderSettlementFee), Value(a.borrowerSettlementFee))
  }

  /** Each argument of the contract is the number that its own field denotes, and the fields are its only source. */
  lemma EachFieldItsOwn(a: Amounts<string>)
    requires Accepted(a)
    ensures var c := ToContract(a);
            && Print(c.matchedAmount) == a.matchedAmount
            && Print(c.makerFee) == a.makerFee
            && Print(c.takerFee) == a.takerFee
            && Print(c.lenderSettlementFee) == a.lenderSettlementFee
            && Print(c.borrowerSettlementFee) == a.borrowerSettlementFee
  {
    PrintedBack(a.matchedAmount);
    PrintedBack(a.makerFee);
    PrintedBack(a.takerFee);
    PrintedBack(a.lenderSettlementFee);
    PrintedBack(a.borrowerSettlementFee);
  }

  function FromContract(a: Amounts<nat>): Amounts<string> {
    Amounts(Print(a.matchedAmount), Print(a.makerFee), Print(a.takerFee),
            Print(a.lenderSettlementFee), Print(a.borrowerSettlementFee))
  }

  predicate FitsContract(a: Amounts<nat>) {
    && 0 < a.matchedAmount <= MAX && a.makerFee <= MAX && a.takerFee <= MAX
    && a.lenderSettlementFee <= MAX && a.borrowerSettlementFee <= MAX
  }

  /** Every accepted match fits the contract's arguments, and they print back to its own fields. */
  lemma ContractAmountsPrintBack(a: Amounts<string>)
    requires Accepted(a)
    ensures FitsContract(ToContract(a)) && FromContract(ToContract(a)) == a
  {
    EachFieldItsOwn(a);
    PositiveIsPositive(a.matchedAmount);
  }

  /** And every tuple of amounts the contract could take comes from exactly one accepted match. */
  lemma ContractAmountsComeFromOneMatch(c: Amounts<nat>)
    requires FitsContract(c)
    ensures Accepted(FromContract(c)) && ToContract(FromContract(c)) == c
    ensures forall a :: Accepted(a) && ToContract(a) == c ==> a == FromContract(c)
  {
    PrintIsCanonical(c.matchedAmount);
    PrintIsCanonical(c.makerFee);
    PrintIsCanonical(c.takerFee);
    PrintIsCanonical(c.lenderSettlementFee);
    PrintIsCanonical(c.borrowerSettlementFee);
    forall a | Accepted(a) && ToContract(a) == c ensures a == FromContract(c) {
      ContractAmountsPrintBack(a);
    }
  }
}
