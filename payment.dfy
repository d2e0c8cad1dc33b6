/** The mock card gateway of assets/js/payment.js: the Luhn check-digit test
    (ISO/IEC 7812-1, Annex B) and the accept/decline decision built on it. */
module Payment {
  import opened Seqs
  import opened JsNumber
  import opened JsText

  /** `String(num).replace(/\D/g, '')`. */
  function DigitsOnly(s: string): (r: string)
    ensures forall i :: 0 <= i < |r| ==> IsDigit(r[i])
    ensures forall i :: 0 <= i < |s| && IsDigit(s[i]) ==> s[i] in r
    ensures SelectedAt(r, s, Positions(IsDigit, s))
  {
    FilterAtPositions(IsDigit, s);
    Filter(IsDigit, s)
  }

  predicate AllDigits(s: string) {
    forall i :: 0 <= i < |s| ==> IsDigit(s[i])
  }

  function DigitValue(c: char): (d: nat)
    requires IsDigit(c)
    ensures d <= 9
  {
    c as int - '0' as int
  }

  /** One digit's share of the checksum: a doubled digit above 9 loses 9. */
  function Contribution(d: nat, doubled: bool): nat
    requires d <= 9
  {
    if !doubled then d else if 2 * d > 9 then 2 * d - 9 else 2 * d
  }

  /** Every contribution is a single digit: the digit sum of the (doubled) digit. */
  lemma ContributionIsDigitSum(d: nat, doubled: bool)
    requires d <= 9
    ensures Contribution(d, doubled) <= 9
    ensures doubled ==> Contribution(d, doubled) == (2 * d) / 10 + (2 * d) % 10
  {
  }

  /** Distinct digits contribute distinct amounts, doubled or not. */
  lemma ContributionInjective(d: nat, e: nat, doubled: bool)
    requires d <= 9 && e <= 9 && d != e
    ensures Contribution(d, doubled) != Contribution(e, doubled)
  {
  }

  /** The Luhn sum: counting from the rightmost digit (position 0), the digits
      at odd positions are doubled. */
  function Luhn(s: string): nat
    requires AllDigits(s)
  {
    if s == [] then 0
    else
      assert IsDigit(s[0]);
      Contribution(DigitValue(s[0]), (|s| - 1) % 2 == 1) + Luhn(s[1..])
  }

  /** `luhnCheck`'s verdict on the digits of `num`. */
  predicate CardAccepted(num: string) {
    var s := DigitsOnly(num);
    Luhn(s) % 10 == 0 && |s| >= 12
  }

  /** `luhnCheck`: scan from the rightmost digit, doubling every second one. */
  method LuhnCheck(num: string) returns (ok: bool)
    ensures ok == CardAccepted(num)
  {
    var s := DigitsOnly(num);
    var sum := 0;
    var dbl := false;
    var i := |s|;
    while i > 0
      invariant 0 <= i <= |s|
      invariant sum == Luhn(s[i..])
      invariant dbl == ((|s| - i) % 2 == 1)
    {
      i := i - 1;
      var d := DigitValue(s[i]);
      if dbl {
        d := d * 2;
        if d > 9 {
          d := d - 9;
        }
      }
      assert s[i..][1..] == s[i + 1..];
      sum := sum + d;
      dbl := !dbl;
    }
    ok := sum % 10 == 0 && |s| >= 12;
  }

  /** Fewer than twelve digits are declined whatever their checksum. */
  lemma ShortNumbersDeclined(num: string)
    requires |DigitsOnly(num)| < 12
    ensures !CardAccepted(num)
  {
  }

  /** Only the digits matter: separators do not change the verdict. */
  lemma SeparatorsIgnored(a: string, b: string, sep: char)
    requires !IsDigit(sep)
    ensures DigitsOnly(a + [sep] + b) == DigitsOnly(a + b)
  {
    FilterSkips(IsDigit, a, sep, b);
  }

  /** The Luhn test catches every single mistyped digit. */
  lemma {:induction false} SingleDigitErrorDetected(s: string, t: string, i: nat)
    requires AllDigits(s) && AllDigits(t) && |s| == |t| && i < |s|
    requires s[i] != t[i]
    requires forall j :: 0 <= j < |s| && j != i ==> s[j] == t[j]
    ensures (Luhn(s) - Luhn(t)) % 10 != 0
  {
    assert IsDigit(s[0]) && IsDigit(t[0]);
    if i == 0 {
      assert s[1..] == t[1..];
      ContributionInjective(DigitValue(s[0]), DigitValue(t[0]), (|s| - 1) % 2 == 1);
    } else {
      assert AllDigits(s[1..]) && AllDigits(t[1..]);
      SingleDigitErrorDetected(s[1..], t[1..], i - 1);
    }
  }

  datatype PaymentResult = Declined | Approved(txnId: string)

  /** `processPayment`: decline exactly when the card number fails the Luhn
      test; amount, holder name, expiry and CVV are never examined. `suffix`
      stands for the random base-36 characters of the transaction id. */
  method ProcessPayment(amount: real, cardNumber: string, name: string, exp: string, cvv: string, suffix: string)
    returns (r: PaymentResult)
    ensures r.Declined? <==> !CardAccepted(cardNumber)
    ensures r.Approved? ==> r.txnId == "TXN-" + ToUpper(suffix) && StartsWith(r.txnId, "TXN-")
  {
    var ok := LuhnCheck(cardNumber);
    if !ok {
      return Declined;
    }
    r := Approved("TXN-" + ToUpper(suffix));
  }
}
