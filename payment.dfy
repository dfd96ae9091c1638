/**
 * The payment form: what the card fields accept, how raw keyboard input is
 * reformatted as it is typed, and the submit gate in front of the caller's
 * completion callback.
 */
module Payment {
  import opened Wrappers

  datatype Method = Card | Twint | Cash

  datatype PaymentDetails = PaymentDetails(cardNumber: string, expiryDate: string, cvv: string, name: string)

  const EmptyDetails := PaymentDetails("", "", "", "")

  /** The arguments the completion callback receives. */
  datatype PaymentCall = PaymentCall(paidWith: Method, details: Option<PaymentDetails>)

  // ---------------------------------------------------------------------------
  // Character classes of the regular expressions

  /** `\d` and `[0-9]`: an ASCII decimal digit. */
  predicate IsDigit(c: char)
  {
    '0' <= c <= '9'
  }

  predicate AllDigits(s: string)
  {
    forall i :: 0 <= i < |s| ==> IsDigit(s[i])
  }

  /** `\s`, and what `trim` removes: the ECMAScript white-space and line-terminator characters. */
  predicate IsWhitespace(c: char)
  {
    c == ' ' || c == '\t' || c == '\n' || c == '\r' || c == '\U{000B}' || c == '\U{000C}'
    || c == '\U{00A0}' || c == '\U{1680}' || ('\U{2000}' <= c <= '\U{200A}')
    || c == '\U{2028}' || c == '\U{2029}' || c == '\U{202F}' || c == '\U{205F}'
    || c == '\U{3000}' || c == '\U{FEFF}'
  }

  predicate AllWhitespace(s: string)
  {
    forall i :: 0 <= i < |s| ==> IsWhitespace(s[i])
  }

  // ---------------------------------------------------------------------------
  // The string operations the handlers use

  /** `replace(/\D/g, '')`: the digits of `s`, in order. */
  function DigitsOnly(s: string): (r: string)
    ensures AllDigits(r)
    ensures |r| <= |s|
    ensures AllDigits(s) ==> r == s
  {
    if s == [] then []
    else if IsDigit(s[0]) then [s[0]] + DigitsOnly(s[1..])
    else DigitsOnly(s[1..])
  }

  /** `replace(/\s/g, '')`. */
  function StripWhitespace(s: string): (r: string)
    ensures forall i :: 0 <= i < |r| ==> !IsWhitespace(r[i])
    ensures |r| <= |s|
  {
    if s == [] then []
    else if IsWhitespace(s[0]) then StripWhitespace(s[1..])
    else [s[0]] + StripWhitespace(s[1..])
  }

  /** How many white-space characters `s` starts with. */
  function LeadingWhitespace(s: string): (k: nat)
    ensures k <= |s| && AllWhitespace(s[..k])
    ensures k < |s| ==> !IsWhitespace(s[k])
  {
    if s != [] && IsWhitespace(s[0]) then
      var k := LeadingWhitespace(s[1..]);
      assert s[..k + 1] == [s[0]] + s[1..][..k];
      k + 1
    else 0
  }

  /** Where the white space at the end of `s` begins. */
  function TrailingWhitespace(s: string): (k: nat)
    ensures k <= |s| && AllWhitespace(s[k..])
    ensures 0 < k ==> !IsWhitespace(s[k - 1])
  {
    if s != [] && IsWhitespace(s[|s| - 1]) then
      var k := TrailingWhitespace(s[..|s| - 1]);
      assert s[k..] == s[..|s| - 1][k..] + [s[|s| - 1]];
      k
    else |s|
  }

  /** The first half of `trim`: drops the leading white space and nothing more. */
  function TrimStart(s: string): (r: string)
    ensures r == [] || !IsWhitespace(r[0])
    ensures |r| <= |s|
  {
    s[LeadingWhitespace(s)..]
  }

  /** The second half of `trim`: drops the trailing white space and nothing more. */
  function TrimEnd(s: string): (r: string)
    ensures r == [] || !IsWhitespace(r[|r| - 1])
    ensures r <= s
  {
    s[..TrailingWhitespace(s)]
  }

  /** `trim()`. */
  function Trim(s: string): (r: string)
    ensures r == [] || (!IsWhitespace(r[0]) && !IsWhitespace(r[|r| - 1]))
    ensures |r| <= |s|
  {
    TrimEnd(TrimStart(s))
  }

  /** `replace(/(\d{4})/g, '$1 ')`: a space after every run of four digits, scanning left to right. */
  function SpaceAfterFours(s: string): string
  {
    if |s| >= 4 && AllDigits(s[..4]) then s[..4] + " " + SpaceAfterFours(s[4..])
    else if s == [] then []
    else [s[0]] + SpaceAfterFours(s[1..])
  }

  /** `slice(0, n)`. */
  function Prefix(s: string, n: nat): (r: string)
    ensures r <= s
    ensures |r| == if |s| < n then |s| else n
  {
    if |s| <= n then s else s[..n]
  }

  // ---------------------------------------------------------------------------
  // The three input formatters

  /** The card-number field's change handler. */
  function FormatCardNumber(raw: string): (r: string)
    ensures r == [] || (!IsWhitespace(r[0]) && !IsWhitespace(r[|r| - 1]))
  {
    Trim(SpaceAfterFours(DigitsOnly(raw)))
  }

  /**
   * The expiry field's change handler. On a digits-only string the first match of
   * `(\d{2})(\d{0,2})` starts at index 0 and takes up to four digits, and `$1/$2`
   * puts a slash after the first two; then `slice(0, 5)`.
   */
  function FormatExpiry(raw: string): (r: string)
    ensures |r| <= 5
  {
    var d := DigitsOnly(raw);
    var m := if |d| >= 4 then 4 else |d|;
    var replaced := if |d| >= 2 then d[..2] + "/" + d[2..m] + d[m..] else d;
    Prefix(replaced, 5)
  }

  /** The CVV field's change handler. */
  function FormatCvv(raw: string): (r: string)
    ensures |r| <= 4 && AllDigits(r) && r <= DigitsOnly(raw)
  {
    Prefix(DigitsOnly(raw), 4)
  }

  // ---------------------------------------------------------------------------
  // Validation

  predicate CardNumberValid(n: string)
  {
    |StripWhitespace(n)| == 16
  }

  /** `0[1-9]|1[0-2]`. */
  predicate MonthDigits(a: char, b: char)
  {
    (a == '0' && '1' <= b <= '9') || (a == '1' && '0' <= b <= '2')
  }

  /** `/^(0[1-9]|1[0-2])\/([0-9]{2})$/`. */
  predicate ExpiryValid(s: string)
  {
    |s| == 5 && MonthDigits(s[0], s[1]) && s[2] == '/' && IsDigit(s[3]) && IsDigit(s[4])
  }

  /** `/^[0-9]{3,4}$/`. */
  predicate CvvValid(s: string)
  {
    3 <= |s| <= 4 && AllDigits(s)
  }

  predicate NameValid(name: string)
  {
    |name| > 3
  }

  /** `validateCardDetails`: only the card method checks anything. */
  predicate ValidateCardDetails(m: Method, d: PaymentDetails)
  {
    m != Card || (CardNumberValid(d.cardNumber) && ExpiryValid(d.expiryDate) && CvvValid(d.cvv) && NameValid(d.name))
  }

  /**
   * What a submit hands to the completion callback, if anything: nothing when the
   * details fail validation or a TWINT payment is not confirmed; otherwise the
   * method, with the card details only for a card payment.
   */
  function SubmitCall(m: Method, d: PaymentDetails, twintConfirmed: bool): (r: Option<PaymentCall>)
    ensures r.Some? <==> ValidateCardDetails(m, d) && (m == Twint ==> twintConfirmed)
    ensures r.Some? ==> r.value.paidWith == m
    ensures r.Some? ==> (r.value.details.Some? <==> m == Card)
    ensures r.Some? && m == Card ==> r.value.details == Some(d)
  {
    if !ValidateCardDetails(m, d) then None
    else if m == Twint && !twintConfirmed then None
    else Some(PaymentCall(m, if m == Card then Some(d) else None))
  }

  // ---------------------------------------------------------------------------
  // Properties of the validators

  /** TWINT and cash need no details at all. */
  lemma NonCardAlwaysValid(m: Method, d: PaymentDetails)
    requires m != Card
    ensures ValidateCardDetails(m, d)
    ensures m == Cash ==> SubmitCall(m, d, false).Some?
  {
  }

  /** Any two-digit year passes: there is no check against the current date. */
  lemma ExpiryAcceptsAnyYear(a: char, b: char, y1: char, y2: char)
    requires MonthDigits(a, b) && IsDigit(y1) && IsDigit(y2)
    ensures ExpiryValid([a, b, '/', y1, y2])
    ensures ExpiryValid("01/00") && ExpiryValid("12/99") && !ExpiryValid("13/25") && !ExpiryValid("00/25")
  {
  }

  // ---------------------------------------------------------------------------
  // Digits and white space

  /** Keeping the digits works piecewise, so the digits keep their order. */
  lemma {:induction false} DigitsOnlyConcat(a: string, b: string)
    ensures DigitsOnly(a + b) == DigitsOnly(a) + DigitsOnly(b)
  {
    if a == [] {
      assert a + b == b;
    } else {
      assert (a + b)[0] == a[0];
      assert (a + b)[1..] == a[1..] + b;
      DigitsOnlyConcat(a[1..], b);
    }
  }

  /** Every digit of the input is kept as often as it occurs; everything else is dropped. */
  lemma {:induction false} DigitsOnlyCounts(s: string, c: char)
    ensures multiset(DigitsOnly(s))[c] == if IsDigit(c) then multiset(s)[c] else 0
  {
    if s != [] {
      assert s == [s[0]] + s[1..];
      DigitsOnlyCounts(s[1..], c);
    }
  }

  lemma {:induction false} StripWhitespaceConcat(a: string, b: string)
    ensures StripWhitespace(a + b) == StripWhitespace(a) + StripWhitespace(b)
  {
    if a == [] {
      assert a + b == b;
    } else {
      assert (a + b)[0] == a[0];
      assert (a + b)[1..] == a[1..] + b;
      StripWhitespaceConcat(a[1..], b);
    }
  }

  lemma {:induction false} StripWhitespaceOfDigits(d: string)
    requires AllDigits(d)
    ensures StripWhitespace(d) == d
  {
    if d != [] {
      StripWhitespaceOfDigits(d[1..]);
    }
  }

  // ---------------------------------------------------------------------------
  // The card-number formatter

  /** Digits in groups of four, separated by single spaces. */
  function Grouped(d: string): string
  {
    if |d| <= 4 then d else d[..4] + " " + Grouped(d[4..])
  }

  /** On fewer than four characters the regular expression never matches. */
  lemma {:induction false} SpaceAfterFoursShort(s: string)
    requires |s| < 4
    ensures SpaceAfterFours(s) == s
  {
    if s != [] {
      SpaceAfterFoursShort(s[1..]);
    }
  }

  /** On digits the global replace yields the groups, plus one trailing space when the count is a positive multiple of four. */
  lemma {:induction false} SpaceAfterFoursOfDigits(d: string)
    requires AllDigits(d)
    ensures SpaceAfterFours(d) == Grouped(d) + (if |d| > 0 && |d| % 4 == 0 then " " else "")
  {
    if |d| < 4 {
      SpaceAfterFoursShort(d);
    } else {
      assert AllDigits(d[..4]);
      SpaceAfterFoursOfDigits(d[4..]);
      if |d| == 4 {
        assert d[4..] == [];
      }
    }
  }

  /** Groups of digits start and end with a digit. */
  lemma {:induction false} GroupedEnds(d: string)
    requires AllDigits(d) && d != []
    ensures Grouped(d) != [] && IsDigit(Grouped(d)[0]) && IsDigit(Grouped(d)[|Grouped(d)| - 1])
  {
    if |d| > 4 {
      GroupedEnds(d[4..]);
    }
  }

  lemma TrimEndDropsSpace(s: string)
    requires s != [] && !IsWhitespace(s[|s| - 1])
    ensures TrimEnd(s + " ") == s
  {
    assert (s + " ")[..|s + " "| - 1] == s;
  }

  /** The formatter's output is exactly the grouped digits of the input. */
  lemma CardNumberFormatGroups(raw: string)
    ensures FormatCardNumber(raw) == Grouped(DigitsOnly(raw))
  {
    var d := DigitsOnly(raw);
    SpaceAfterFoursOfDigits(d);
    if d != [] {
      GroupedEnds(d);
      var g := Grouped(d);
      if |d| % 4 == 0 {
        assert (g + " ")[0] == g[0];
        assert TrimStart(g + " ") == g + " ";
        TrimEndDropsSpace(g);
      } else {
        assert g + "" == g;
      }
    }
  }

  /** Removing the separators gives back the digits. */
  lemma {:induction false} GroupedStrip(d: string)
    requires AllDigits(d)
    ensures StripWhitespace(Grouped(d)) == d
  {
    if |d| <= 4 {
      StripWhitespaceOfDigits(d);
    } else {
      GroupedStrip(d[4..]);
      assert AllDigits(d[..4]);
      StripWhitespaceOfDigits(d[..4]);
      StripWhitespaceConcat(d[..4] + " ", Grouped(d[4..]));
      StripWhitespaceConcat(d[..4], " ");
      assert d[..4] + d[4..] == d;
    }
  }

  /** Length of the grouped form: one separator between consecutive groups. */
  lemma {:induction false} GroupedLength(d: string)
    requires d != []
    ensures |Grouped(d)| == |d| + (|d| - 1) / 4
  {
    if |d| > 4 {
      GroupedLength(d[4..]);
    }
  }

  /**
   * The layout of the grouped form: position i holds a space exactly when
   * i mod 5 is 4, every other position a digit, and the i-th character is the
   * digit of the input with i / 5 separators before it.
   */
  lemma {:induction false} GroupedLayout(d: string, i: nat)
    requires AllDigits(d) && i < |Grouped(d)|
    ensures Grouped(d)[i] == ' ' <==> i % 5 == 4
    ensures i % 5 != 4 ==> i - i / 5 < |d| && Grouped(d)[i] == d[i - i / 5]
  {
    if |d| > 4 && i >= 5 {
      assert Grouped(d)[i] == Grouped(d[4..])[i - 5];
      GroupedLayout(d[4..], i - 5);
    }
  }

  /**
   * What the card-number field holds after any keystroke: digits and single
   * spaces, a space exactly at every fifth position, no leading or trailing
   * space, and the digits of what was typed once the spaces are removed.
   */
  lemma CardNumberFormatShape(raw: string)
    ensures var f := FormatCardNumber(raw);
      && StripWhitespace(f) == DigitsOnly(raw)
      && (forall i :: 0 <= i < |f| ==> (f[i] == ' ' <==> i % 5 == 4) && (f[i] != ' ' ==> IsDigit(f[i])))
      && (f != [] ==> f[0] != ' ' && f[|f| - 1] != ' ')
  {
    var d := DigitsOnly(raw);
    CardNumberFormatGroups(raw);
    GroupedStrip(d);
    forall i | 0 <= i < |Grouped(d)| ensures (Grouped(d)[i] == ' ' <==> i % 5 == 4) && (Grouped(d)[i] != ' ' ==> IsDigit(Grouped(d)[i])) {
      GroupedLayout(d, i);
    }
    if d != [] {
      GroupedEnds(d);
    }
  }

  /** Sixteen typed digits format to the 19-character "dddd dddd dddd dddd", which passes the length check. */
  lemma CardNumberSixteenDigits(raw: string)
    ensures CardNumberValid(FormatCardNumber(raw)) <==> |DigitsOnly(raw)| == 16
    ensures |DigitsOnly(raw)| == 16 ==> |FormatCardNumber(raw)| == 19
  {
    CardNumberFormatShape(raw);
    if |DigitsOnly(raw)| == 16 {
      CardNumberFormatGroups(raw);
      GroupedLength(DigitsOnly(raw));
    }
  }

  // ---------------------------------------------------------------------------
  // The expiry and CVV formatters

  /** Once two digits are typed, the field is those two, a slash, and the next up to two digits. */
  lemma ExpiryFormatSlashed(raw: string)
    requires |DigitsOnly(raw)| >= 2
    ensures var d := DigitsOnly(raw);
      FormatExpiry(raw) == d[..2] + "/" + d[2..if |d| >= 4 then 4 else |d|]
  {
    var d := DigitsOnly(raw);
    var m := if |d| >= 4 then 4 else |d|;
    var replaced := d[..2] + "/" + d[2..m] + d[m..];
    assert replaced == d[..2] + "/" + d[2..];
    assert FormatExpiry(raw) == Prefix(replaced, 5);
  }

  /**
   * The expiry field holds at most five characters: digits, and at most one
   * slash, which sits at index 2 and is there once two digits have been typed.
   * Without the slash it is the first (up to) four digits typed.
   */
  lemma ExpiryFormatShape(raw: string)
    ensures var f := FormatExpiry(raw); var d := DigitsOnly(raw);
      && |f| <= 5
      && (forall i :: 0 <= i < |f| ==> (f[i] == '/' <==> i == 2) && (i != 2 ==> IsDigit(f[i])))
      && (|d| >= 2 <==> 2 < |f|)
      && (|d| >= 2 ==> f[..2] + f[3..] == d[..if |d| >= 4 then 4 else |d|])
      && (|d| < 2 ==> f == d)
  {
    var d := DigitsOnly(raw);
    if |d| >= 2 {
      ExpiryFormatSlashed(raw);
      var m := if |d| >= 4 then 4 else |d|;
      var f := FormatExpiry(raw);
      assert f[..2] == d[..2] && f[3..] == d[2..m];
    }
  }

  /** The formatted expiry passes validation exactly when four digits with a valid month were typed. */
  lemma ExpiryFormatValid(raw: string)
    ensures var d := DigitsOnly(raw);
      ExpiryValid(FormatExpiry(raw)) <==> |d| >= 4 && MonthDigits(d[0], d[1])
  {
    ExpiryFormatShape(raw);
  }

  /** The CVV field holds at most four digits, and passes once three have been typed. */
  lemma CvvFormatShape(raw: string)
    ensures var f := FormatCvv(raw);
      && |f| <= 4 && AllDigits(f) && f <= DigitsOnly(raw)
      && (CvvValid(f) <==> |DigitsOnly(raw)| >= 3)
  {
  }

  /**
   * Details entered through the three formatters pass the card check exactly
   * when 16 card digits, four expiry digits with a valid month, at least three
   * CVV digits and a name of more than three characters were entered.
   */
  lemma FormattedCardValid(rawNumber: string, rawExpiry: string, rawCvv: string, name: string)
    ensures var d := PaymentDetails(FormatCardNumber(rawNumber), FormatExpiry(rawExpiry), FormatCvv(rawCvv), name);
      var e := DigitsOnly(rawExpiry);
      ValidateCardDetails(Card, d) <==>
        |DigitsOnly(rawNumber)| == 16 && |e| >= 4 && MonthDigits(e[0], e[1]) && |DigitsOnly(rawCvv)| >= 3 && |name| > 3
  {
    CardNumberSixteenDigits(rawNumber);
    ExpiryFormatValid(rawExpiry);
    CvvFormatShape(rawCvv);
  }

  // ---------------------------------------------------------------------------
  // The form component

  class PaymentFormView {
    /** The amount shown, handed in by the parent. */
    const total: nat
    var paymentMethod: Method
    var isProcessing: bool
    var details: PaymentDetails
    /** How many times the processing flag has been raised. */
    ghost var processingStarts: nat

    constructor (total: nat)
      ensures this.total == total
      ensures paymentMethod == Card && !isProcessing && details == EmptyDetails && processingStarts == 0
    {
      this.total := total;
      paymentMethod := Card;
      isProcessing := false;
      details := EmptyDetails;
      processingStarts := 0;
    }

    method ChooseMethod(m: Method)
      modifies this
      ensures paymentMethod == m
      ensures isProcessing == old(isProcessing) && details == old(details) && processingStarts == old(processingStarts)
    {
      paymentMethod := m;
    }

    method EnterName(raw: string)
      modifies this
      ensures details == old(details).(name := raw)
      ensures paymentMethod == old(paymentMethod) && isProcessing == old(isProcessing) && processingStarts == old(processingStarts)
    {
      details := details.(name := raw);
    }

    method EnterCardNumber(raw: string)
      modifies this
      ensures details == old(details).(cardNumber := FormatCardNumber(raw))
      ensures paymentMethod == old(paymentMethod) && isProcessing == old(isProcessing) && processingStarts == old(processingStarts)
    {
      details := details.(cardNumber := FormatCardNumber(raw));
    }

    method EnterExpiry(raw: string)
      modifies this
      ensures details == old(details).(expiryDate := FormatExpiry(raw))
      ensures paymentMethod == old(paymentMethod) && isProcessing == old(isProcessing) && processingStarts == old(processingStarts)
    {
      details := details.(expiryDate := FormatExpiry(raw));
    }

    method EnterCvv(raw: string)
      modifies this
      ensures details == old(details).(cvv := FormatCvv(raw))
      ensures paymentMethod == old(paymentMethod) && isProcessing == old(isProcessing) && processingStarts == old(processingStarts)
    {
      details := details.(cvv := FormatCvv(raw));
    }

    /**
     * The submit handler. Invalid details stop it before anything happens. Otherwise
     * the processing flag is raised, the (simulated) payment runs, a TWINT payment
     * waits for the customer's confirmation, the callback's arguments are returned,
     * and the flag is lowered again whatever the outcome.
     */
    method Submit(twintConfirmed: bool) returns (call: Option<PaymentCall>)
      modifies this
      ensures call == SubmitCall(old(paymentMethod), old(details), twintConfirmed)
      ensures !ValidateCardDetails(old(paymentMethod), old(details)) ==> unchanged(this)
      ensures ValidateCardDetails(old(paymentMethod), old(details)) ==>
        && !isProcessing && processingStarts == old(processingStarts) + 1
        && paymentMethod == old(paymentMethod) && details == old(details)
    {
      if !ValidateCardDetails(paymentMethod, details) {
        return None;
      }
      isProcessing := true;
      processingStarts := processingStarts + 1;
      if paymentMethod == Twint && !twintConfirmed {
        call := None;
      } else {
        call := Some(PaymentCall(paymentMethod, if paymentMethod == Card then Some(details) else None));
      }
      isProcessing := false;
    }
  }
}
