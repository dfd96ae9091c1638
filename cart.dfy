/**
 * The shopping cart: product subtotal, the WELCOME10 coupon, and the
 * product-only checkout that schedules an appointment reminder and empties
 * the cart. Amounts after the discount are `real` Rappen.
 */
module Cart {
  import opened Wrappers
  import opened Catalog
  import opened BookingContext
  import opened Reminders
  import Confirmation

  // ---------------------------------------------------------------------------
  // Amounts

  /** The discount on a subtotal at a rate. */
  function Discount(subtotal: Money, rate: real): real
  {
    subtotal as real * rate
  }

  /** The amount due: subtotal less the discount. */
  function CartTotal(subtotal: Money, rate: real): real
  {
    subtotal as real - Discount(subtotal, rate)
  }

  /** With a rate between 0 and 1 the discount never exceeds the subtotal and the total is never negative. */
  lemma TotalWithinSubtotal(subtotal: Money, rate: real)
    requires 0.0 <= rate <= 1.0
    ensures 0.0 <= Discount(subtotal, rate) <= subtotal as real
    ensures 0.0 <= CartTotal(subtotal, rate) <= subtotal as real
  {
    assert subtotal as real * rate <= subtotal as real * 1.0;
  }

  /**
   * The cart's subtotal is the products alone: it is the confirmation total less
   * the package's services, and choosing a package does not change what is due.
   */
  lemma SubtotalExcludesServices(s: State, p: Package, rate: real)
    ensures ProductsTotal(s.selectedProducts) == Confirmation.TotalPrice(s) - Confirmation.PackageServicesTotal(s)
    ensures CartTotal(ProductsTotal(Step(s, SelectPackage(p)).selectedProducts), rate)
         == CartTotal(ProductsTotal(s.selectedProducts), rate)
  {
  }

  // ---------------------------------------------------------------------------
  // The coupon

  const CouponCode := "WELCOME10"

  /** WELCOME10 takes 10% off. */
  const CouponRate: real := 0.1

  /** `toUpperCase` on ASCII letters. */
  function UpperChar(c: char): char
  {
    if 'a' <= c <= 'z' then ((c as int) - 32) as char else c
  }

  function UpperCase(s: string): (r: string)
    ensures |r| == |s|
    ensures forall i :: 0 <= i < |s| ==> r[i] == UpperChar(s[i])
  {
    if s == [] then [] else [UpperChar(s[0])] + UpperCase(s[1..])
  }

  predicate CouponMatches(code: string)
  {
    UpperCase(code) == CouponCode
  }

  /** The rate after applying a code: the coupon's rate for a match, otherwise the rate already applied. */
  function RateAfterCoupon(code: string, current: real): real
  {
    if CouponMatches(code) then CouponRate else current
  }

  /** The code matches exactly when it spells WELCOME10 with each letter in either case. */
  lemma CouponCaseInsensitive(code: string)
    ensures CouponMatches(code) <==>
      |code| == 9 && forall i :: 0 <= i < 9 ==> code[i] == CouponCode[i] || UpperChar(code[i]) == CouponCode[i]
  {
    if |code| == 9 && forall i :: 0 <= i < 9 ==> code[i] == CouponCode[i] || UpperChar(code[i]) == CouponCode[i] {
      forall i | 0 <= i < 9 ensures UpperCase(code)[i] == CouponCode[i] {
        assert UpperChar(CouponCode[i]) == CouponCode[i];
      }
    }
  }

  /** Lower case and mixed case spellings match; a shorter code does not. */
  lemma CouponExamples()
    ensures CouponMatches("welcome10") && CouponMatches("Welcome10") && !CouponMatches("WELCOME1")
  {
    CouponCaseInsensitive("welcome10");
    CouponCaseInsensitive("Welcome10");
  }

  /** Applying a code twice is applying it once; a code that does not match keeps the old rate, and rates stay in [0, 1]. */
  lemma CouponIdempotent(code: string, current: real)
    ensures RateAfterCoupon(code, RateAfterCoupon(code, current)) == RateAfterCoupon(code, current)
    ensures !CouponMatches(code) ==> RateAfterCoupon(code, current) == current
    ensures 0.0 <= current <= 1.0 ==> 0.0 <= RateAfterCoupon(code, current) <= 1.0
  {
  }

  // ---------------------------------------------------------------------------
  // Checkout

  datatype CheckoutForm = CheckoutForm(name: string, email: string, phone: string)

  const EmptyCheckoutForm := CheckoutForm("", "", "")

  /** Name, e-mail and phone are all required here. */
  predicate CheckoutComplete(f: CheckoutForm)
  {
    f.name != "" && f.email != "" && f.phone != ""
  }

  /** The reminder a checkout hands over: only with a date, one day before it, to the form's e-mail, about the order as it stands. */
  function OrderReminder(s: State, f: CheckoutForm): (r: Option<Reminder>)
    ensures r.Some? <==> s.selectedDate.Some?
    ensures r.Some? ==>
      && r.value.date == s.selectedDate.value - 1 && r.value.recipient == f.email
      && r.value.subject == AboutOrder(s.selectedDate.value, s.selectedTime, s.selectedPackage, s.selectedProducts)
  {
    match s.selectedDate
    case None => None
    case Some(d) => Some(ReminderBefore(d, f.email, AboutOrder(d, s.selectedTime, s.selectedPackage, s.selectedProducts)))
  }

  /**
   * Checkout adds no booking and leaves the appointment choice alone: it only
   * empties the cart, so the reminder keeps the lines being bought.
   */
  lemma CheckoutOnlyClearsCart(s: State, f: CheckoutForm)
    ensures var r := Step(s, ClearCart);
      && r.bookings == s.bookings && r.selectedProducts == []
      && r.selectedPackage == s.selectedPackage && r.selectedEmployee == s.selectedEmployee
      && r.selectedDate == s.selectedDate && r.selectedTime == s.selectedTime
    ensures OrderReminder(s, f).Some? ==> OrderReminder(s, f).value.subject.products == s.selectedProducts
  {
  }

  // ---------------------------------------------------------------------------
  // The component

  class ShoppingCartView {
    const store: Store
    const outbox: Outbox
    var showCheckout: bool
    var couponCode: string
    var appliedDiscount: real
    var form: CheckoutForm

    /** The only rates ever applied are none and the coupon's. */
    ghost predicate Valid()
      reads this
    {
      appliedDiscount == 0.0 || appliedDiscount == CouponRate
    }

    constructor (store: Store, outbox: Outbox)
      ensures this.store == store && this.outbox == outbox
      ensures !showCheckout && couponCode == "" && appliedDiscount == 0.0 && form == EmptyCheckoutForm
      ensures Valid()
    {
      this.store := store;
      this.outbox := outbox;
      showCheckout := false;
      couponCode := "";
      appliedDiscount := 0.0;
      form := EmptyCheckoutForm;
    }

    function Subtotal(): Money
      reads this, store
    {
      ProductsTotal(store.state.selectedProducts)
    }

    function Total(): real
      reads this, store
    {
      CartTotal(Subtotal(), appliedDiscount)
    }

    /** Under the invariant, what is due lies between nothing and the subtotal. */
    lemma ValidTotalBounded()
      requires Valid()
      ensures 0.0 <= Total() <= Subtotal() as real
    {
      TotalWithinSubtotal(Subtotal(), appliedDiscount);
    }

    method RemoveLine(productId: string)
      modifies store
      ensures store.state == Step(old(store.state), RemoveProduct(productId))
    {
      store.Dispatch(RemoveProduct(productId));
    }

    method ApplyCoupon()
      requires Valid()
      modifies this
      ensures Valid()
      ensures appliedDiscount == RateAfterCoupon(couponCode, old(appliedDiscount))
      ensures couponCode == old(couponCode) && showCheckout == old(showCheckout) && form == old(form)
    {
      if UpperCase(couponCode) == CouponCode {
        appliedDiscount := CouponRate;
      }
    }

    /**
     * The checkout handler. An incomplete form changes nothing. Otherwise a
     * reminder goes out when a date is selected, then the cart is emptied and
     * the checkout form closes.
     */
    method Checkout() returns (ok: bool)
      modifies this, store, outbox
      ensures ok == CheckoutComplete(old(form))
      ensures !ok ==> unchanged(this) && unchanged(store) && unchanged(outbox)
      ensures ok ==>
        && store.state == Step(old(store.state), ClearCart)
        && outbox.scheduled == old(outbox.scheduled) + OptionToSeq(OrderReminder(old(store.state), old(form)))
        && !showCheckout && appliedDiscount == old(appliedDiscount) && couponCode == old(couponCode) && form == old(form)
    {
      if form.name == "" || form.email == "" || form.phone == "" {
        return false;
      }
      var s := store.state;
      if s.selectedDate.Some? {
        var d := s.selectedDate.value;
        outbox.Schedule(ReminderBefore(d, form.email, AboutOrder(d, s.selectedTime, s.selectedPackage, s.selectedProducts)));
      }
      store.Dispatch(ClearCart);
      showCheckout := false;
      ok := true;
    }
  }
}
