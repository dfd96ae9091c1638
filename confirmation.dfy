/**
 * The booking confirmation step: the live total, the details form that turns
 * the selection into a booking, the reminder it schedules, and the reset once
 * the payment form reports completion.
 */
module Confirmation {
  import opened Wrappers
  import opened Catalog
  import opened BookingContext
  import opened Reminders
  import Payment

  // ---------------------------------------------------------------------------
  // The live total

  /** The price of the selected package's services, bought one by one; 0 without a package. */
  function PackageServicesTotal(s: State): Money
  {
    match s.selectedPackage
    case None => 0
    case Some(p) => ServicesTotal(p.services)
  }

  /** The total the confirmation shows and charges: package services plus cart lines. */
  function TotalPrice(s: State): (r: Money)
    ensures ProductsTotal(s.selectedProducts) <= r
    ensures forall i :: 0 <= i < |s.selectedProducts| ==> s.selectedProducts[i].price <= r
    ensures s.selectedPackage.Some? ==> forall i :: 0 <= i < |s.selectedPackage.value.services| ==> s.selectedPackage.value.services[i].price <= r
  {
    PackageServicesTotal(s) + ProductsTotal(s.selectedProducts)
  }

  /** Without a package the total is the cart alone. */
  lemma TotalWithoutPackage(s: State)
    requires s.selectedPackage.None?
    ensures TotalPrice(s) == ProductsTotal(s.selectedProducts)
  {
  }

  /**
   * The total is computed from the services, not from the package's own price:
   * "Paket Gold" alone comes to 200 CHF although the package is listed at 180 CHF.
   */
  lemma GoldTotalIsServiceSum(s: State)
    requires s.selectedPackage == Some(Gold) && s.selectedProducts == []
    ensures TotalPrice(s) == 20000 && Gold.price == 18000
  {
    PackagePriceAtMostServices();
  }

  /** Adding a cart line raises the total by exactly that line's price. */
  lemma TotalAfterAddProduct(s: State, p: Product)
    ensures TotalPrice(Step(s, AddProduct(p))) == TotalPrice(s) + p.price
  {
    ProductsTotalAppend(s.selectedProducts, [p]);
    assert ProductsTotal([p]) == p.price;
  }

  /** Removing lines by id never raises the total. */
  lemma TotalAfterRemoveProduct(s: State, id: string)
    ensures TotalPrice(Step(s, RemoveProduct(id))) <= TotalPrice(s)
  {
    ProductsTotalWithoutId(s.selectedProducts, id);
  }

  lemma {:induction false} ProductsTotalWithoutId(ps: seq<Product>, id: string)
    ensures ProductsTotal(WithoutId(ps, id)) <= ProductsTotal(ps)
  {
    if ps != [] {
      ProductsTotalWithoutId(ps[1..], id);
    }
  }

  /** Choosing employee, date or time, and adding a booking, leave the total alone. */
  lemma TotalIgnoresSlotAndHistory(s: State, a: Action)
    requires a.SelectEmployee? || a.SelectDate? || a.SelectTime? || a.AddBooking?
    ensures TotalPrice(Step(s, a)) == TotalPrice(s)
  {
  }

  // ---------------------------------------------------------------------------
  // Materialising a booking

  datatype FormData = FormData(name: string, email: string, phone: string, acceptTerms: bool, marketingConsent: bool)

  const EmptyForm := FormData("", "", "", false, false)

  datatype SubmitError = EmailRequired | TermsNotAccepted

  /** The booking record built from the live selection and the form; missing choices become empty. */
  function Snapshot(s: State, f: FormData, now: nat): Booking
  {
    Booking(
      now,
      f.name,
      match s.selectedPackage case Some(p) => p.id case None => "",
      match s.selectedEmployee case Some(e) => e.id case None => "",
      match s.selectedDate case Some(d) => OnDay(d) case None => NoDate,
      match s.selectedTime case Some(t) => t case None => "",
      Pending,
      TotalPrice(s),
      s.selectedProducts,
      true,
      f.phone != "",
      PaymentPending,
      f.marketingConsent,
      match s.selectedPackage case Some(p) => Some(p.name) case None => None)
  }

  /**
   * The outcome of the details form: the e-mail is checked first, then the terms;
   * otherwise the booking is pending, priced at the live total, and carries the
   * cart, the contact choices and the selection as they are now, each missing
   * choice becoming an empty field on its own.
   */
  function Materialize(s: State, f: FormData, now: nat): (r: Result<Booking, SubmitError>)
    ensures f.email == "" ==> r == Failure(EmailRequired)
    ensures f.email != "" && !f.acceptTerms ==> r == Failure(TermsNotAccepted)
    ensures r.Success? <==> f.email != "" && f.acceptTerms
    ensures r.Success? ==>
      var b := r.value;
      && b.id == now && b.customerId == f.name
      && b.status == Pending && b.paymentStatus == PaymentPending
      && b.reminderEmail && (b.reminderSMS <==> f.phone != "")
      && b.marketingConsent == f.marketingConsent
      && b.totalPrice == TotalPrice(s) && b.products == s.selectedProducts
    ensures r.Success? ==>
      var b := r.value;
      && b.packageId == (if s.selectedPackage.Some? then s.selectedPackage.value.id else "")
      && b.packageName == (if s.selectedPackage.Some? then Some(s.selectedPackage.value.name) else None)
      && b.employeeId == (if s.selectedEmployee.Some? then s.selectedEmployee.value.id else "")
      && b.date == (if s.selectedDate.Some? then OnDay(s.selectedDate.value) else NoDate)
      && b.time == (if s.selectedTime.Some? then s.selectedTime.value else "")
  {
    if f.email == "" then Failure(EmailRequired)
    else if !f.acceptTerms then Failure(TermsNotAccepted)
    else Success(Snapshot(s, f, now))
  }

  /**
   * A missing package, employee, date or time does not reject the form: each
   * becomes an empty field on its own, whatever the other choices are.
   */
  lemma MissingChoicesBecomeEmpty(s: State, f: FormData, now: nat)
    requires f.email != "" && f.acceptTerms
    ensures Materialize(s, f, now).Success?
    ensures s.selectedPackage.None? ==> Materialize(s, f, now).value.packageId == "" && Materialize(s, f, now).value.packageName.None?
    ensures s.selectedEmployee.None? ==> Materialize(s, f, now).value.employeeId == ""
    ensures s.selectedDate.None? ==> Materialize(s, f, now).value.date == NoDate
    ensures s.selectedTime.None? ==> Materialize(s, f, now).value.time == ""
  {
  }

  /** The reminder a successful submit schedules: only with a date, one day before it, to the form's e-mail. */
  function BookingReminder(s: State, f: FormData, b: Booking): (r: Option<Reminder>)
    ensures r.Some? <==> s.selectedDate.Some?
    ensures r.Some? ==>
      && r.value.date == s.selectedDate.value - 1 && r.value.recipient == f.email
      && r.value.channel == Email && r.value.subject == AboutBooking(b)
  {
    match s.selectedDate
    case None => None
    case Some(d) => Some(ReminderBefore(d, f.email, AboutBooking(b)))
  }

  /**
   * The worked example: Paket Gold with Sarah Weber on a Montag at 09:00, e-mail
   * "a@b.ch", terms accepted, no phone. The booking is pending, asks for an e-mail
   * reminder but no SMS, and is priced at the 200 CHF of its two services.
   */
  lemma GoldScenario(day: DayNumber, now: nat)
    ensures var s := Run(Initial, [SelectPackage(Gold), SelectEmployee(SarahWeber), SelectDate(day), SelectTime(Some("09:00"))]);
      var f := FormData("", "a@b.ch", "", true, false);
      && IsAvailable(SarahWeber, "Montag", "09:00")
      && Materialize(s, f, now).Success?
      && Materialize(s, f, now).value.totalPrice == 20000
      && !Materialize(s, f, now).value.reminderSMS
      && Materialize(s, f, now).value.reminderEmail
      && Materialize(s, f, now).value.status == Pending
      && Materialize(s, f, now).value.packageId == "gold" && Materialize(s, f, now).value.employeeId == "1"
  {
    SarahMondaySlots();
    PackagePriceAtMostServices();
    var s1 := Step(Initial, SelectPackage(Gold));
    var s2 := Step(s1, SelectEmployee(SarahWeber));
    var s3 := Step(s2, SelectDate(day));
    RunCons(Initial, SelectPackage(Gold), [SelectEmployee(SarahWeber), SelectDate(day), SelectTime(Some("09:00"))]);
    RunCons(s1, SelectEmployee(SarahWeber), [SelectDate(day), SelectTime(Some("09:00"))]);
    RunCons(s2, SelectDate(day), [SelectTime(Some("09:00"))]);
    RunCons(s3, SelectTime(Some("09:00")), []);
  }

  // ---------------------------------------------------------------------------
  // What the component shows

  /** The value the component keeps for the payment step's outcome; only success is ever stored. */
  datatype PaymentResult = Succeeded | Failed

  datatype Screen =
    | ThankYou
    | PaymentFailedNotice
    | ChoosePackageFirst
    | DetailsForm(pkg: Package)
    | PaymentStep(total: Money)

  /** Which screen the component renders. */
  function View(s: State, showPayment: bool, status: Option<PaymentResult>): (r: Screen)
    ensures (r.DetailsForm? || r.PaymentStep?) <==> s.selectedPackage.Some?
    ensures r.DetailsForm? ==> !showPayment && r.pkg == s.selectedPackage.value
    ensures r.PaymentStep? ==> showPayment && r.total == TotalPrice(s)
  {
    match s.selectedPackage
    case None =>
      if status == Some(Succeeded) then ThankYou
      else if status == Some(Failed) then PaymentFailedNotice
      else ChoosePackageFirst
    case Some(p) => if showPayment then PaymentStep(TotalPrice(s)) else DetailsForm(p)
  }

  /** The payment step asks for exactly the amount frozen into the booking just added. */
  lemma PaymentAmountMatchesBooking(s: State, f: FormData, now: nat, status: Option<PaymentResult>)
    requires s.selectedPackage.Some?
    requires Materialize(s, f, now).Success?
    ensures View(Step(s, AddBooking(Materialize(s, f, now).value)), true, status) == PaymentStep(Materialize(s, f, now).value.totalPrice)
  {
  }

  /** Adding a booking and then resetting: the cart survives, the history gains the booking, the selection is gone. */
  lemma AddThenReset(s: State, b: Booking)
    ensures Run(s, [AddBooking(b), ResetBooking]) == Initial.(selectedProducts := s.selectedProducts, bookings := s.bookings + [b])
  {
    var added := Step(s, AddBooking(b));
    RunCons(s, AddBooking(b), [ResetBooking]);
    RunCons(added, ResetBooking, []);
  }

  /**
   * A submit followed by a completed payment: the history has gained exactly the
   * new booking, the cart is still there, the selection is gone, and the thank-you
   * notice shows.
   */
  lemma SubmitThenPay(s: State, f: FormData, now: nat)
    requires Materialize(s, f, now).Success?
    ensures var b := Materialize(s, f, now).value;
      var r := Run(s, [AddBooking(b), ResetBooking]);
      && r.bookings == s.bookings + [b]
      && r.selectedProducts == s.selectedProducts
      && r.selectedPackage.None? && r.selectedEmployee.None? && r.selectedDate.None? && r.selectedTime.None?
      && View(r, true, Some(Succeeded)) == ThankYou
      && r.bookings[|s.bookings|].totalPrice == TotalPrice(s)
  {
    var b := Materialize(s, f, now).value;
    AddThenReset(s, b);
  }

  // ---------------------------------------------------------------------------
  // The component

  class ConfirmationView {
    const store: Store
    const outbox: Outbox
    var showPayment: bool
    var paymentStatus: Option<PaymentResult>
    var form: FormData

    /** Failure is never recorded: the payment step reports only success. */
    ghost predicate Valid()
      reads this
    {
      paymentStatus != Some(Failed)
    }

    constructor (store: Store, outbox: Outbox)
      ensures this.store == store && this.outbox == outbox
      ensures !showPayment && paymentStatus.None? && form == EmptyForm && Valid()
    {
      this.store := store;
      this.outbox := outbox;
      showPayment := false;
      paymentStatus := None;
      form := EmptyForm;
    }

    function Screen(): Screen
      reads this, store
    {
      View(store.state, showPayment, paymentStatus)
    }

    /**
     * The details form's submit handler. A rejected form changes nothing. An
     * accepted one adds the booking, moves on to payment and, when a date is
     * selected, hands the scheduler a reminder for the day before.
     */
    method Submit(now: nat) returns (r: Result<Booking, SubmitError>)
      requires Valid()
      modifies this, store, outbox
      ensures Valid()
      ensures r == Materialize(old(store.state), old(form), now)
      ensures r.Failure? ==> unchanged(this) && unchanged(store) && unchanged(outbox)
      ensures r.Success? ==>
        && store.state == Step(old(store.state), AddBooking(r.value))
        && showPayment && paymentStatus == old(paymentStatus) && form == old(form)
        && outbox.scheduled == old(outbox.scheduled) + OptionToSeq(BookingReminder(old(store.state), old(form), r.value))
      ensures r.Success? && old(store.state).selectedPackage.Some? ==> Screen() == PaymentStep(r.value.totalPrice)
    {
      var s := store.state;
      if form.email == "" {
        return Failure(EmailRequired);
      }
      if !form.acceptTerms {
        return Failure(TermsNotAccepted);
      }
      var booking := Snapshot(s, form, now);
      store.Dispatch(AddBooking(booking));
      showPayment := true;
      if s.selectedDate.Some? {
        outbox.Schedule(ReminderBefore(s.selectedDate.value, form.email, AboutBooking(booking)));
      }
      r := Success(booking);
    }

    /** The payment step renders a fresh payment form showing the live total. */
    method OpenPaymentForm() returns (pf: Payment.PaymentFormView)
      ensures fresh(pf)
      ensures pf.total == TotalPrice(store.state) && pf.paymentMethod == Payment.Card && !pf.isProcessing
      ensures pf.details == Payment.EmptyDetails
    {
      pf := new Payment.PaymentFormView(TotalPrice(store.state));
    }

    /** The payment form's completion callback: record success and reset the selection. */
    method PaymentComplete(paidWith: Payment.Method)
      modifies this, store
      ensures Valid()
      ensures paymentStatus == Some(Succeeded) && store.state == Step(old(store.state), ResetBooking)
      ensures showPayment == old(showPayment) && form == old(form)
    {
      paymentStatus := Some(Succeeded);
      store.Dispatch(ResetBooking);
    }

    /**
     * Submitting the payment form shown at the payment step: completion runs only
     * when the form hands over a call; otherwise nothing here changes.
     */
    method Pay(pf: Payment.PaymentFormView, twintConfirmed: bool) returns (call: Option<Payment.PaymentCall>)
      requires Valid()
      modifies this, store, pf
      ensures Valid()
      ensures call == Payment.SubmitCall(old(pf.paymentMethod), old(pf.details), twintConfirmed)
      ensures call.None? ==> unchanged(this) && unchanged(store)
      ensures call.Some? ==> paymentStatus == Some(Succeeded) && store.state == Step(old(store.state), ResetBooking)
      ensures call.Some? ==> showPayment == old(showPayment) && form == old(form)
      ensures !Payment.ValidateCardDetails(old(pf.paymentMethod), old(pf.details)) ==> unchanged(pf)
      ensures Payment.ValidateCardDetails(old(pf.paymentMethod), old(pf.details)) ==>
        && !pf.isProcessing && pf.paymentMethod == old(pf.paymentMethod) && pf.details == old(pf.details)
    {
      call := pf.Submit(twintConfirmed);
      if call.Some? {
        PaymentComplete(call.value.paidWith);
      }
    }
  }
}
