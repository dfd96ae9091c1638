/**
 * The session-wide booking state and its reducer: the in-progress selection
 * (package, employee, date, time), the product cart, and the append-only list
 * of bookings. Every change goes through `Step`, one case per action.
 * Dates are abstract day numbers.
 */
module BookingContext {
  import opened Wrappers
  import opened Catalog

  type DayNumber = int

  datatype BookingStatus = Pending | Confirmed | Cancelled

  datatype PaymentStatus = PaymentPending | PaymentSuccess | PaymentFailed

  /** The date of a booking: the selected day, or no date (the empty string in the record). */
  datatype DateField = NoDate | OnDay(day: DayNumber)

  /** A submitted booking: a snapshot of the selection and the customer's form. */
  datatype Booking = Booking(
    id: nat,
    customerId: string,
    packageId: string,
    employeeId: string,
    date: DateField,
    time: string,
    status: BookingStatus,
    totalPrice: Money,
    products: seq<Product>,
    reminderEmail: bool,
    reminderSMS: bool,
    paymentStatus: PaymentStatus,
    marketingConsent: bool,
    packageName: Option<string>)

  datatype State = State(
    selectedPackage: Option<Package>,
    selectedEmployee: Option<Employee>,
    selectedDate: Option<DayNumber>,
    selectedTime: Option<string>,
    selectedProducts: seq<Product>,
    bookings: seq<Booking>)

  datatype Action =
    | SelectPackage(pkg: Package)
    | SelectEmployee(employee: Employee)
    | SelectDate(date: DayNumber)
    | SelectTime(time: Option<string>)
    | AddProduct(product: Product)
    | RemoveProduct(productId: string)
    | AddBooking(booking: Booking)
    | ResetBooking
    | ClearCart

  const Initial := State(None, None, None, None, [], [])

  /** The cart lines whose id differs from `id`, in their original order. */
  function WithoutId(ps: seq<Product>, id: string): (r: seq<Product>)
    ensures |r| <= |ps|
    ensures forall p :: p in r ==> p in ps && p.id != id
    ensures forall p :: p in ps && p.id != id ==> p in r
  {
    if ps == [] then []
    else
      assert ps == [ps[0]] + ps[1..];
      if ps[0].id == id then WithoutId(ps[1..], id)
      else [ps[0]] + WithoutId(ps[1..], id)
  }

  /** The reducer: the state after one action. */
  function Step(s: State, a: Action): (r: State)
    ensures s.bookings <= r.bookings
  {
    match a
    case SelectPackage(p) => s.(selectedPackage := Some(p))
    case SelectEmployee(e) => s.(selectedEmployee := Some(e))
    case SelectDate(d) => s.(selectedDate := Some(d))
    case SelectTime(t) => s.(selectedTime := t)
    case AddProduct(p) => s.(selectedProducts := s.selectedProducts + [p])
    case RemoveProduct(id) => s.(selectedProducts := WithoutId(s.selectedProducts, id))
    case AddBooking(b) => s.(bookings := s.bookings + [b])
    case ResetBooking => Initial.(selectedProducts := s.selectedProducts, bookings := s.bookings)
    case ClearCart => s.(selectedProducts := [])
  }

  /** The state after a sequence of actions, dispatched in order. */
  function Run(s: State, actions: seq<Action>): State
    decreases |actions|
  {
    if actions == [] then s else Run(Step(s, actions[0]), actions[1..])
  }

  /** Dispatching a first action, then the rest. */
  lemma RunCons(s: State, a: Action, rest: seq<Action>)
    ensures Run(s, [a] + rest) == Run(Step(s, a), rest)
  {
    assert ([a] + rest)[0] == a;
    assert ([a] + rest)[1..] == rest;
  }

  // ---------------------------------------------------------------------------
  // What each action changes, and what it leaves alone

  /** Choosing a package changes only the package; an earlier date or time choice survives. */
  lemma SelectPackageFrame(s: State, p: Package)
    ensures Step(s, SelectPackage(p)).selectedPackage == Some(p)
    ensures Step(s, SelectPackage(p)).(selectedPackage := s.selectedPackage) == s
  {
  }

  /** Choosing an employee or a date changes only that field. */
  lemma SelectEmployeeAndDateFrame(s: State, e: Employee, d: DayNumber)
    ensures Step(s, SelectEmployee(e)) == s.(selectedEmployee := Some(e))
    ensures Step(s, SelectDate(d)) == s.(selectedDate := Some(d))
  {
  }

  /** The time is stored exactly as given, `None` clearing it, with no availability check. */
  lemma SelectTimeStoresPayload(s: State, t: Option<string>)
    ensures Step(s, SelectTime(t)).selectedTime == t
    ensures Step(s, SelectTime(t)).(selectedTime := s.selectedTime) == s
    ensures t == None ==> Step(s, SelectTime(t)).selectedTime.None?
  {
  }

  /**
   * The template marks Sarah Weber's Montag 11:00 as taken, yet selecting that
   * time with her chosen is accepted and stored like any other.
   */
  lemma UnavailableSlotStillSelected(s: State)
    requires s.selectedEmployee == Some(SarahWeber)
    ensures !IsAvailable(SarahWeber, "Montag", "11:00")
    ensures Step(s, SelectTime(Some("11:00"))).selectedTime == Some("11:00")
  {
    SarahMondaySlots();
  }

  /** A product is appended as its own cart line: no deduplication, no stock check. */
  lemma AddProductAppends(s: State, p: Product)
    ensures Step(s, AddProduct(p)).selectedProducts == s.selectedProducts + [p]
    ensures |Step(s, AddProduct(p)).selectedProducts| == |s.selectedProducts| + 1
    ensures Step(s, AddProduct(p)).(selectedProducts := s.selectedProducts) == s
  {
  }

  /** Removing by id drops every line with that id and keeps the others, counts unchanged. */
  lemma RemoveProductContents(s: State, id: string)
    ensures var r := Step(s, RemoveProduct(id));
      && (forall p :: p in r.selectedProducts ==> p.id != id)
      && (forall p :: multiset(r.selectedProducts)[p] == if p.id == id then 0 else multiset(s.selectedProducts)[p])
      && r.(selectedProducts := s.selectedProducts) == s
  {
    forall p ensures multiset(WithoutId(s.selectedProducts, id))[p] == if p.id == id then 0 else multiset(s.selectedProducts)[p] {
      WithoutIdCounts(s.selectedProducts, id, p);
    }
  }

  /** Removal by id zeroes the count of every line with that id and keeps every other count. */
  lemma {:induction false} WithoutIdCounts(ps: seq<Product>, id: string, p: Product)
    ensures multiset(WithoutId(ps, id))[p] == if p.id == id then 0 else multiset(ps)[p]
  {
    if ps != [] {
      assert ps == [ps[0]] + ps[1..];
      WithoutIdCounts(ps[1..], id, p);
    }
  }

  /** Removal keeps the order of the lines it keeps: it works piecewise on any split of the cart. */
  lemma {:induction false} WithoutIdConcat(a: seq<Product>, b: seq<Product>, id: string)
    ensures WithoutId(a + b, id) == WithoutId(a, id) + WithoutId(b, id)
  {
    if a == [] {
      assert a + b == b;
    } else {
      assert (a + b)[0] == a[0];
      assert (a + b)[1..] == a[1..] + b;
      WithoutIdConcat(a[1..], b, id);
    }
  }

  /** A cart without lines of that id is left exactly as it was. */
  lemma {:induction false} WithoutIdAbsent(ps: seq<Product>, id: string)
    requires forall p :: p in ps ==> p.id != id
    ensures WithoutId(ps, id) == ps
  {
    if ps != [] {
      assert ps == [ps[0]] + ps[1..];
      WithoutIdAbsent(ps[1..], id);
    }
  }

  /** Removing the same id twice is the same as removing it once. */
  lemma RemoveProductIdempotent(s: State, id: string)
    ensures Step(Step(s, RemoveProduct(id)), RemoveProduct(id)) == Step(s, RemoveProduct(id))
  {
    var once := WithoutId(s.selectedProducts, id);
    assert Step(s, RemoveProduct(id)) == s.(selectedProducts := once);
    WithoutIdAbsent(once, id);
  }

  /** Adding a product twice and then removing its id leaves no line with that id. */
  lemma AddTwiceThenRemove(s: State, p: Product)
    ensures var r := Run(s, [AddProduct(p), AddProduct(p), RemoveProduct(p.id)]);
      && (forall q :: q in r.selectedProducts ==> q.id != p.id)
      && r.selectedProducts == WithoutId(s.selectedProducts, p.id)
  {
    var twice := s.selectedProducts + [p] + [p];
    var s1 := Step(s, AddProduct(p));
    var s2 := Step(s1, AddProduct(p));
    assert s2 == s.(selectedProducts := twice);
    RunCons(s, AddProduct(p), [AddProduct(p), RemoveProduct(p.id)]);
    RunCons(s1, AddProduct(p), [RemoveProduct(p.id)]);
    RunCons(s2, RemoveProduct(p.id), []);
    WithoutIdConcat(s.selectedProducts + [p], [p], p.id);
    WithoutIdConcat(s.selectedProducts, [p], p.id);
    assert WithoutId([p], p.id) == [];
  }

  /** A booking is appended to the history; selection and cart stay as they were. */
  lemma AddBookingAppends(s: State, b: Booking)
    ensures Step(s, AddBooking(b)).bookings == s.bookings + [b]
    ensures Step(s, AddBooking(b)).(bookings := s.bookings) == s
  {
  }

  /** Reset clears package, employee, date and time, and keeps cart and history exactly. */
  lemma ResetBookingKeepsCartAndHistory(s: State)
    ensures var r := Step(s, ResetBooking);
      && r.selectedPackage.None? && r.selectedEmployee.None? && r.selectedDate.None? && r.selectedTime.None?
      && r.selectedProducts == s.selectedProducts && r.bookings == s.bookings
  {
  }

  /** Clearing the cart empties it and changes nothing else. */
  lemma ClearCartFrame(s: State)
    ensures Step(s, ClearCart).selectedProducts == []
    ensures Step(s, ClearCart).(selectedProducts := s.selectedProducts) == s
  {
  }

  // ---------------------------------------------------------------------------
  // The booking history is append-only

  /** Whatever actions follow, the earlier history stays a prefix of the later one. */
  lemma {:induction false} RunKeepsHistoryPrefix(s: State, actions: seq<Action>)
    ensures s.bookings <= Run(s, actions).bookings
    decreases |actions|
  {
    if actions != [] {
      RunKeepsHistoryPrefix(Step(s, actions[0]), actions[1..]);
    }
  }

  /**
   * A submitted booking is a frozen snapshot: once added, no later action,
   * including cart changes and a reset, alters the record at its position.
   */
  lemma {:induction false} BookingSnapshotFrozen(s: State, b: Booking, later: seq<Action>)
    ensures var r := Run(Step(s, AddBooking(b)), later);
      |s.bookings| < |r.bookings| && r.bookings[|s.bookings|] == b
  {
    RunKeepsHistoryPrefix(Step(s, AddBooking(b)), later);
  }

  // ---------------------------------------------------------------------------
  // The store: the one place the state lives during a session

  /** Holds the session's state; components change it only by dispatching actions. */
  class Store {
    var state: State

    constructor ()
      ensures state == Initial
    {
      state := Initial;
    }

    method Dispatch(a: Action)
      modifies this
      ensures state == Step(old(state), a)
    {
      state := Step(state, a);
    }
  }
}
