/**
 * The salon's catalog entities and the fixture the booking flow runs on:
 * three services, three packages built from them, two employees with a
 * weekly availability template, and three retail products.
 * Prices are in Rappen (1 CHF = 100 Rappen).
 */
module Catalog {

  type Money = nat

  datatype Service = Service(id: string, name: string, duration: nat, price: Money, category: string)

  datatype Package = Package(id: string, name: string, services: seq<Service>, price: Money, discountPercentage: nat)

  /** One bookable hour of an employee's weekly template. */
  datatype Slot = Slot(time: string, available: bool)

  /** An employee's weekly template maps a weekday name to its slots. */
  datatype Employee = Employee(id: string, name: string, role: string, specialties: seq<string>,
                               availability: map<string, seq<Slot>>)

  datatype Product = Product(id: string, name: string, price: Money, category: string, brand: string, inStock: bool)

  // ---------------------------------------------------------------------------
  // Sums of prices

  /** Sum of the prices of a list of services. */
  function ServicesTotal(ss: seq<Service>): (r: Money)
    ensures forall i :: 0 <= i < |ss| ==> ss[i].price <= r
  {
    if ss == [] then 0 else ss[0].price + ServicesTotal(ss[1..])
  }

  /** Sum of the prices of a list of product lines. */
  function ProductsTotal(ps: seq<Product>): (r: Money)
    ensures forall i :: 0 <= i < |ps| ==> ps[i].price <= r
  {
    if ps == [] then 0 else ps[0].price + ProductsTotal(ps[1..])
  }

  /** The product sum is additive over concatenation of carts. */
  lemma {:induction false} ProductsTotalAppend(a: seq<Product>, b: seq<Product>)
    ensures ProductsTotal(a + b) == ProductsTotal(a) + ProductsTotal(b)
  {
    if a == [] {
      assert a + b == b;
    } else {
      assert (a + b)[1..] == a[1..] + b;
      ProductsTotalAppend(a[1..], b);
    }
  }

  // ---------------------------------------------------------------------------
  // Services

  const CutStyle := Service("cut-style", "Haarschnitt & Styling", 60, 8000, "hair")
  const Color := Service("color", "Färben", 120, 12000, "hair")
  const Treatment := Service("treatment", "Luxus-Behandlung", 45, 6000, "hair")

  const Services: seq<Service> := [CutStyle, Color, Treatment]

  // ---------------------------------------------------------------------------
  // Packages

  const Platinum := Package("platinum", "Paket Platinum", [CutStyle, Color, Treatment], 26000, 15)
  const Gold := Package("gold", "Paket Gold", [CutStyle, Color], 18000, 10)
  const Silver := Package("silver", "Paket Silber", [CutStyle], 8000, 0)

  const Packages: seq<Package> := [Platinum, Gold, Silver]

  /** A package never costs more than its services bought one by one. */
  lemma PackagePriceAtMostServices()
    ensures forall p :: p in Packages ==> p.price <= ServicesTotal(p.services)
    ensures ServicesTotal(Platinum.services) == 26000 == Platinum.price
    ensures ServicesTotal(Gold.services) == 20000 && Gold.price == 18000
    ensures ServicesTotal(Silver.services) == 8000 == Silver.price
  {
    assert ServicesTotal([Treatment]) == 6000;
    assert ServicesTotal([Color, Treatment]) == 18000;
    assert ServicesTotal([Color]) == 12000;
    assert ServicesTotal([CutStyle]) == 8000;
  }

  // ---------------------------------------------------------------------------
  // Employees and their weekly availability template

  const Weekdays: seq<string> := ["Montag", "Dienstag", "Mittwoch", "Donnerstag", "Freitag"]

  /** The time labels every employee's every weekday enumerates. */
  const SlotTimes: seq<string> := ["09:00", "10:00", "11:00", "14:00", "15:00"]

  /** The five slots of a weekday, with the availability flags given in order. */
  function Day(a: bool, b: bool, c: bool, d: bool, e: bool): seq<Slot>
  {
    [Slot("09:00", a), Slot("10:00", b), Slot("11:00", c), Slot("14:00", d), Slot("15:00", e)]
  }

  const SarahWeber := Employee("1", "Sarah Weber", "Senior Stylist", ["Colorierung", "Hochsteckfrisuren", "Schnitt"],
    map[
      "Montag" := Day(true, true, false, true, true),
      "Dienstag" := Day(true, false, true, true, true),
      "Mittwoch" := Day(true, true, true, false, true),
      "Donnerstag" := Day(true, true, true, true, false),
      "Freitag" := Day(true, true, true, true, true)
    ])

  const MichaelSchmidt := Employee("2", "Michael Schmidt", "Master Stylist", ["Herrenschnitte", "Trending Styles", "Bartpflege"],
    map[
      "Montag" := Day(true, false, true, true, true),
      "Dienstag" := Day(true, true, true, false, true),
      "Mittwoch" := Day(false, true, true, true, true),
      "Donnerstag" := Day(true, true, false, true, true),
      "Freitag" := Day(true, true, true, true, true)
    ])

  const Employees: seq<Employee> := [SarahWeber, MichaelSchmidt]

  /** The slots an employee offers on a weekday; a weekday without an entry offers none. */
  function SlotsOn(e: Employee, weekday: string): (r: seq<Slot>)
    ensures weekday !in e.availability ==> r == []
  {
    if weekday in e.availability then e.availability[weekday] else []
  }

  /** Whether the employee's template marks `time` on `weekday` as free. */
  predicate IsAvailable(e: Employee, weekday: string, time: string)
    ensures IsAvailable(e, weekday, time) ==> weekday in e.availability
  {
    exists i :: 0 <= i < |SlotsOn(e, weekday)| && SlotsOn(e, weekday)[i].time == time && SlotsOn(e, weekday)[i].available
  }

  /** Minutes since midnight of an "HH:MM" label; -1 for a label of another shape. */
  function MinuteOfDay(t: string): int
  {
    if |t| == 5 && t[2] == ':' then
      (10 * DigitValue(t[0]) + DigitValue(t[1])) * 60 + 10 * DigitValue(t[3]) + DigitValue(t[4])
    else -1
  }

  function DigitValue(c: char): nat
  {
    if '0' <= c <= '9' then (c as int) - ('0' as int) else 0
  }

  /** The slots list exactly the labels of `SlotTimes`, in that order. */
  predicate ListsSlotTimes(slots: seq<Slot>)
  {
    |slots| == |SlotTimes| && forall i :: 0 <= i < |slots| ==> slots[i].time == SlotTimes[i]
  }

  /** The labels are well formed and strictly increase in time of day. */
  predicate Chronological(labels: seq<string>)
  {
    forall i, j :: 0 <= i < j < |labels| ==> 0 <= MinuteOfDay(labels[i]) < MinuteOfDay(labels[j])
  }

  lemma SlotTimesChronological()
    ensures Chronological(SlotTimes)
  {
    assert MinuteOfDay("09:00") == 540;
    assert MinuteOfDay("10:00") == 600;
    assert MinuteOfDay("11:00") == 660;
    assert MinuteOfDay("14:00") == 840;
    assert MinuteOfDay("15:00") == 900;
  }

  /**
   * Both employees define exactly Montag to Freitag, each of those days lists
   * the five labels of SlotTimes, and those labels ascend strictly.
   */
  lemma AvailabilityTemplateUniform()
    ensures forall e :: e in Employees ==> e.availability.Keys == set d | d in Weekdays
    ensures forall e, d :: e in Employees && d in e.availability ==> ListsSlotTimes(e.availability[d])
    ensures Chronological(SlotTimes)
  {
    SlotTimesChronological();
    forall a: bool, b: bool, c: bool, d: bool, e: bool ensures ListsSlotTimes(Day(a, b, c, d, e)) {
    }
    var week := set d | d in Weekdays;
    assert week == {"Montag", "Dienstag", "Mittwoch", "Donnerstag", "Freitag"};
    assert SarahWeber.availability.Keys == week;
    assert MichaelSchmidt.availability.Keys == week;
  }

  /** The weekend has no entry, so nothing can be booked on it. */
  lemma NoWeekendSlots(e: Employee, time: string)
    requires e in Employees
    ensures "Samstag" !in e.availability && "Sonntag" !in e.availability
    ensures SlotsOn(e, "Samstag") == [] && !IsAvailable(e, "Samstag", time)
    ensures SlotsOn(e, "Sonntag") == [] && !IsAvailable(e, "Sonntag", time)
  {
  }

  /** Sarah Weber is free on Montag at 09:00 and busy at 11:00. */
  lemma SarahMondaySlots()
    ensures IsAvailable(SarahWeber, "Montag", "09:00")
    ensures !IsAvailable(SarahWeber, "Montag", "11:00")
  {
    var slots := SlotsOn(SarahWeber, "Montag");
    assert slots[0].time == "09:00" && slots[0].available;
    forall i | 0 <= i < |slots| && slots[i].time == "11:00" ensures !slots[i].available {
      assert i == 2;
    }
  }

  // ---------------------------------------------------------------------------
  // Products

  const CurlingCream := Product("cantu-curling-cream-1", "Cantu Curling Cream", 1490, "Styling", "Cantu", true)
  const MoisturizingCream := Product("cantu-moisturizing-cream-1", "Cantu Moisturizing Cream", 1690, "Styling", "Cantu", true)
  const TwistLockGel := Product("cantu-twist-lock-gel-1", "Cantu Twist & Lock Gel", 1290, "Styling", "Cantu", true)

  const Products: seq<Product> := [CurlingCream, MoisturizingCream, TwistLockGel]

  /** No two catalog products and no two employees share an id. */
  lemma IdsDistinct()
    ensures forall i, j :: 0 <= i < j < |Products| ==> Products[i].id != Products[j].id
    ensures forall i, j :: 0 <= i < j < |Employees| ==> Employees[i].id != Employees[j].id
  {
    assert CurlingCream.id[6] == 'c' && MoisturizingCream.id[6] == 'm' && TwistLockGel.id[6] == 't';
  }
}
