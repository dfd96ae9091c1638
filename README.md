# Salon booking core — a Dafny model

This project models the booking core of a hair-salon web shop. A customer
chooses a package, a stylist, a day and a time. They can add retail products
to a cart. They submit a details form, which turns the selection into a
pending booking and schedules an e-mail reminder for the day before. They
then pay by card, TWINT or cash. Products can also be bought through a
separate cart checkout, which has its own coupon and reminder.

The modules follow the program:

- `Catalog` holds the entities and the fixture the flow runs on: three
  services, three packages, two stylists with a weekly availability template,
  and three products. Prices are integer Rappen.
- `BookingContext` holds the session state, its nine actions and the reducer
  `Step`. This part of the source is pure. `Store` is the object components
  dispatch to.
- `Reminders` holds the reminder value handed to the scheduler. `Outbox`
  records every hand-off in order.
- `Confirmation` models the confirmation page: the live total, the details
  form, the booking snapshot, the reminder, and the reset after payment.
- `Cart` models the shopping cart: subtotal, the `WELCOME10` coupon, and the
  product checkout.
- `Payment` models the payment form: the three input formatters, the card
  validation, and the submit gate in front of the completion callback.
- `Recommendations` models the first three catalog products and the
  add-to-cart lookup by id.

Imperative handlers are classes over the shared `Store` and `Outbox`. Each
method's postcondition ties the new state to the pure functions. The lemmas
state what the source promises about those functions.

Points where the model records what the code does, not what a reader might
expect of a booking system:

- Selecting a time the template marks as taken is accepted and stored:
  `SELECT_TIME` checks nothing (`BookingContext.UnavailableSlotStillSelected`).
- "Paket Gold" alone costs 200 CHF, the sum of its two services, not its
  listed price of 180: the total sums service prices
  (`Confirmation.GoldTotalIsServiceSum`, `Confirmation.GoldScenario`).
- No payment failure is ever recorded: the payment form only reports
  success, which resets the selection (`Confirmation.ConfirmationView.Valid`).
- The booking history is a plain append-only list, with no check against
  existing bookings for the same stylist and slot.

## Model

| member | source | states |
|---|---|---|
| `Catalog.ServicesTotal` | src/components/BookingConfirmation.tsx:30 | The sum of a package's service prices; no single service costs more than the sum. |
| `Catalog.ProductsTotal` | src/components/ShoppingCart.tsx:38 | The sum of the cart's product prices; no single line costs more than the sum. |
| `Catalog.ProductsTotalAppend` | src/components/BookingConfirmation.tsx:30-31 | The product sum of two carts joined is the sum of their product sums. |
| `Catalog.PackagePriceAtMostServices` | src/data/mockData.ts:30-55 | Every package's price is at most the sum of its services' prices: Platinum 260 = 260, Gold 180 < 200, Silver 80 = 80. |
| `Catalog.SlotsOn` | src/data/mockData.ts:65-101 | A weekday with no entry in the template offers no slots. |
| `Catalog.IsAvailable` | src/data/mockData.ts:65-146 | A time is free on a weekday when that day's slot with this label is marked available. Only a weekday with an entry can have a free time. |
| `Catalog.SlotTimesChronological` | src/data/mockData.ts:66-72 | The five slot labels 09:00, 10:00, 11:00, 14:00, 15:00 are well formed and strictly ascending. |
| `Catalog.AvailabilityTemplateUniform` | src/data/mockData.ts:65-146 | Both stylists define exactly Montag to Freitag. Each of those days lists exactly the five labels, in ascending order. |
| `Catalog.NoWeekendSlots` | src/data/mockData.ts:65-101 | For either stylist, Samstag and Sonntag have no entry, so no time is bookable on them. |
| `Catalog.SarahMondaySlots` | src/data/mockData.ts:67-69 | Sarah Weber is free on Montag at 09:00 and busy at 11:00. |
| `Catalog.IdsDistinct` | src/data/mockData.ts:57-181 | Product ids are pairwise distinct, and so are employee ids. |
| `BookingContext.WithoutId` | src/contexts/BookingContext.tsx:56-60 | The filtered cart keeps exactly the lines whose id differs, and is no longer than before. |
| `BookingContext.Step` | src/contexts/BookingContext.tsx:38-80 | No action shrinks or rewrites the booking history: the old history is a prefix of the new one. |
| `BookingContext.Run` | src/contexts/BookingContext.tsx:82-90 | The state after dispatching a sequence of actions in order, one reducer step each. |
| `BookingContext.RunCons` | src/contexts/BookingContext.tsx:82-90 | Dispatching a sequence is dispatching its first action, then the rest. |
| `BookingContext.SelectPackageFrame` | src/contexts/BookingContext.tsx:40-44 | SELECT_PACKAGE sets the package and changes no other field. |
| `BookingContext.SelectEmployeeAndDateFrame` | src/contexts/BookingContext.tsx:45-48 | SELECT_EMPLOYEE and SELECT_DATE each set their own field and nothing else. |
| `BookingContext.SelectTimeStoresPayload` | src/contexts/BookingContext.tsx:49-50 | SELECT_TIME stores its payload exactly, with null clearing the time, and changes no other field. |
| `BookingContext.UnavailableSlotStillSelected` | src/contexts/BookingContext.tsx:49-50 | Sarah Weber's Montag 11:00 is marked taken in the template. Selecting it is still accepted and stored. |
| `BookingContext.AddProductAppends` | src/contexts/BookingContext.tsx:51-55 | ADD_PRODUCT appends one line at the end, with no deduplication. The length grows by one and nothing else changes. |
| `BookingContext.RemoveProductContents` | src/contexts/BookingContext.tsx:56-60 | REMOVE_PRODUCT leaves no line with the id. Every other line keeps its count. No other field changes. |
| `BookingContext.WithoutIdCounts` | src/contexts/BookingContext.tsx:56-60 | The filter drops every copy of a line with the id and keeps every other line's multiplicity. |
| `BookingContext.WithoutIdConcat` | src/contexts/BookingContext.tsx:56-60 | The filter distributes over concatenation, so the kept lines keep their original order. |
| `BookingContext.WithoutIdAbsent` | src/contexts/BookingContext.tsx:56-60 | A cart with no line of that id is returned unchanged. |
| `BookingContext.RemoveProductIdempotent` | src/contexts/BookingContext.tsx:56-60 | Removing an id twice is the same as removing it once. |
| `BookingContext.AddTwiceThenRemove` | src/contexts/BookingContext.tsx:51-60 | Adding a product twice and then removing its id leaves no line with that id, and the earlier lines are filtered as a single removal would. |
| `BookingContext.AddBookingAppends` | src/contexts/BookingContext.tsx:61-65 | ADD_BOOKING appends the booking. Selection and cart are untouched. |
| `BookingContext.ResetBookingKeepsCartAndHistory` | src/contexts/BookingContext.tsx:66-71 | RESET_BOOKING clears package, stylist, date and time, and keeps the cart and the history exactly. |
| `BookingContext.ClearCartFrame` | src/contexts/BookingContext.tsx:72-76 | CLEAR_CART empties the cart and changes nothing else. |
| `BookingContext.RunKeepsHistoryPrefix` | src/contexts/BookingContext.tsx:38-80 | After any sequence of actions, the earlier history is a prefix of the later one. |
| `BookingContext.BookingSnapshotFrozen` | src/contexts/BookingContext.tsx:61-65 | Once a booking is added, no later action changes the record at its position. |
| `BookingContext.Store.constructor` | src/contexts/BookingContext.tsx:24-31 | The store starts in the initial state: nothing selected, empty cart, no bookings. |
| `BookingContext.Store.Dispatch` | src/contexts/BookingContext.tsx:82-90 | Dispatching replaces the state with the reducer's result for that action. |
| `Reminders.ReminderBefore` | src/components/BookingConfirmation.tsx:67-77 | An e-mail reminder to the given recipient, about the given subject, due exactly one day before the appointment. |
| `Reminders.Outbox.Schedule` | src/components/BookingConfirmation.tsx:67-77 | A hand-off is appended to the log, after all earlier ones. |
| `Confirmation.PackageServicesTotal` | src/components/BookingConfirmation.tsx:30 | The selected package's service prices summed, or 0 without a package. |
| `Confirmation.TotalPrice` | src/components/BookingConfirmation.tsx:30-31 | The live total: the package's service prices plus the cart's product prices. It is at least the product sum, and at least each service and each line. |
| `Confirmation.TotalWithoutPackage` | src/components/BookingConfirmation.tsx:30-31 | With no package selected, the total is the product sum alone. |
| `Confirmation.GoldTotalIsServiceSum` | src/components/BookingConfirmation.tsx:30-31 | "Paket Gold" alone comes to 20000 Rappen, the sum of its services, although it is listed at 18000. |
| `Confirmation.TotalAfterAddProduct` | src/components/BookingConfirmation.tsx:30-31 | Adding a product raises the total by exactly its price. |
| `Confirmation.TotalAfterRemoveProduct` | src/components/BookingConfirmation.tsx:30-31 | Removing products by id never raises the total. |
| `Confirmation.ProductsTotalWithoutId` | src/contexts/BookingContext.tsx:56-60 | Filtering by id never raises the product sum. |
| `Confirmation.TotalIgnoresSlotAndHistory` | src/components/BookingConfirmation.tsx:30-31 | Choosing a stylist, date or time, or adding a booking, leaves the total unchanged. |
| `Confirmation.Snapshot` | src/components/BookingConfirmation.tsx:44-60 | The booking record built from the selection and the form, field for field; `Confirmation.Materialize` states what each field holds. |
| `Confirmation.Materialize` | src/components/BookingConfirmation.tsx:33-63 | An empty e-mail is rejected first, then unaccepted terms. The form is accepted exactly when both pass. An accepted form yields a pending booking: id from the clock, customer name from the form, priced at the live total, payment pending, e-mail reminder on, SMS reminder iff a phone is given, marketing consent and cart copied. Package id and name, employee id, date and time are the selected ones, each an empty field when not chosen. |
| `Confirmation.MissingChoicesBecomeEmpty` | src/components/BookingConfirmation.tsx:45-60 | A missing package, stylist, date or time never rejects the form. Each becomes an empty field on its own, whatever the other choices are. |
| `Confirmation.BookingReminder` | src/components/BookingConfirmation.tsx:67-77 | A reminder exists iff a date is selected. It is due the day before, goes to the form's e-mail, and is about the new booking. |
| `Confirmation.GoldScenario` | src/components/BookingConfirmation.tsx:30-63 | Paket Gold with Sarah Weber, Montag 09:00 (free), e-mail given, terms accepted, no phone: a pending booking at 20000 Rappen, e-mail reminder, no SMS. |
| `Confirmation.View` | src/components/BookingConfirmation.tsx:87-113 | The details form and the payment step are shown iff a package is selected. The payment step shows the live total. |
| `Confirmation.PaymentAmountMatchesBooking` | src/components/BookingConfirmation.tsx:217-220 | After a successful submit, the payment step asks for exactly the price frozen into the new booking. |
| `Confirmation.AddThenReset` | src/components/BookingConfirmation.tsx:62-85 | Adding a booking and then resetting leaves the initial selection, the same cart, and the history plus that booking. |
| `Confirmation.SubmitThenPay` | src/components/BookingConfirmation.tsx:62-85 | Submit followed by payment: the history gains exactly the new booking, the cart survives, the selection is cleared, and the thank-you notice shows. |
| `Confirmation.ConfirmationView.constructor` | src/components/BookingConfirmation.tsx:20-28 | The page starts with the details form, no payment outcome, and an empty form. |
| `Confirmation.ConfirmationView.Screen` | src/components/BookingConfirmation.tsx:87-221 | The screen the page renders for its current state, as given by `Confirmation.View`. |
| `Confirmation.ConfirmationView.Submit` | src/components/BookingConfirmation.tsx:33-78 | A rejected form changes nothing. An accepted one dispatches ADD_BOOKING with the materialised booking, opens the payment step, and hands over the reminder iff a date is selected. With a package selected, the page then shows the payment step for the booking's price. |
| `Confirmation.ConfirmationView.OpenPaymentForm` | src/components/BookingConfirmation.tsx:217-220 | The payment step renders a fresh payment form whose total is the live total, starting on card with empty details. |
| `Confirmation.ConfirmationView.PaymentComplete` | src/components/BookingConfirmation.tsx:80-85 | Completion records success and dispatches RESET_BOOKING. |
| `Confirmation.ConfirmationView.Pay` | src/components/BookingConfirmation.tsx:217-220 | Completion runs exactly when the payment form hands over a call; when it does not, the page's own flags are unchanged. Invalid card details leave the form untouched. Valid ones leave the form no longer processing, with its method and details kept. Without a call the store is unchanged. |
| `Cart.Discount` | src/components/ShoppingCart.tsx:39 | The discount is the subtotal times the applied rate. |
| `Cart.CartTotal` | src/components/ShoppingCart.tsx:40 | The amount due is the subtotal less the discount. |
| `Cart.TotalWithinSubtotal` | src/components/ShoppingCart.tsx:38-40 | For a rate in [0, 1], the discount and the total both lie between 0 and the subtotal. |
| `Cart.SubtotalExcludesServices` | src/components/ShoppingCart.tsx:38-40 | The cart subtotal is the confirmation total less the package's services. Choosing a package does not change what the cart charges. |
| `Cart.UpperCase` | src/components/ShoppingCart.tsx:46-49 | Upper-casing keeps the length and maps each character independently. |
| `Cart.CouponMatches` | src/components/ShoppingCart.tsx:47 | A code matches when its upper-cased form is WELCOME10. |
| `Cart.RateAfterCoupon` | src/components/ShoppingCart.tsx:46-53 | A matching code sets the rate to 10%; any other code leaves the rate already applied. |
| `Cart.CouponCaseInsensitive` | src/components/ShoppingCart.tsx:46-49 | A code matches iff it spells WELCOME10 with each letter in either case. |
| `Cart.CouponExamples` | src/components/ShoppingCart.tsx:46-49 | "welcome10" and "Welcome10" match; "WELCOME1" does not. |
| `Cart.CouponIdempotent` | src/components/ShoppingCart.tsx:46-53 | Applying a code twice equals applying it once. A non-matching code keeps the earlier rate. Rates stay in [0, 1]. |
| `Cart.CheckoutComplete` | src/components/ShoppingCart.tsx:56-59 | Checkout needs a non-empty name, e-mail and phone. |
| `Cart.OrderReminder` | src/components/ShoppingCart.tsx:62-78 | A reminder exists iff a date is selected. It is due the day before, goes to the form's e-mail, and is about the order as it stands. |
| `Cart.CheckoutOnlyClearsCart` | src/components/ShoppingCart.tsx:55-83 | Checkout's CLEAR_CART adds no booking and leaves package, stylist, date and time alone. The reminder keeps the purchased lines. |
| `Cart.ShoppingCartView.constructor` | src/components/ShoppingCart.tsx:29-36 | The cart starts closed, with no coupon, rate 0 and an empty form. |
| `Cart.ShoppingCartView.Subtotal` | src/components/ShoppingCart.tsx:38 | The product sum of the cart in the store. |
| `Cart.ShoppingCartView.Total` | src/components/ShoppingCart.tsx:40 | The subtotal less the discount at the applied rate. |
| `Cart.ShoppingCartView.ValidTotalBounded` | src/components/ShoppingCart.tsx:38-40 | With the rates the component can hold, the total lies between 0 and the subtotal. |
| `Cart.ShoppingCartView.RemoveLine` | src/components/ShoppingCart.tsx:42-44 | Removing a line dispatches REMOVE_PRODUCT for its id. |
| `Cart.ShoppingCartView.ApplyCoupon` | src/components/ShoppingCart.tsx:46-53 | The rate becomes 10% for a matching code and otherwise stays what it was. The rate is always 0 or 10%. |
| `Cart.ShoppingCartView.Checkout` | src/components/ShoppingCart.tsx:55-83 | An empty name, e-mail or phone rejects with no change. Otherwise the reminder is handed over iff a date is selected, the cart is cleared, and the checkout closes. |
| `Payment.DigitsOnly` | src/components/PaymentForm.tsx:146 | Stripping non-digits yields only digits, never a longer string, and leaves a digit string as it is. |
| `Payment.DigitsOnlyConcat` | src/components/PaymentForm.tsx:146 | Stripping non-digits works piecewise over concatenation, so the digits keep their order. |
| `Payment.DigitsOnlyCounts` | src/components/PaymentForm.tsx:146 | Each digit of the input is kept as often as it occurs; no other character is kept. |
| `Payment.StripWhitespace` | src/components/PaymentForm.tsx:29 | Stripping white space leaves none, and never a longer string. |
| `Payment.LeadingWhitespace` | src/components/PaymentForm.tsx:146 | The length of the leading run of white space: everything before it is white space, the character after it is not. |
| `Payment.TrimStart` | src/components/PaymentForm.tsx:146 | The input from the end of its leading white space on; it does not start with white space. |
| `Payment.TrailingWhitespace` | src/components/PaymentForm.tsx:146 | Where the trailing run of white space begins: everything from there is white space, the character before it is not. |
| `Payment.TrimEnd` | src/components/PaymentForm.tsx:146 | A prefix of the input, up to its trailing white space; it does not end with white space. |
| `Payment.Trim` | src/components/PaymentForm.tsx:146 | `trim()`: the result neither starts nor ends with white space and is no longer than the input. |
| `Payment.SpaceAfterFours` | src/components/PaymentForm.tsx:146 | The global replace putting a space after each run of four digits, scanning left to right; `Payment.SpaceAfterFoursOfDigits` states its result on digits. |
| `Payment.Prefix` | src/components/PaymentForm.tsx:164 | slice(0, n) is a prefix of the input of length min(n, length of the input). |
| `Payment.FormatCardNumber` | src/components/PaymentForm.tsx:146 | The card-number formatter; its output neither starts nor ends with white space (its full shape is `Payment.CardNumberFormatShape`). |
| `Payment.FormatExpiry` | src/components/PaymentForm.tsx:161-164 | The expiry formatter; its output has at most five characters (its full shape is `Payment.ExpiryFormatShape`). |
| `Payment.FormatCvv` | src/components/PaymentForm.tsx:177 | The CVV formatter; its output is at most four digits, a prefix of the digits typed. |
| `Payment.CardNumberValid` | src/components/PaymentForm.tsx:29 | The card number has exactly 16 characters once white space is removed. |
| `Payment.ExpiryValid` | src/components/PaymentForm.tsx:30 | The expiry is MM/YY with MM from 01 to 12 and any two-digit year. |
| `Payment.CvvValid` | src/components/PaymentForm.tsx:31 | The CVV is three or four digits. |
| `Payment.NameValid` | src/components/PaymentForm.tsx:32 | The name is longer than three characters. |
| `Payment.ValidateCardDetails` | src/components/PaymentForm.tsx:26-35 | A non-card method always passes; a card passes iff all four field checks pass. |
| `Payment.SubmitCall` | src/components/PaymentForm.tsx:37-66 | The callback is called iff validation passes and a TWINT payment is confirmed. It receives the chosen method, with the details iff the method is card. |
| `Payment.NonCardAlwaysValid` | src/components/PaymentForm.tsx:26-28 | TWINT and cash always validate, and cash always reaches the callback. |
| `Payment.ExpiryAcceptsAnyYear` | src/components/PaymentForm.tsx:30 | Any valid month with any two-digit year passes. Month 13 and month 00 do not. |
| `Payment.StripWhitespaceConcat` | src/components/PaymentForm.tsx:29 | Stripping white space distributes over concatenation. |
| `Payment.StripWhitespaceOfDigits` | src/components/PaymentForm.tsx:29 | A digit string has no white space to strip. |
| `Payment.Grouped` | src/components/PaymentForm.tsx:146 | The reference layout of a card number: digits in groups of four separated by single spaces, against which the formatter is proved. |
| `Payment.SpaceAfterFoursShort` | src/components/PaymentForm.tsx:146 | The grouping replace leaves strings shorter than four characters unchanged. |
| `Payment.SpaceAfterFoursOfDigits` | src/components/PaymentForm.tsx:146 | On digits, the global replace gives the four-digit groups, plus one trailing space when the count is a positive multiple of four. |
| `Payment.GroupedEnds` | src/components/PaymentForm.tsx:146 | Grouped digits start and end with a digit. |
| `Payment.TrimEndDropsSpace` | src/components/PaymentForm.tsx:146 | Trimming removes the one trailing space the replace adds. |
| `Payment.CardNumberFormatGroups` | src/components/PaymentForm.tsx:146 | The card-number formatter's output is exactly the typed digits in groups of four, separated by single spaces. |
| `Payment.GroupedStrip` | src/components/PaymentForm.tsx:146 | Removing the separators from the groups gives back the digits. |
| `Payment.GroupedLength` | src/components/PaymentForm.tsx:146 | The grouped form has one separator between each pair of consecutive groups. |
| `Payment.GroupedLayout` | src/components/PaymentForm.tsx:146 | A position holds a space iff it is 4 modulo 5. Every other position holds the input digit with that many separators before it. |
| `Payment.CardNumberFormatShape` | src/components/PaymentForm.tsx:146 | The card field holds only digits and single spaces, a space at exactly every fifth position, no leading or trailing space. Removing the spaces gives the typed digits. |
| `Payment.CardNumberSixteenDigits` | src/components/PaymentForm.tsx:29 | A formatted number passes the length check iff 16 digits were typed. Sixteen digits format to 19 characters. |
| `Payment.ExpiryFormatSlashed` | src/components/PaymentForm.tsx:161-164 | Once two digits are typed, the expiry field is those two digits, a slash, and the next up to two digits. |
| `Payment.ExpiryFormatShape` | src/components/PaymentForm.tsx:161-164 | The expiry field holds at most five characters: digits, plus one slash exactly at index 2 once two digits were typed. Without the slash it holds the first four typed digits. |
| `Payment.ExpiryFormatValid` | src/components/PaymentForm.tsx:30 | A formatted expiry passes iff at least four digits were typed and the first two form a month 01 to 12. |
| `Payment.CvvFormatShape` | src/components/PaymentForm.tsx:177 | The CVV field holds at most four digits, a prefix of those typed. It passes iff at least three were typed. |
| `Payment.FormattedCardValid` | src/components/PaymentForm.tsx:26-35 | Details entered through the formatters pass the card check iff all hold: 16 card digits, four expiry digits with a valid month, at least three CVV digits, and a name longer than three characters. |
| `Payment.PaymentFormView.constructor` | src/components/PaymentForm.tsx:16-24 | The form starts on card, not processing, with empty details. |
| `Payment.PaymentFormView.ChooseMethod` | src/components/PaymentForm.tsx:79 | Choosing a method changes only the method. |
| `Payment.PaymentFormView.EnterName` | src/components/PaymentForm.tsx:135 | The name is stored as typed, and nothing else changes. |
| `Payment.PaymentFormView.EnterCardNumber` | src/components/PaymentForm.tsx:146 | The card field holds the formatter's output, and nothing else changes. |
| `Payment.PaymentFormView.EnterExpiry` | src/components/PaymentForm.tsx:161-164 | The expiry field holds the formatter's output, and nothing else changes. |
| `Payment.PaymentFormView.EnterCvv` | src/components/PaymentForm.tsx:177 | The CVV field holds the formatter's output, and nothing else changes. |
| `Payment.PaymentFormView.Submit` | src/components/PaymentForm.tsx:37-66 | Invalid details change nothing and call nothing. Valid ones raise the processing flag once and always lower it again. The callback's arguments are those of `SubmitCall`. |
| `Recommendations.FindById` | src/components/ProductRecommendations.tsx:10-11 | The lookup finds nothing iff no product has the id. Otherwise it returns the first product with that id. |
| `Recommendations.AddToCartAction` | src/components/ProductRecommendations.tsx:10-16 | An unknown id yields no action. A catalog id yields one ADD_PRODUCT carrying a catalog record with that id. |
| `Recommendations.AddToCartFindsCatalogRecord` | src/components/ProductRecommendations.tsx:10-16 | Because ids are distinct, each catalog id adds exactly its own record. |
| `Recommendations.Recommended` | src/components/ProductRecommendations.tsx:19 | The recommended list is the first min(3, n) catalog entries, in catalog order. |
| `Recommendations.AllFixtureProductsRecommended` | src/components/ProductRecommendations.tsx:19 | With the three-product fixture, every product is recommended. |
| `Recommendations.AddSameIdTwice` | src/components/ProductRecommendations.tsx:10-16 | Adding the same catalog product twice gives two identical cart lines. |
| `Recommendations.RecommendationsView.constructor` | src/components/ProductRecommendations.tsx:8 | The view works on the session's store. |
| `Recommendations.RecommendationsView.AddToCart` | src/components/ProductRecommendations.tsx:10-16 | The store changes iff the id is in the catalog. Then a single ADD_PRODUCT with the catalog record is dispatched. |

## Left out

- Toast messages, `console.log` and `localStorage.removeItem` are not modelled. They are display or browser-storage side effects with no effect on the modelled state.
- The scheduler transport behind `scheduleReminder` is not modelled. The model records the reminder value handed to it in `Outbox`.
- The simulated payment delay (`setTimeout`) and the asynchronous await are not modelled. The TWINT `window.confirm` answer is a parameter of `Payment.PaymentFormView.Submit`.
- `Date.now()` is not modelled. The booking id is a `now` parameter.
- Calendar dates are not modelled. Dates are abstract day numbers, so "the day before" is `d - 1`. The date-fns formatted string in a booking is `DateField` (`NoDate` for the empty string).
- Prices use integer Rappen and a `real` discount. JavaScript floating-point rounding of CHF amounts is not modelled.
- `Cart.UpperCase`: `toUpperCase` is modelled for ASCII letters only. Other letters are left as they are, which does not change whether a code equals `WELCOME10` except for exotic letters that upper-case to ASCII.
- `Payment.NameValid` counts characters (code points), whereas JavaScript's `length` counts UTF-16 units. They differ only outside the Basic Multilingual Plane.
- `Confirmation.ConfirmationView.OpenPaymentForm`: the payment form's displayed total is fixed when the form opens. In the page, `total={totalPrice}` is recomputed on every render, so removing a cart line from the header cart while the payment step shows changes the figure on screen; the model's `Confirmation.View` keeps that live total, but `Payment.PaymentFormView.total` does not follow it.
- `Confirmation.ConfirmationView.Submit`: the browser's own checks on the details form are not modelled: the `required` name, the `required` e-mail of `type="email"` and the `required` terms box. In the page, the browser stops an empty name or a malformed e-mail before the submit handler runs; the model accepts any name, including the empty one, and any non-empty e-mail, as the handler itself does.
- The `maxLength` attributes on the inputs are not modelled. They are enforced by the browser before the handlers see the text.
- Form setters for the confirmation and checkout forms are not modelled as methods. They are plain field assignments, and the forms are public fields of the view classes.
- The cart's checkout-panel toggle is not modelled as a method. It only flips `showCheckout`.
- Rendering beyond which screen is shown (`Confirmation.View`) is not modelled.
- The reducer's `default` branch is not modelled. The action type is closed, so it is unreachable.
- Catalog descriptions, images and salon information strings are not modelled. No operation reads them.
- `src/lib/api.ts`, `src/lib/hooks/useApi.ts` and `src/lib/hooks/useMetricsComparison.ts` are not part of this model. They are HTTP, async loading state and floating-point metrics.
- Reviews, maps, layout, routing, business info, carousel and error-message components are not part of this model. They are fetching, third-party embeds or markup only.
