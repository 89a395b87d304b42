# FrontDash ordering and checkout rules in Dafny

FrontDash is a food-ordering application. It has a React front end (customer checkout, restaurant menu, administrator and staff dashboards) and a Spring back end (order creation, login). This project models the decision and state-update rules of those parts and proves properties of them.

- **Checkout page** (`PaymentPage`):
  - the cart subtotal, the 8.25 % service charge, the typed tip and the grand total;
  - the tip presets and the one-cent tolerance that decides which preset is highlighted;
  - the opening-hours gate on minutes since midnight;
  - the payment-card gate: 16 digits, a 3-digit security code, the expiry month and year;
  - the delivery gate and the confirmation's address line;
  - the order request the page posts;
  - the unused Luhn routine, written as the imperative loop of the source;
  - the page state the handlers change, as a `CheckoutSession` object.
- **Order creation on the server** (`OrderService`):
  - `createOrder` as a method over a `Repository` object that holds each restaurant's menu prices, the two auto-increment counters and the log of rows written;
  - the price loop and the order-line loop with their invariants;
  - `roundCurrency` as HALF_UP rounding to cents (`Money`).
- **Request validation** (`OrderRequest`): the constraints declared on `CreateOrderRequest` and its nested classes, written as predicates. Only the top-level ones are enforced, because the nested fields carry no `@Valid`.
- **Authentication** (`Auth`):
  - the staff and restaurant login decision tables;
  - `changePassword` over two user stores held by an `AuthStore` object.
- **Administrator dashboard** (`AdminDashboard`):
  - `formatTime`;
  - the merge of incoming registrations, and approve/reject;
  - staff and driver add-validation with case-insensitive uniqueness, and the appends;
  - the status toggles.

  The page state is a `Dashboard` object.
- **Staff dashboard** (`StaffDashboard`):
  - the pending/assigned filters and `statusClass`;
  - the password-strength rule;
  - the per-order updates on assign and deliver;
  - the available-driver count.

  The page state is a `Desk` object.
- **Menu page** (`RestaurantDetail`): the menu-row mapping, and the quantity counter changed in place by `updateQuantity` and `addItemToCart` on a `MenuPage` object.
- **End to end** (`EndToEnd`): the subtotal the page shows equals the subtotal the server computes for the posted request, whenever the cart's prices are the menu's.

Modelling choices:

- **Money.** Amounts are exact `real`s. Rounding is HALF_UP on the magnitude. That is both `BigDecimal.setScale(2, HALF_UP)` and JavaScript's `toFixed(2)` on exact values.
- **JavaScript semantics.** These are written out as functions: `Number(...)` on digit strings, `parseFloat`, `split(':')[k]`, `replace(/\D/g, "")`, `trim()` with the white space and line terminators of the ECMAScript standard, `length` in UTF-16 code units, and lower-casing of ASCII letters. A NaN is an `Option` that is `None`, and every comparison with it is false.
- **Environment as parameters.** The clock, the weekday name, the random draw, the stored procedure's answer and each server call's success are parameters.

Behaviour of the code worth knowing:

- **Delivery check order.** The delivery gate checks the phone before the empty cart (`src/components/PaymentPage.tsx:175-182`).
- **Empty fields only.** The delivery gate rejects empty address fields; a field of spaces passes.
- **Negative tips.** A typed tip is used as `parseFloat` reads it, so a negative tip lowers the grand total (`src/components/PaymentPage.tsx:28-29`).
- **Closing minute.** The opening-hours check accepts the closing minute itself.
- **Stale closed banner.** The closed check is recomputed only when the opening hours change (`src/components/PaymentPage.tsx:107-126`); it reads the clock at that moment. A page opened before closing time keeps accepting payment after closing, and one opened before opening time keeps refusing it.

## Model

| member | source | states |
|---|---|---|
| Common.NatToString | src/components/PaymentPage.tsx:210 | `String(n)` of a natural number is a non-empty digit string that reads back as `n` |
| Common.StripNonDigits | src/components/PaymentPage.tsx:140 | removing the non-digits leaves only digits, never lengthens the text, and leaves a digit string unchanged |
| Common.StripNonDigitsKeepsDigits | src/components/PaymentPage.tsx:140 | every digit of the text is kept, as many times as it occurs |
| Common.StripNonDigitsAppend | src/components/PaymentPage.tsx:140 | stripping a concatenation strips each part, so the digits keep their order |
| Common.JsLength | src/components/AdminDashboard.tsx:174 | `length` counts between one and two code units per character, exactly one each when all lie in the Basic Multilingual Plane |
| Common.JsLengthOfChar | src/components/AdminDashboard.tsx:174 | one character counts one code unit inside the Basic Multilingual Plane and two outside it |
| Common.JsLengthAppend | src/components/AdminDashboard.tsx:174 | the length of a concatenation is the sum of the lengths, so each character counts its own code units |
| Common.JsLengthOfEmoji | src/components/AdminDashboard.tsx:174 | a single emoji has length 2 |
| Common.Trim | src/components/AdminDashboard.tsx:166-167 | the trimmed text neither starts nor ends with white space |
| Common.TrimDropsOnlySpace | src/components/AdminDashboard.tsx:166-167 | the text is the trimmed text with only white space before and after it |
| Common.TrimIdempotent | src/components/AdminDashboard.tsx:179 | trimming an already trimmed name changes nothing |
| Common.ToLower | src/components/AdminDashboard.tsx:182 | lower-casing keeps the length and maps each character on its own |
| Common.Field | src/components/PaymentPage.tsx:116-117 | `split(sep)[0]` is the text before the first separator; a later field exists only when the text has a separator; no field contains the separator |
| Common.FieldJoin | src/components/PaymentPage.tsx:116-117 | past a separator-free head, field k+1 of the whole is field k of the rest |
| Common.JsNumberOfDigits | src/components/PaymentPage.tsx:116-117 | `Number` of a non-empty digit string is its decimal value |
| Common.ParseDecimalPrefix | src/components/PaymentPage.tsx:28 | the unsigned number `parseFloat` reads is never negative |
| Money.HalfUpCents | backend/src/main/java/com/frontdash/backend/service/FrontdashService.java:157-159 | the cent count is within half a cent of the amount and keeps its sign; a non-negative amount exactly half-way rounds up and a non-positive one rounds down, so ties go away from zero |
| Money.Round2 | backend/src/main/java/com/frontdash/backend/service/FrontdashService.java:157-159 | `roundCurrency` moves an amount by at most half a cent |
| Money.Round2TieDirection | backend/src/main/java/com/frontdash/backend/service/FrontdashService.java:158 | a non-negative amount never loses a full half cent and a non-positive one never gains it, so a half cent moves away from zero |
| Money.Round2OfCents | backend/src/main/java/com/frontdash/backend/service/FrontdashService.java:157-159 | a whole number of cents is left as it is |
| Money.Round2Idempotent | backend/src/main/java/com/frontdash/backend/service/FrontdashService.java:157-159 | rounding twice is rounding once |
| Money.HalfUpCentsMonotone | backend/src/main/java/com/frontdash/backend/service/FrontdashService.java:157-159 | a larger amount never rounds to fewer cents |
| Money.HalfUpCentsNegate | backend/src/main/java/com/frontdash/backend/service/FrontdashService.java:158 | HALF_UP is symmetric about zero |
| Money.Round2Ties | backend/src/main/java/com/frontdash/backend/service/FrontdashService.java:158 | a half cent rounds away from zero (0.125 to 0.13, -0.125 to -0.13), below it down |
| Money.ToFixed2 | src/components/PaymentPage.tsx:79 | `toFixed(2)` text has at least four characters (`d.dd`) |
| Money.ParseCentsString | src/components/PaymentPage.tsx:79-87 | the unsigned text `units.hh` reads back as the cent count over one hundred |
| Money.ParseMinusCents | src/components/PaymentPage.tsx:79-87 | a minus sign before that text reads back as the negated amount |
| Money.ParseToFixed2 | src/components/PaymentPage.tsx:79-87 | `parseFloat(x.toFixed(2))` is `x` rounded to cents, for every amount |
| Money.Round2ByMagnitude | src/components/PaymentPage.tsx:79 | rounding a negative amount rounds its magnitude and restores the sign |
| OrderRequest.ValidPhoneIsTenDigits | backend/src/main/java/com/frontdash/backend/dto/CreateOrderRequest.java:61-63 | `@NotBlank` with the pattern holds exactly for exactly ten decimal digits |
| OrderRequest.TopLevelDoesNotCascade | backend/src/main/java/com/frontdash/backend/dto/CreateOrderRequest.java:14-18 | a request with quantity 0, a null item id and a blank city passes the enforced validation but not the declared nested constraints |
| OrderService.Repository.constructor | backend/src/main/java/com/frontdash/backend/service/FrontdashService.java:23-25 | a repository starts with the given menus, an empty log and both counters at 0 |
| OrderService.Repository.CreateOrderWithTotals | backend/src/main/java/com/frontdash/backend/service/FrontdashService.java:98 | the order number is the next one, and exactly one "In Progress" order row is appended |
| OrderService.Repository.AddOrderItem | backend/src/main/java/com/frontdash/backend/service/FrontdashService.java:102 | exactly one order line is appended |
| OrderService.Repository.CreateAddress | backend/src/main/java/com/frontdash/backend/service/FrontdashService.java:106-112 | the address id is the next one, and exactly one address row is appended |
| OrderService.Repository.SetOrderDeliveryAddress | backend/src/main/java/com/frontdash/backend/service/FrontdashService.java:113 | exactly one delivery link is appended |
| OrderService.ItemIds | backend/src/main/java/com/frontdash/backend/service/FrontdashService.java:80-82 | the id list has one entry per request item, in order |
| OrderService.MenuRowsFor | backend/src/main/java/com/frontdash/backend/service/FrontdashService.java:83 | the lookup returns exactly the requested non-null ids on the menu, each with its menu price |
| OrderService.SetOfCard | backend/src/main/java/com/frontdash/backend/service/FrontdashService.java:84 | a list has as many distinct values as entries exactly when no value repeats |
| OrderService.ItemsResolveIff | backend/src/main/java/com/frontdash/backend/service/FrontdashService.java:83-86 | the size check passes exactly when every id is non-null and on the menu, and no id repeats |
| OrderService.ResolvedItemsFound | backend/src/main/java/com/frontdash/backend/service/FrontdashService.java:84-92 | after the check passes, every request line has a price and the ids are distinct |
| OrderService.OrderSubtotalNonNegative | backend/src/main/java/com/frontdash/backend/service/FrontdashService.java:88-96 | non-negative prices and quantities give a non-negative subtotal |
| OrderService.OrderSubtotalPositive | backend/src/main/java/com/frontdash/backend/service/FrontdashService.java:88-96 | a non-empty order of valid lines at positive prices has a positive subtotal |
| OrderService.PriceItems | backend/src/main/java/com/frontdash/backend/service/FrontdashService.java:88-96 | the loop's subtotal is the sum of price times quantity over the request, and each id's stored line amount is that line's |
| OrderService.LineWrites | backend/src/main/java/com/frontdash/backend/service/FrontdashService.java:100-103 | one order line per request item, in request order, each with its rounded amount |
| OrderService.TipOrZero | backend/src/main/java/com/frontdash/backend/service/FrontdashService.java:78 | a null tip counts as 0, any other tip as given |
| OrderService.WriteOrderLines | backend/src/main/java/com/frontdash/backend/service/FrontdashService.java:100-103 | the second loop appends exactly those order lines to the log |
| OrderService.CreateOrder | backend/src/main/java/com/frontdash/backend/service/FrontdashService.java:77-119 | fails exactly when an id is unknown, null or repeated, and then writes nothing and advances no counter; otherwise writes the order row, one line per item, the address and the delivery link under fresh numbers, and answers with the rounded figures; the menus never change |
| OrderService.RecordOrder | backend/src/main/java/com/frontdash/backend/service/FrontdashService.java:88-118 | once the lookup passed, the order is recorded as above and the call succeeds |
| OrderService.ResponseInCents | backend/src/main/java/com/frontdash/backend/service/FrontdashService.java:115-118 | every figure in the response is a whole number of cents |
| OrderService.GrandTotalWithinOneCent | backend/src/main/java/com/frontdash/backend/service/FrontdashService.java:115-118 | the grand total is within one cent of the sum of the rounded subtotal, service charge and tip |
| OrderService.GrandTotalExactForCents | backend/src/main/java/com/frontdash/backend/service/FrontdashService.java:115-118 | when subtotal and tip are whole cents, the grand total is exactly that sum |
| PaymentPage.SubtotalFromIsSum | src/components/PaymentPage.tsx:58 | the `reduce` from any start adds the sum of the cart lines to that start |
| PaymentPage.SubtotalIsSum | src/components/PaymentPage.tsx:58 | the subtotal is the sum of price times quantity; an empty cart costs 0 |
| PaymentPage.SubtotalAppend | src/components/PaymentPage.tsx:58 | adding a line adds its amount to the subtotal |
| PaymentPage.SumOfLinesAppend | src/components/PaymentPage.tsx:58 | the reference sum over a cart with one more line grows by that line |
| PaymentPage.TipAmount | src/components/PaymentPage.tsx:27-29 | a tip that does not parse counts as 0; one that parses counts as parsed |
| PaymentPage.PageTotals | src/components/PaymentPage.tsx:26-60 | the subtotal is the sum of the lines, the service charge is 8.25% of it, the tip is the typed text read by `parseFloat` with NaN as 0, and the grand total is their sum |
| PaymentPage.SelectedAfterSelect | src/components/PaymentPage.tsx:77-92 | the amount a preset writes highlights that preset |
| PaymentPage.AtMostOnePreset | src/components/PaymentPage.tsx:82-92 | from a subtotal of 1.50 on, no typed tip highlights two presets |
| PaymentPage.ZeroTipHighlightsAll | src/components/PaymentPage.tsx:82-92 | with an empty cart a typed "0" highlights all three presets |
| PaymentPage.ParseZero | src/components/PaymentPage.tsx:87 | `parseFloat("0")` is 0 |
| PaymentPage.LuhnTerm | src/components/PaymentPage.tsx:66-69 | each position contributes a single digit |
| PaymentPage.LuhnCheck | src/components/PaymentPage.tsx:62-75 | the loop answers true exactly for a digit string whose Luhn sum is divisible by 10 |
| PaymentPage.LuhnSumFromChange | src/components/PaymentPage.tsx:62-75 | changing one digit changes the Luhn sum by exactly the change in that digit's term |
| PaymentPage.LuhnTermInjective | src/components/PaymentPage.tsx:66-69 | different digits in the same position contribute different terms |
| PaymentPage.SingleDigitErrorDetected | src/components/PaymentPage.tsx:62-75 | changing one digit of a valid number makes it invalid |
| PaymentPage.LuhnOfSample | src/components/PaymentPage.tsx:62-75 | the all-zero number passes the check and "0000000000000001" fails it |
| PaymentPage.LuhnNotEnforced | src/components/PaymentPage.tsx:132-165 | the payment gate gives a number failing the Luhn check the same verdict as one passing it |
| PaymentPage.SameCardLengthSameVerdict | src/components/PaymentPage.tsx:140-141 | only the number of digits in the card number matters to the gate |
| PaymentPage.FindDay | src/components/PaymentPage.tsx:110 | no row is found exactly when no row names the day; otherwise the first row naming it |
| PaymentPage.ClockMinutes | src/components/PaymentPage.tsx:116-119 | a readable time is never the empty string |
| PaymentPage.ClosedMessage | src/components/PaymentPage.tsx:112-122 | the closed banner text is never empty |
| PaymentPage.CheckClosed | src/components/PaymentPage.tsx:107-126 | no row for today leaves ordering open; a row flagged "Y" closes the day whatever its times |
| PaymentPage.DayVerdict | src/components/PaymentPage.tsx:112-125 | an outside-hours verdict quotes today's opening and closing times |
| PaymentPage.ClosedNowMessage | src/components/PaymentPage.tsx:107-130 | a banner is shown exactly when the hours say closed, with that reason's text |
| PaymentPage.ClockMinutesOfHourMinute | src/components/PaymentPage.tsx:116-119 | "hh:mm" reads as hh times 60 plus mm |
| PaymentPage.HourMinuteFields | src/components/PaymentPage.tsx:116-117 | "hh:mm" splits into hh and mm |
| PaymentPage.SecondsIgnored | src/components/PaymentPage.tsx:116-119 | "hh:mm:ss" reads as the same minute as "hh:mm" |
| PaymentPage.OpenWindowInclusive | src/components/PaymentPage.tsx:115-124 | with readable times on a day not flagged closed, ordering is open exactly from the opening minute through the closing minute |
| PaymentPage.WindowVerdict | src/components/PaymentPage.tsx:115-124 | the same, given non-empty times |
| PaymentPage.DaysInMonth | src/components/PaymentPage.tsx:156 | a month has 28 to 31 days |
| PaymentPage.PaymentGate | src/components/PaymentPage.tsx:132-165 | the delivery form opens exactly when the store is not closed, the card has 16 digits, the security code 3 digits, and the expiry passes |
| PaymentPage.PaymentGateCardErrors | src/components/PaymentPage.tsx:140-147 | an open store refuses the card number exactly when it lacks 16 digits, and the security code exactly when the number is right and the code lacks 3 digits |
| PaymentPage.ExpiryGate | src/components/PaymentPage.tsx:149-160 | the expiry passes exactly when the month reads as 1 to 12, the year as non-zero, and now is no later than midnight starting the last day of that month (a year 0-99 read as 1900 onwards) |
| PaymentPage.ClosedBlocksPayment | src/components/PaymentPage.tsx:128-138 | whenever the hours say closed, payment is refused with that banner, whatever the card |
| PaymentPage.ClosedWinsOverCard | src/components/PaymentPage.tsx:135-138 | a closed message is checked before every card check |
| PaymentPage.ExpiryLastDay | src/components/PaymentPage.tsx:155-160 | a card is accepted through the day before its month's last day and refused from the first millisecond of that last day |
| PaymentPage.DeliveryGate | src/components/PaymentPage.tsx:170-186 | the order is posted exactly when the draw passes, the phone has length 10, the cart is not empty, and line 1, city and state are filled |
| PaymentPage.DeliveryGateReported | src/components/PaymentPage.tsx:170-182 | each failure is reported exactly when the checks before it passed and its own failed, in the order draw, phone, cart, address |
| PaymentPage.AddressFields | src/components/PaymentPage.tsx:218 | with comma-free parts the comma-separated fields are line 1, then line 2 when given, then city, then state followed by the zip when given (each after its comma's space), and nothing more |
| PaymentPage.RequestItems | src/components/PaymentPage.tsx:194-197 | the posted items are the cart lines' ids and quantities, in cart order |
| PaymentPage.GatePassedRequestIsValid | src/components/PaymentPage.tsx:167-206 | after the gate passes, the posted request meets the server's enforced validation, names every cart line and carries a phone the server's pattern accepts |
| PaymentPage.IntToString | src/components/PaymentPage.tsx:210 | `String(n)` of a non-negative order number is its decimal digits |
| PaymentPage.CheckoutSession.constructor | src/components/PaymentPage.tsx:27-55 | the page starts with an empty tip, empty forms, no banner and the delivery form hidden |
| PaymentPage.CheckoutSession.SelectTipOption | src/components/PaymentPage.tsx:77-80 | choosing a preset writes its amount with two decimals, highlights it, and makes the tip that amount rounded to cents |
| PaymentPage.CheckoutSession.EditPaymentForm | src/components/PaymentPage.tsx:472-474 | the card number keeps only its digits, and so does the security code (`src/components/PaymentPage.tsx:549-550`) |
| PaymentPage.CheckoutSession.EditDeliveryForm | src/components/PaymentPage.tsx:323-325 | the phone keeps only its digits |
| PaymentPage.CheckoutSession.RefreshClosed | src/components/PaymentPage.tsx:94-130 | when the hours are loaded, the banner is recomputed from them, the day and the minute at that moment |
| PaymentPage.CheckoutSession.SubmitPayment | src/components/PaymentPage.tsx:132-165 | the gate's verdict is returned and the delivery form opens exactly when it passes |
| PaymentPage.CheckoutSession.SubmitDelivery | src/components/PaymentPage.tsx:167-230 | a failed gate sends nothing; otherwise the request built from the cart, tip and form is sent, and the server's answer becomes the confirmation or the error message (a default when empty) |
| Auth.LoginStaff | backend/src/main/java/com/frontdash/backend/service/AuthService.java:19-33 | unknown user and inactive user fail with their messages; success exactly for an active user with the matching password; a change is required exactly on success with a stored "temp-" password |
| Auth.LoginRestaurant | backend/src/main/java/com/frontdash/backend/service/AuthService.java:35-42 | success exactly when the procedure accepts; a change is required exactly on success with a supplied "temp-" password |
| Auth.WithPassword | backend/src/main/java/com/frontdash/backend/service/AuthService.java:57 | the user's record gets the new password and keeps its status; no other user changes |
| Auth.AuthStore.constructor | backend/src/main/java/com/frontdash/backend/service/AuthService.java:15-17 | the store holds the given staff and restaurant users |
| Auth.AuthStore.ChangePassword | backend/src/main/java/com/frontdash/backend/service/AuthService.java:44-59 | true exactly when the user exists in the store the user type selects with the old password; then only that user's password changes, otherwise nothing does |
| Auth.LoginAfterChange | backend/src/main/java/com/frontdash/backend/service/AuthService.java:19-33 | after a change the new password logs in exactly when the account is active, and requires a change exactly when it is itself temporary |
| Auth.OldPasswordRevoked | backend/src/main/java/com/frontdash/backend/service/AuthService.java:27-32 | after a change the old password no longer logs in |
| Auth.OtherLoginsUnaffected | backend/src/main/java/com/frontdash/backend/service/AuthService.java:57 | a change for one user leaves every other user's login as it was |
| Auth.CaseInsensitiveChoices | backend/src/main/java/com/frontdash/backend/service/AuthService.java:24 | the status and the user type are compared ignoring case: "ACTIVE" is active, "STAFF" picks staff, "Inactive" and "restaurant" do not |
| AdminDashboard.DisplayHour | src/components/AdminDashboard.tsx:53-56 | the displayed hour is in 1..12 and agrees with the hour modulo 12 |
| AdminDashboard.DisplayHourRoundTrip | src/components/AdminDashboard.tsx:49-58 | the 12-hour hour and period give back every hour of the day |
| AdminDashboard.FormatClockTime | src/components/AdminDashboard.tsx:49-58 | "hh:mm" renders as the 12-hour hour, the minutes copied verbatim and AM below 12, PM from 12 |
| AdminDashboard.Additions | src/components/AdminDashboard.tsx:83-84 | exactly the incoming requests whose id is not pending are added |
| AdminDashboard.AdditionsAppend | src/components/AdminDashboard.tsx:84 | the additions keep the incoming order |
| AdminDashboard.MergeIdempotent | src/components/AdminDashboard.tsx:82-91 | merging the same requests again adds nothing and leaves the list as it was |
| AdminDashboard.AdditionsOfKnown | src/components/AdminDashboard.tsx:83-87 | requests whose ids are all pending add nothing |
| AdminDashboard.WithoutId | src/components/AdminDashboard.tsx:155-163 | approve/reject removes every entry with that id and keeps every other entry |
| AdminDashboard.WithoutIdAppend | src/components/AdminDashboard.tsx:155-163 | the removal keeps the survivors in order |
| AdminDashboard.WithoutAbsentId | src/components/AdminDashboard.tsx:155-163 | removing an id that is not pending changes nothing |
| AdminDashboard.StaffFormError | src/components/AdminDashboard.tsx:165-193 | a form passes exactly when both trimmed names have length 2 or more, the full name is not already taken ignoring case, and the trimmed username and password are not empty |
| AdminDashboard.StaffFormErrorReported | src/components/AdminDashboard.tsx:169-193 | each message is reported exactly when its check is the first to fail: missing names, then short names, then a taken name, then missing credentials |
| AdminDashboard.AddStaffKeepsNamesUnique | src/components/AdminDashboard.tsx:179-212 | a successful add keeps staff names unique ignoring case and surrounding spaces |
| AdminDashboard.AddStaffKeepsIdsAscending | src/components/AdminDashboard.tsx:206 | appending with id length + 1 keeps ids rising and distinct |
| AdminDashboard.FindStaff | src/components/AdminDashboard.tsx:225 | no member is found exactly when no member has the id; otherwise the member found is the first with the id |
| AdminDashboard.ToggledStaff | src/components/AdminDashboard.tsx:227-236 | only entries with the id change, and they take the next status |
| AdminDashboard.ToggleStaffTwice | src/components/AdminDashboard.tsx:224-236 | toggling an active or inactive member twice restores the roster |
| AdminDashboard.StaffIdAt | src/components/AdminDashboard.tsx:225 | with rising ids the member at a position is the only one with its id, and the one found |
| AdminDashboard.DriverFormError | src/components/AdminDashboard.tsx:246-258 | a driver name passes exactly when its trimmed form is non-empty and not taken ignoring case |
| AdminDashboard.AddDriverKeepsNamesUnique | src/components/AdminDashboard.tsx:252-263 | a successful add keeps driver names unique |
| AdminDashboard.AddDriverKeepsIdsAscending | src/components/AdminDashboard.tsx:263 | appending with id length + 1 keeps ids rising |
| AdminDashboard.NextDriverStatus | src/components/AdminDashboard.tsx:278-285 | a toggle always changes a driver's status |
| AdminDashboard.FindDriver | src/components/AdminDashboard.tsx:276 | no driver is found exactly when none has the id; otherwise the driver found is the first with the id |
| AdminDashboard.ToggledDrivers | src/components/AdminDashboard.tsx:278-287 | only drivers with the id change, and they take the other status |
| AdminDashboard.ToggleDriverTwice | src/components/AdminDashboard.tsx:275-287 | toggling a driver twice restores the roster |
| AdminDashboard.DriverIdAt | src/components/AdminDashboard.tsx:276 | with rising ids the driver at a position is the only one with its id, and the one found |
| AdminDashboard.Dashboard.constructor | src/components/AdminDashboard.tsx:63-75 | the dashboard starts with empty lists and empty forms |
| AdminDashboard.Dashboard.MergeIncoming | src/components/AdminDashboard.tsx:77-92 | the pending list becomes the merge, and the parent is told to consume exactly when something was added |
| AdminDashboard.Dashboard.DecideRestaurant | src/components/AdminDashboard.tsx:155-163 | approving or rejecting removes the entries with that id |
| AdminDashboard.Dashboard.EditStaffForm | src/components/AdminDashboard.tsx:72 | the staff form holds what was typed |
| AdminDashboard.Dashboard.EditDriverName | src/components/AdminDashboard.tsx:74 | the driver form holds what was typed |
| AdminDashboard.Dashboard.AddStaff | src/components/AdminDashboard.tsx:165-222 | the checks decide; on success the trimmed request is sent, and once the call succeeds exactly one active member with id length + 1 is appended and the form cleared; otherwise nothing changes |
| AdminDashboard.Dashboard.ToggleStaffStatus | src/components/AdminDashboard.tsx:224-244 | nothing for an unknown id; otherwise the next status is sent for that member and, once the call succeeds, only that member changes |
| AdminDashboard.Dashboard.AddDriver | src/components/AdminDashboard.tsx:246-273 | the checks decide; on success the trimmed name is sent, and once the call succeeds exactly one available driver with id length + 1 is appended |
| AdminDashboard.Dashboard.ToggleDriverStatus | src/components/AdminDashboard.tsx:275-295 | nothing for an unknown id; otherwise only that driver changes once the call succeeds |
| StaffDashboard.WithStatus | src/components/StaffDashboard.tsx:54-61 | the filtered list holds exactly the orders with that status |
| StaffDashboard.WithStatusAppend | src/components/StaffDashboard.tsx:54-61 | filtering a concatenation filters each part, so the lists keep the orders' order |
| StaffDashboard.WithStatusCounts | src/components/StaffDashboard.tsx:54-61 | each order with the status is kept as often as it occurs, and no other order is kept |
| StaffDashboard.PendingAndAssignedDisjoint | src/components/StaffDashboard.tsx:54-61 | no order is both pending and assigned, and together the lists are no longer than the orders |
| StaffDashboard.StatusClass | src/components/StaffDashboard.tsx:62-68 | the lower-cased status picks the badge by "delivered", then "assigned", then "progress", else neutral |
| StaffDashboard.NotContainedByFirstChar | src/components/StaffDashboard.tsx:64-66 | a text lacking a word's first character does not contain the word |
| StaffDashboard.StatusBadges | src/components/StaffDashboard.tsx:62-68 | the three statuses the server writes get three different badges, and a missing status the neutral one |
| StaffDashboard.InProgressBadge | src/components/StaffDashboard.tsx:66 | "In Progress" gets the progress badge |
| StaffDashboard.AssignedDriverBadge | src/components/StaffDashboard.tsx:65 | "AssignedDriver" gets the assigned badge |
| StaffDashboard.DeliveredStatusBadge | src/components/StaffDashboard.tsx:64 | "Delivered" gets the delivered badge |
| StaffDashboard.PasswordChangeError | src/components/StaffDashboard.tsx:75-99 | a change passes exactly when new equals confirm, has length 6 or more, an upper-case letter, a lower-case letter and a digit, the current password is given and the username is known; a mismatch is reported exactly when new differs from confirm |
| StaffDashboard.PasswordChangeErrorReported | src/components/StaffDashboard.tsx:76-98 | each of too short, missing character class, current password required and username missing is reported exactly when the checks before it passed and its own failed |
| StaffDashboard.TemporaryPasswordPassesRule | src/components/StaffDashboard.tsx:75-99 | the rule lets through a new password that the server treats as temporary |
| StaffDashboard.WithDriver | src/components/StaffDashboard.tsx:127 | only orders with that number change, taking the driver and the assigned status |
| StaffDashboard.WithDelivery | src/components/StaffDashboard.tsx:143 | only orders with that number change, taking the delivered status, date and time |
| StaffDashboard.AssignMovesOrder | src/components/StaffDashboard.tsx:127 | an assigned order leaves the pending list and appears in the assigned list; other pending orders stay |
| StaffDashboard.OthersKeepPending | src/components/StaffDashboard.tsx:127 | orders with other numbers are pending after the assignment exactly when they were before |
| StaffDashboard.DeliveryClearsOrder | src/components/StaffDashboard.tsx:143 | a delivered order leaves both lists |
| StaffDashboard.AvailableDriverCount | src/components/StaffDashboard.tsx:298 | the count is at most the number of drivers, all of them exactly when every status is "Active", and none exactly when no status is |
| StaffDashboard.AvailableDriverCountIsOccurrences | src/components/StaffDashboard.tsx:298 | the count is the number of times "Active" occurs among the drivers' statuses |
| StaffDashboard.Desk.constructor | src/components/StaffDashboard.tsx:27-32 | the desk starts with the given orders, an empty password form and no first-login prompt |
| StaffDashboard.Desk.EditPasswordForm | src/components/StaffDashboard.tsx:30 | the password form holds what was typed |
| StaffDashboard.Desk.ChangePassword | src/components/StaffDashboard.tsx:75-117 | the rule decides; on a pass the staff change request is sent, and once it succeeds the form is cleared and the prompt dismissed |
| StaffDashboard.Desk.AssignDriver | src/components/StaffDashboard.tsx:119-134 | an empty driver name sends nothing and changes nothing; otherwise the orders take the driver once the call succeeds |
| StaffDashboard.Desk.RecordDelivery | src/components/StaffDashboard.tsx:136-150 | once the call succeeds the order is marked delivered at the given date and time |
| RestaurantDetail.MenuItemOf | src/components/RestaurantDetailPage.tsx:52-59 | id, name and price are copied; available exactly when the flag is "Y"; a missing or empty description becomes the default, so it is never empty |
| RestaurantDetail.MenuItems | src/components/RestaurantDetailPage.tsx:52 | one display item per menu row, in order |
| RestaurantDetail.Bumped | src/components/RestaurantDetailPage.tsx:71-76 | the item's count becomes the old count (0 when missing) plus the change, or 0 below zero; no other count changes |
| RestaurantDetail.QuantityToAdd | src/components/RestaurantDetailPage.tsx:79 | the stored count when it is not 0, otherwise 1, so at least 1 |
| RestaurantDetail.BumpKeepsNonNegative | src/components/RestaurantDetailPage.tsx:74 | no count ever drops below zero |
| RestaurantDetail.PlusThenMinus | src/components/RestaurantDetailPage.tsx:71-76 | plus then minus gives the count back; minus at zero stays at zero |
| RestaurantDetail.MenuPage.constructor | src/components/RestaurantDetailPage.tsx:43-44 | the page starts with no menu and no counts |
| RestaurantDetail.MenuPage.LoadMenu | src/components/RestaurantDetailPage.tsx:48-60 | the menu becomes the mapped rows |
| RestaurantDetail.MenuPage.UpdateQuantity | src/components/RestaurantDetailPage.tsx:71-76 | the counts become the bumped counts and stay non-negative |
| RestaurantDetail.MenuPage.AddItemToCart | src/components/RestaurantDetailPage.tsx:78-88 | the item is handed over with its counted quantity (1 when none), and only its count resets to 0 |
| EndToEnd.SumOfLinesSnoc | src/components/PaymentPage.tsx:58 | summing the cart from the end gives the same total as from the front |
| EndToEnd.ClientServerSubtotalAgree | src/components/PaymentPage.tsx:194-197 | when the cart's prices are the menu's, the server's subtotal for the posted items equals the page's subtotal |

## Left out

- Network calls, JDBC and the stored procedures are left out. Each call's outcome is a parameter (`apiSucceeds`, `reply`, `procedureAccepts`). The back-end repository is a map of menu prices plus a log of the rows written.
- React scheduling is not modelled: effects, memoisation, `Promise.all` and the asynchronous order of state updates. Each handler is one atomic method.
- Toasts, alerts and the rendered markup are left out. So are the error-message texts the pages only display.
- The load effects that fetch restaurants, staff, drivers and orders are left out (`src/components/AdminDashboard.tsx:94-148`, `src/components/StaffDashboard.tsx:37-52`). So is the menu page's loading/error flag. `LoadMenu` models only the successful mapping.
- The clock, the time zone and locale formatting are parameters: the weekday name, the minute of the day, a date-and-time, and the delivery date and time strings. The 45-minute delivery estimate and the order date on the confirmation are left out.
- `Math.random()` in the delivery handler is the boolean `verificationFails`.
- Floating point is not modelled: prices, totals and tips are exact reals. `BigDecimal.valueOf(double)` artefacts and binary-fraction effects of `toFixed` are not captured.
- Regular expressions are character predicates. The password rule's lookaheads become `HasUpper`, `HasLower` and `HasDigit` over ASCII.
- Common.JsNumber: reads only unsigned decimal-digit strings (with surrounding white space); signs, decimal points and exponents read as NaN. The page only applies it to clock fields and select values.
- Common.ParseFloat: exponents and `Infinity` are not modelled.
- Common.ToLower: lower-cases ASCII letters only.
- Characters are Unicode scalar values; `length` counts UTF-16 code units (`JsLength`), but a lone surrogate cannot occur in a Dafny string, so such strings are not modelled.
- The card-number and security-code inputs' `maxLength` attributes, which the browser enforces while typing, are not modelled; the payment gate checks the lengths itself.
- Auth.AuthStore.ChangePassword: the repository methods `findStaff`, `findRestaurantUser` and `updatePassword` are not part of this model. The update is assumed to rewrite the record in the store that was searched. Null usernames and passwords are not modelled.
- Auth.LoginRestaurant: the stored procedure's decision is a parameter, so nothing is proved about which restaurant credentials it accepts.
- OrderService.CreateOrder: requires non-null `items` and `delivery`, which the controller's validation guarantees. The subtotal loop's `double` arithmetic is exact here.
- AdminDashboard.Dashboard.AddStaff: ids are natural numbers, not the strings `String(length + 1)` of the source.
- AdminDashboard.ToggleStaffTwice: proved for rosters with distinct ids and statuses "active"/"inactive". A status such as "suspended" turns "active" and does not come back.
- The restaurant's own name, image and the menu item images are display data and are left out.
