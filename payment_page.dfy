/** The checkout page (src/components/PaymentPage.tsx): cart pricing, the
    tip presets, the opening-hours gate, the payment-card gate, the delivery
    gate, the order request it posts, and the page state those handlers
    change. The clock, the weekday name, the random draw and the server's
    reply are parameters. */
module PaymentPage {
  import opened Common
  import opened Money
  import opened OrderRequest
  import opened OrderService

  datatype CartItem = CartItem(id: string, itemId: int, name: string, price: real, quantity: int,
                               restaurantName: string)

  // ---------------------------------------------------------------- pricing

  /** `cartItems.reduce((sum, item) => sum + item.price * item.quantity, 0)`,
      continuing from `acc`. */
  function SubtotalFrom(acc: real, cart: seq<CartItem>): real
    decreases cart
  {
    if cart == [] then acc else SubtotalFrom(acc + cart[0].price * cart[0].quantity as real, cart[1..])
  }

  function Subtotal(cart: seq<CartItem>): real
  {
    SubtotalFrom(0.0, cart)
  }

  /** Reference definition: the sum of price times quantity over the cart. */
  function SumOfLines(cart: seq<CartItem>): real
  {
    if cart == [] then 0.0 else cart[0].price * cart[0].quantity as real + SumOfLines(cart[1..])
  }

  lemma {:induction false} SubtotalFromIsSum(acc: real, cart: seq<CartItem>)
    ensures SubtotalFrom(acc, cart) == acc + SumOfLines(cart)
    decreases cart
  {
    if cart != [] {
      SubtotalFromIsSum(acc + cart[0].price * cart[0].quantity as real, cart[1..]);
    }
  }

  /** The page's subtotal is the sum of the cart lines; an empty cart costs 0. */
  lemma SubtotalIsSum(cart: seq<CartItem>)
    ensures Subtotal(cart) == SumOfLines(cart)
    ensures cart == [] ==> Subtotal(cart) == 0.0
  {
    SubtotalFromIsSum(0.0, cart);
  }

  /** Adding a line to the cart adds its amount to the subtotal. */
  lemma {:induction false} SubtotalAppend(cart: seq<CartItem>, item: CartItem)
    ensures Subtotal(cart + [item]) == Subtotal(cart) + item.price * item.quantity as real
  {
    SubtotalIsSum(cart);
    SubtotalIsSum(cart + [item]);
    SumOfLinesAppend(cart, item);
  }

  lemma {:induction false} SumOfLinesAppend(cart: seq<CartItem>, item: CartItem)
    ensures SumOfLines(cart + [item]) == SumOfLines(cart) + item.price * item.quantity as real
  {
    if cart != [] {
      assert (cart + [item])[1..] == cart[1..] + [item];
      SumOfLinesAppend(cart[1..], item);
    } else {
      assert [item][1..] == [];
    }
  }

  /** Tip typed by the customer: `parseFloat`, with NaN counted as 0. */
  function TipAmount(tipAmountInput: string): (tip: real)
    ensures ParseFloat(tipAmountInput).None? ==> tip == 0.0
    ensures ParseFloat(tipAmountInput).Some? ==> tip == ParseFloat(tipAmountInput).value
  {
    match ParseFloat(tipAmountInput)
    case None => 0.0
    case Some(v) => v
  }

  datatype Totals = Totals(subtotal: real, serviceCharge: real, tip: real, grandTotal: real)

  /** The figures the page shows (unrounded; the page formats them). */
  function PageTotals(cart: seq<CartItem>, tipAmountInput: string): (t: Totals)
    ensures t.subtotal == SumOfLines(cart)
    ensures t.serviceCharge == t.subtotal * ServiceChargeRate
    ensures t.tip == TipAmount(tipAmountInput)
    ensures t.grandTotal == t.subtotal + t.serviceCharge + t.tip
  {
    SubtotalIsSum(cart);
    var subtotal := Subtotal(cart);
    var serviceCharge := subtotal * ServiceChargeRate;
    var tip := TipAmount(tipAmountInput);
    Totals(subtotal, serviceCharge, tip, subtotal + serviceCharge + tip)
  }

  // ------------------------------------------------------------ tip presets

  const TipOptions: seq<nat> := [18, 20, 25]

  function PresetTip(subtotal: real, percentage: nat): real
  {
    subtotal * percentage as real / 100.0
  }

  /** `isTipOptionSelected`: the typed tip parses and lies within a cent of
      the preset amount rounded to cents. */
  predicate IsTipOptionSelected(tipAmountInput: string, subtotal: real, percentage: nat)
  {
    && tipAmountInput != ""
    && ParseFloat(tipAmountInput).Some?
    && var diff := ParseFloat(tipAmountInput).value - Round2(PresetTip(subtotal, percentage));
       -0.01 < diff < 0.01
  }

  /** Choosing a preset highlights that preset. */
  lemma SelectedAfterSelect(subtotal: real, percentage: nat)
    ensures IsTipOptionSelected(ToFixed2(PresetTip(subtotal, percentage)), subtotal, percentage)
  {
    ParseToFixed2(PresetTip(subtotal, percentage));
  }

  /** From a subtotal of $1.50 on, no typed tip highlights two presets. */
  lemma {:induction false} AtMostOnePreset(tipAmountInput: string, subtotal: real, p: nat, q: nat)
    requires subtotal >= 1.5
    requires p in TipOptions && q in TipOptions && p != q
    ensures !(IsTipOptionSelected(tipAmountInput, subtotal, p) && IsTipOptionSelected(tipAmountInput, subtotal, q))
  {
    var a, b := PresetTip(subtotal, p), PresetTip(subtotal, q);
    var gap := if p < q then b - a else a - b;
    assert gap >= subtotal * 2.0 / 100.0;
    assert gap >= 0.03;
  }

  /** With an empty cart every preset is worth 0.00, so a typed "0"
      highlights all three at once. */
  lemma ZeroTipHighlightsAll()
    ensures forall p :: p in TipOptions ==> IsTipOptionSelected("0", Subtotal([]), p)
  {
    ParseZero();
    Round2OfCents(0);
  }

  lemma ParseZero()
    ensures ParseFloat("0") == Some(0.0)
  {
    var zero: string := "0";
    assert DigitPrefix(zero) == zero by {
      assert DigitPrefix(zero[1..]) == [];
    }
    assert ParseDecimalPrefix(zero) == Some(0.0) by {
      assert zero[|zero|..] == [];
    }
    ParseUnsignedText(zero);
  }

  // ---------------------------------------------------------------- Luhn

  /** The digit a position contributes: doubled (less 9 when above 9) every
      second place counting from the right. */
  function LuhnTerm(c: char, double: bool): (t: nat)
    requires IsDigit(c)
    ensures t <= 9
  {
    var d := DigitValue(c);
    if double then (if 2 * d > 9 then 2 * d - 9 else 2 * d) else d
  }

  predicate DigitsFrom(s: string, i: nat)
  {
    forall j :: i <= j < |s| ==> IsDigit(s[j])
  }

  /** Sum of the Luhn terms of `s[i..]`; the rightmost digit is not doubled. */
  function LuhnSumFrom(s: string, i: nat): nat
    requires i <= |s| && DigitsFrom(s, i)
    decreases |s| - i
  {
    if i == |s| then 0 else LuhnTerm(s[i], (|s| - 1 - i) % 2 == 1) + LuhnSumFrom(s, i + 1)
  }

  /** The check-digit formula of ISO/IEC 7812-1 Annex B. */
  predicate IsLuhnValid(s: string)
  {
    AllDigits(s) && LuhnSumFrom(s, 0) % 10 == 0
  }

  /** `luhnCheck`: walks the number from the right. A character that is not
      a digit makes the running sum NaN, and NaN is never `=== 0` mod 10. */
  method LuhnCheck(num: string) returns (ok: bool)
    ensures ok == IsLuhnValid(num)
  {
    var sum := 0;
    var shouldDouble := false;
    var isNaN := false;
    var i := |num| - 1;
    while i >= 0
      invariant -1 <= i < |num|
      invariant shouldDouble == ((|num| - 1 - i) % 2 == 1)
      invariant isNaN == !DigitsFrom(num, i + 1)
      invariant !isNaN ==> sum == LuhnSumFrom(num, i + 1)
    {
      var c := num[i];
      if !IsDigit(c) {
        isNaN := true;
      } else if !isNaN {
        var digit := DigitValue(c);
        if shouldDouble {
          digit := digit * 2;
          if digit > 9 {
            digit := digit - 9;
          }
        }
        sum := sum + digit;
      }
      shouldDouble := !shouldDouble;
      i := i - 1;
    }
    ok := !isNaN && sum % 10 == 0;
  }

  lemma {:induction false} LuhnSumFromChange(s: string, t: string, k: nat, i: nat)
    requires |s| == |t| && k < |s| && i <= |s|
    requires DigitsFrom(s, i) && DigitsFrom(t, i)
    requires forall j :: 0 <= j < |s| && j != k ==> s[j] == t[j]
    ensures i <= k ==> LuhnSumFrom(s, i) - LuhnSumFrom(t, i)
                       == LuhnTerm(s[k], (|s| - 1 - k) % 2 == 1) - LuhnTerm(t[k], (|s| - 1 - k) % 2 == 1)
    ensures k < i ==> LuhnSumFrom(s, i) == LuhnSumFrom(t, i)
    decreases |s| - i
  {
    if i < |s| {
      LuhnSumFromChange(s, t, k, i + 1);
    }
  }

  lemma LuhnTermInjective(a: char, b: char, double: bool)
    requires IsDigit(a) && IsDigit(b) && a != b
    ensures LuhnTerm(a, double) != LuhnTerm(b, double)
  {
  }

  /** Changing a single digit of a valid number always breaks the check. */
  lemma SingleDigitErrorDetected(s: string, t: string, k: nat)
    requires |s| == |t| && k < |s| && AllDigits(t)
    requires forall j :: 0 <= j < |s| && j != k ==> s[j] == t[j]
    requires s[k] != t[k]
    requires IsLuhnValid(s)
    ensures !IsLuhnValid(t)
  {
    var dbl := (|s| - 1 - k) % 2 == 1;
    LuhnSumFromChange(s, t, k, 0);
    LuhnTermInjective(s[k], t[k], dbl);
    SmallDifferenceChangesResidue(LuhnSumFrom(s, 0), LuhnSumFrom(t, 0),
                                  LuhnTerm(s[k], dbl) - LuhnTerm(t[k], dbl));
  }

  lemma SmallDifferenceChangesResidue(x: int, y: int, d: int)
    requires x - y == d && -9 <= d <= 9 && d != 0
    requires x % 10 == 0
    ensures y % 10 != 0
  {
  }

  // ----------------------------------------------------------- opening hours

  /** One row of the restaurant's hours; a missing time is the empty string. */
  datatype HoursEntry = HoursEntry(dayOfWeek: string, openTime: string, closeTime: string, isClosed: string)

  /** `hours.find(h => h.dayOfWeek === dayName)`: the first matching row. */
  function FindDay(hours: seq<HoursEntry>, dayName: string): (r: Option<HoursEntry>)
    ensures r.None? <==> forall i :: 0 <= i < |hours| ==> hours[i].dayOfWeek != dayName
    ensures r.Some? ==> exists i :: 0 <= i < |hours| && hours[i] == r.value
                               && hours[i].dayOfWeek == dayName
                               && forall j :: 0 <= j < i ==> hours[j].dayOfWeek != dayName
  {
    if hours == [] then None
    else if hours[0].dayOfWeek == dayName then Some(hours[0])
    else
      var r := FindDay(hours[1..], dayName);
      assert forall i :: 1 <= i < |hours| ==> hours[i] == hours[1..][i - 1];
      r
  }

  /** `const [h, m] = t.split(":").map(Number)`, then `h * 60 + m`: None
      when either part is NaN or there is no second part. Any further part
      (seconds) is ignored. */
  function ClockMinutes(t: string): (r: Option<int>)
    ensures r.Some? ==> |t| > 0
  {
    assert t == [] ==> Field(t, ':', 1).None?;
    HourMinute(JsNumber(BeforeSep(t, ':')), ClockField(t, 1))
  }

  /** `h * 60 + m`, NaN when either is. */
  function HourMinute(h: Option<nat>, m: Option<nat>): Option<int>
  {
    if h.Some? && m.Some? then Some(h.value * 60 + m.value) else None
  }

  /** `Number(t.split(":")[k])`, None for a missing part. */
  function ClockField(t: string, k: nat): Option<nat>
  {
    match Field(t, ':', k)
    case None => None
    case Some(f) => JsNumber(f)
  }

  /** Why ordering is closed right now. */
  datatype ClosedReason = ClosedToday | OutsideHours(openTime: string, closeTime: string)

  /** The text shown for each reason; never empty. */
  function ClosedMessage(reason: ClosedReason): (m: string)
    ensures |m| > 0
  {
    match reason
    case ClosedToday => "Restaurant is closed today."
    case OutsideHours(openTime, closeTime) => "Orders accepted between " + openTime + " - " + closeTime
  }

  /** `checkClosed`: why ordering is closed, or None when it is open. A time
      that does not parse compares false, so it never closes the store on its
      side. */
  function CheckClosed(hours: seq<HoursEntry>, dayName: string, nowMinutes: int): (r: Option<ClosedReason>)
    ensures (forall i :: 0 <= i < |hours| ==> hours[i].dayOfWeek != dayName) ==> r.None?
    ensures FindDay(hours, dayName).Some? && FindDay(hours, dayName).value.isClosed == "Y" ==> r == Some(ClosedToday)
  {
    match FindDay(hours, dayName)
    case None => None
    case Some(today) => DayVerdict(today, nowMinutes)
  }

  /** The verdict once today's row is found. */
  function DayVerdict(today: HoursEntry, nowMinutes: int): (r: Option<ClosedReason>)
    ensures r.Some? && r.value.OutsideHours? ==> r.value == OutsideHours(today.openTime, today.closeTime)
  {
    if today.isClosed == "Y" then Some(ClosedToday)
    else if today.openTime != "" && today.closeTime != ""
         && OutsideWindow(ClockMinutes(today.openTime), ClockMinutes(today.closeTime), nowMinutes)
    then Some(OutsideHours(today.openTime, today.closeTime))
    else None
  }

  /** Before a readable opening minute or after a readable closing minute;
      an unreadable time (NaN) compares false. */
  predicate OutsideWindow(open: Option<int>, close: Option<int>, nowMinutes: int)
  {
    (open.Some? && nowMinutes < open.value) || (close.Some? && nowMinutes > close.value)
  }

  /** The message the page keeps in `isClosedNow`. */
  function ClosedNowMessage(hours: seq<HoursEntry>, dayName: string, nowMinutes: int): (m: Option<string>)
    ensures m.Some? <==> CheckClosed(hours, dayName, nowMinutes).Some?
    ensures m.Some? ==> m.value == ClosedMessage(CheckClosed(hours, dayName, nowMinutes).value)
  {
    match CheckClosed(hours, dayName, nowMinutes)
    case None => None
    case Some(reason) => Some(ClosedMessage(reason))
  }

  /** "hh:mm" reads as hh * 60 + mm minutes. */
  lemma ClockMinutesOfHourMinute(h: string, m: string)
    requires h != [] && AllDigits(h) && m != [] && AllDigits(m)
    ensures ClockMinutes(h + ":" + m).Some?
    ensures ClockMinutes(h + ":" + m).value == DigitsValue(h) * 60 + DigitsValue(m)
  {
    var t := h + ":" + m;
    assert ':' !in h && ':' !in m;
    HourMinuteFields(h, m);
    JsNumberOfDigits(h);
    JsNumberOfDigits(m);
    assert JsNumber(BeforeSep(t, ':')) == Some(DigitsValue(h));
    assert ClockField(t, 1) == Some(DigitsValue(m));
  }

  lemma HourMinuteFields(h: string, m: string)
    requires ':' !in h && ':' !in m
    ensures BeforeSep(h + ":" + m, ':') == h
    ensures Field(h + ":" + m, ':', 1) == Some(m)
  {
    HeadAndSecond(h, m);
    BeforeSepOfFree(m, [], ':');
    assert m + [] == m;
  }

  /** A seconds part does not change the minutes: "hh:mm:ss" reads as "hh:mm". */
  lemma SecondsIgnored(h: string, m: string, sec: string)
    requires ':' !in h && ':' !in m
    ensures ClockMinutes(h + ":" + m + ":" + sec) == ClockMinutes(h + ":" + m)
  {
    var t2 := h + ":" + m;
    var t3 := h + ":" + m + ":" + sec;
    HourMinuteFields(h, m);
    SecondsFields(h, m, sec);
    assert ClockField(t3, 1) == ClockField(t2, 1);
  }

  lemma SecondsFields(h: string, m: string, sec: string)
    requires ':' !in h && ':' !in m
    ensures BeforeSep(h + ":" + m + ":" + sec, ':') == h
    ensures Field(h + ":" + m + ":" + sec, ':', 1) == Some(m)
  {
    assert h + ":" + m + ":" + sec == h + ":" + (m + ":" + sec);
    HeadAndSecond(h, m + ":" + sec);
    HeadAndSecond(m, sec);
  }

  lemma HeadAndSecond(h: string, rest: string)
    requires ':' !in h
    ensures BeforeSep(h + ":" + rest, ':') == h
    ensures Field(h + ":" + rest, ':', 1) == Some(BeforeSep(rest, ':'))
  {
    BeforeSepOfFree(h, ":" + rest, ':');
    assert h + ":" + rest == h + (":" + rest);
    FieldJoin(h, rest, ':', 0);
  }

  /** With both times readable and the day not flagged closed, ordering is
      open exactly from the opening minute through the closing minute. */
  lemma OpenWindowInclusive(today: HoursEntry, nowMinutes: int)
    requires today.isClosed != "Y"
    requires ClockMinutes(today.openTime).Some? && ClockMinutes(today.closeTime).Some?
    ensures DayVerdict(today, nowMinutes).None?
        <==> ClockMinutes(today.openTime).value <= nowMinutes <= ClockMinutes(today.closeTime).value
  {
    ReadableTimeNotEmpty(today.openTime);
    ReadableTimeNotEmpty(today.closeTime);
    WindowVerdict(today, nowMinutes);
  }

  lemma ReadableTimeNotEmpty(t: string)
    requires ClockMinutes(t).Some?
    ensures t != ""
  {
    assert |t| > 0;
  }

  lemma WindowVerdict(today: HoursEntry, nowMinutes: int)
    requires today.isClosed != "Y"
    requires ClockMinutes(today.openTime).Some? && ClockMinutes(today.closeTime).Some?
    requires today.openTime != "" && today.closeTime != ""
    ensures DayVerdict(today, nowMinutes).None?
        <==> ClockMinutes(today.openTime).value <= nowMinutes <= ClockMinutes(today.closeTime).value
  {
    var open, close := ClockMinutes(today.openTime), ClockMinutes(today.closeTime);
    assert DayVerdict(today, nowMinutes).None? <==> !OutsideWindow(open, close, nowMinutes);
  }

  // ------------------------------------------------------------ payment gate

  datatype PaymentForm = PaymentForm(cardType: string, cardNumber: string, firstName: string, lastName: string,
                                     billingAddress: string, expiryMonth: string, expiryYear: string,
                                     securityCode: string)

  const EmptyPaymentForm := PaymentForm("", "", "", "", "", "", "", "")

  /** A local date and time of day, compared field by field. */
  datatype Timestamp = Timestamp(year: int, month: int, day: int, millisOfDay: nat)

  predicate Before(a: Timestamp, b: Timestamp)
  {
    || a.year < b.year
    || (a.year == b.year && a.month < b.month)
    || (a.year == b.year && a.month == b.month && a.day < b.day)
    || (a.year == b.year && a.month == b.month && a.day == b.day && a.millisOfDay < b.millisOfDay)
  }

  predicate IsLeapYear(y: int)
  {
    (y % 4 == 0 && y % 100 != 0) || y % 400 == 0
  }

  function DaysInMonth(y: int, m: int): (d: int)
    requires 1 <= m <= 12
    ensures 28 <= d <= 31
  {
    if m == 2 then (if IsLeapYear(y) then 29 else 28)
    else if m == 4 || m == 6 || m == 9 || m == 11 then 30
    else 31
  }

  /** The `Date` constructor reads a year from 0 to 99 as 1900 onwards. */
  function JsDateYear(year: nat): int
  {
    if year <= 99 then 1900 + year else year
  }

  /** `new Date(year, month, 0)`: midnight starting the last day of `month`
      (1-based). */
  function ExpiryDate(year: nat, month: int): Timestamp
    requires 1 <= month <= 12
  {
    var y := JsDateYear(year);
    Timestamp(y, month, DaysInMonth(y, month), 0)
  }

  datatype PaymentFailure = StoreClosed(message: string) | InvalidCardNumber | InvalidCvv | InvalidExpiration | CardExpired

  /** `handlePaymentSubmit`'s checks, in order; None lets the delivery form
      open. */
  function PaymentGate(isClosedNow: Option<string>, form: PaymentForm, now: Timestamp): (r: Option<PaymentFailure>)
    ensures r.None? <==> !(isClosedNow.Some? && isClosedNow.value != "")
                         && |StripNonDigits(form.cardNumber)| == 16 && |StripNonDigits(form.securityCode)| == 3
                         && ExpiryGate(form.expiryMonth, form.expiryYear, now).None?
  {
    if isClosedNow.Some? && isClosedNow.value != "" then Some(StoreClosed(isClosedNow.value))
    else if |StripNonDigits(form.cardNumber)| != 16 then Some(InvalidCardNumber)
    else if form.securityCode == "" || |StripNonDigits(form.securityCode)| != 3 then Some(InvalidCvv)
    else ExpiryGate(form.expiryMonth, form.expiryYear, now)
  }

  /** Which check refuses the card: the number first, then the code. */
  lemma PaymentGateCardErrors(isClosedNow: Option<string>, form: PaymentForm, now: Timestamp)
    ensures PaymentGate(isClosedNow, form, now) == Some(InvalidCardNumber)
            <==> !(isClosedNow.Some? && isClosedNow.value != "") && |StripNonDigits(form.cardNumber)| != 16
    ensures PaymentGate(isClosedNow, form, now) == Some(InvalidCvv)
            <==> !(isClosedNow.Some? && isClosedNow.value != "")
                 && |StripNonDigits(form.cardNumber)| == 16 && |StripNonDigits(form.securityCode)| != 3
  {
  }

  /** The month and year checks that end `handlePaymentSubmit`. */
  function ExpiryGate(expiryMonth: string, expiryYear: string, now: Timestamp): (r: Option<PaymentFailure>)
    ensures r.None? <==> var m := JsNumber(expiryMonth); var y := JsNumber(expiryYear);
                         m.Some? && 1 <= m.value <= 12 && y.Some? && y.value >= 1
                         && !Before(ExpiryDate(y.value, m.value), now)
    ensures r.Some? ==> r.value == InvalidExpiration || r.value == CardExpired
  {
    var month := JsNumber(expiryMonth);
    var year := JsNumber(expiryYear);
    if month.None? || year.None? || month.value == 0 || year.value == 0 || month.value < 1 || month.value > 12
    then Some(InvalidExpiration)
    else if Before(ExpiryDate(year.value, month.value), now) then Some(CardExpired)
    else None
  }

  /** Whenever the hours say closed, payment is refused with that message,
      whatever the card. */
  lemma ClosedBlocksPayment(hours: seq<HoursEntry>, dayName: string, nowMinutes: int, form: PaymentForm, now: Timestamp)
    requires CheckClosed(hours, dayName, nowMinutes).Some?
    ensures PaymentGate(ClosedNowMessage(hours, dayName, nowMinutes), form, now)
         == Some(StoreClosed(ClosedMessage(CheckClosed(hours, dayName, nowMinutes).value)))
  {
  }

  /** A closed message wins over every card check. */
  lemma ClosedWinsOverCard(msg: string, form: PaymentForm, now: Timestamp)
    requires msg != ""
    ensures PaymentGate(Some(msg), form, now) == Some(StoreClosed(msg))
  {
  }

  /** The expiry check accepts the whole expiry month up to its last day and
      rejects that last day from the first millisecond after midnight. */
  lemma ExpiryLastDay(expiryMonth: string, expiryYear: string, now: Timestamp)
    requires JsNumber(expiryMonth).Some? && 1 <= JsNumber(expiryMonth).value <= 12
    requires JsNumber(expiryYear).Some? && JsNumber(expiryYear).value >= 100
    requires now.year == JsNumber(expiryYear).value && now.month == JsNumber(expiryMonth).value
    ensures now.day < DaysInMonth(now.year, now.month) ==> ExpiryGate(expiryMonth, expiryYear, now).None?
    ensures now.day == DaysInMonth(now.year, now.month) && now.millisOfDay > 0
            ==> ExpiryGate(expiryMonth, expiryYear, now) == Some(CardExpired)
  {
  }

  /** The Luhn routine is not on the accept path: the gate gives the same
      verdict to a number that fails the check (see `LuhnOfSample`) as to one
      that passes it. */
  lemma LuhnNotEnforced(isClosedNow: Option<string>, form: PaymentForm, now: Timestamp)
    ensures PaymentGate(isClosedNow, form.(cardNumber := "0000000000000001"), now)
         == PaymentGate(isClosedNow, form.(cardNumber := "0000000000000000"), now)
  {
    var zeros: string := "0000000000000000";
    var sample: string := "0000000000000001";
    assert AllDigits(zeros) && AllDigits(sample);
    SameCardLengthSameVerdict(isClosedNow, form.(cardNumber := sample), form.(cardNumber := zeros), now);
  }

  /** Only the number of digits in the card number matters to the gate. */
  lemma SameCardLengthSameVerdict(isClosedNow: Option<string>, f: PaymentForm, g: PaymentForm, now: Timestamp)
    requires f.(cardNumber := g.cardNumber) == g
    requires |StripNonDigits(f.cardNumber)| == |StripNonDigits(g.cardNumber)|
    ensures PaymentGate(isClosedNow, f, now) == PaymentGate(isClosedNow, g, now)
  {
  }

  lemma {:induction false} LuhnSumOfZeros(s: string, i: nat)
    requires i <= |s| && forall j :: i <= j < |s| ==> s[j] == '0'
    ensures DigitsFrom(s, i) && LuhnSumFrom(s, i) == 0
    decreases |s| - i
  {
    if i < |s| {
      LuhnSumOfZeros(s, i + 1);
    }
  }

  /** "0000000000000001" is one digit away from the valid all-zero number,
      so it fails the check. */
  lemma LuhnOfSample()
    ensures IsLuhnValid("0000000000000000") && !IsLuhnValid("0000000000000001")
  {
    var zeros: string := "0000000000000000";
    var sample: string := "0000000000000001";
    LuhnSumOfZeros(zeros, 0);
    assert AllDigits(sample);
    SingleDigitErrorDetected(zeros, sample, 15);
  }

  // ----------------------------------------------------------- delivery gate

  datatype DeliveryForm = DeliveryForm(addressLine1: string, addressLine2: string, city: string, state: string,
                                       zip: string, contactName: string, contactPhone: string)

  const EmptyDeliveryForm := DeliveryForm("", "", "", "", "", "", "")

  datatype DeliveryFailure = VerificationFailed | InvalidPhone | EmptyCart | IncompleteAddress

  /** `handleDeliverySubmit`'s checks, in order; `verificationFails` is the
      outcome of the random draw. None lets the order be posted. */
  function DeliveryGate(verificationFails: bool, form: DeliveryForm, cart: seq<CartItem>): (r: Option<DeliveryFailure>)
    ensures r.None? <==> && !verificationFails && JsLength(form.contactPhone) == 10 && cart != []
                         && form.addressLine1 != "" && form.city != "" && form.state != ""
  {
    if verificationFails then Some(VerificationFailed)
    else if form.contactPhone == "" || JsLength(form.contactPhone) != 10 then Some(InvalidPhone)
    else if cart == [] then Some(EmptyCart)
    else if form.addressLine1 == "" || form.city == "" || form.state == "" then Some(IncompleteAddress)
    else None
  }

  /** Which check reports the failure: each exactly when every check before
      it passed and its own fails, so the phone is checked before the cart. */
  lemma DeliveryGateReported(verificationFails: bool, form: DeliveryForm, cart: seq<CartItem>)
    ensures var r, phoneOk := DeliveryGate(verificationFails, form, cart), JsLength(form.contactPhone) == 10;
            && (r == Some(VerificationFailed) <==> verificationFails)
            && (r == Some(InvalidPhone) <==> !verificationFails && !phoneOk)
            && (r == Some(EmptyCart) <==> !verificationFails && phoneOk && cart == [])
            && (r == Some(IncompleteAddress) <==> && !verificationFails && phoneOk && cart != []
                                                  && (form.addressLine1 == "" || form.city == "" || form.state == ""))
  {
  }

  /** The confirmation's address line: `line1[, line2], city, state[ zip]`. */
  function DeliveryAddress(form: DeliveryForm): string
  {
    form.addressLine1
    + (if form.addressLine2 != "" then ", " + form.addressLine2 else "")
    + ", " + form.city + ", " + form.state
    + (if form.zip != "" then " " + form.zip else "")
  }

  predicate CommaFree(form: DeliveryForm)
  {
    && ',' !in form.addressLine1 && ',' !in form.addressLine2 && ',' !in form.city
    && ',' !in form.state && ',' !in form.zip
  }

  /** The zip as the address line appends it: after a space, or nothing. */
  function ZipPart(zip: string): string
  {
    if zip != "" then " " + zip else ""
  }

  /** With comma-free parts, the comma-separated fields of the address line
      are line 1, then line 2 when given, then city, then state with the zip;
      each field after the first keeps the space that follows its comma. */
  lemma AddressFields(form: DeliveryForm)
    requires CommaFree(form)
    ensures Field(DeliveryAddress(form), ',', 0) == Some(form.addressLine1)
    ensures Field(DeliveryAddress(form), ',', 3).Some? <==> form.addressLine2 != ""
    ensures form.addressLine2 != "" ==>
              && Field(DeliveryAddress(form), ',', 1) == Some(" " + form.addressLine2)
              && Field(DeliveryAddress(form), ',', 2) == Some(" " + form.city)
              && Field(DeliveryAddress(form), ',', 3) == Some(" " + form.state + ZipPart(form.zip))
              && Field(DeliveryAddress(form), ',', 4).None?
    ensures form.addressLine2 == "" ==>
              && Field(DeliveryAddress(form), ',', 1) == Some(" " + form.city)
              && Field(DeliveryAddress(form), ',', 2) == Some(" " + form.state + ZipPart(form.zip))
              && Field(DeliveryAddress(form), ',', 3).None?
  {
    var zipPart := ZipPart(form.zip);
    var tail := " " + form.city + [','] + (" " + form.state + zipPart);
    if form.addressLine2 != "" {
      var line2 := " " + form.addressLine2;
      assert DeliveryAddress(form) == form.addressLine1 + [','] + (line2 + [','] + tail);
      AddressFieldsWith(form.addressLine1, line2, " " + form.city, " " + form.state + zipPart);
    } else {
      assert DeliveryAddress(form) == form.addressLine1 + [','] + tail;
      AddressFieldsWithout(form.addressLine1, " " + form.city, " " + form.state + zipPart);
    }
  }

  lemma AddressFieldsWith(line1: string, line2: string, city: string, state: string)
    requires ',' !in line1 && ',' !in line2 && ',' !in city && ',' !in state
    ensures var addr := line1 + [','] + (line2 + [','] + (city + [','] + state));
            && Field(addr, ',', 0) == Some(line1) && Field(addr, ',', 1) == Some(line2)
            && Field(addr, ',', 2) == Some(city) && Field(addr, ',', 3) == Some(state)
            && Field(addr, ',', 4).None?
  {
    var rest := line2 + [','] + (city + [','] + state);
    BeforeSepOfFree(line1, [','] + rest, ',');
    assert line1 + [','] + rest == line1 + ([','] + rest);
    FieldJoin(line1, rest, ',', 0);
    FieldJoin(line1, rest, ',', 1);
    FieldJoin(line1, rest, ',', 2);
    FieldJoin(line1, rest, ',', 3);
    AddressFieldsWithout(line2, city, state);
  }

  lemma AddressFieldsWithout(line1: string, city: string, state: string)
    requires ',' !in line1 && ',' !in city && ',' !in state
    ensures var addr := line1 + [','] + (city + [','] + state);
            && Field(addr, ',', 0) == Some(line1) && Field(addr, ',', 1) == Some(city)
            && Field(addr, ',', 2) == Some(state) && Field(addr, ',', 3).None?
  {
    var rest := city + [','] + state;
    BeforeSepOfFree(line1, [','] + rest, ',');
    assert line1 + [','] + rest == line1 + ([','] + rest);
    FieldJoin(line1, rest, ',', 0);
    FieldJoin(line1, rest, ',', 1);
    FieldJoin(line1, rest, ',', 2);
    AddressTail(city, state);
  }

  /** The last two fields, `city,state`, split into exactly two. */
  lemma AddressTail(city: string, state: string)
    requires ',' !in city && ',' !in state
    ensures Field(city + [','] + state, ',', 0) == Some(city)
    ensures Field(city + [','] + state, ',', 1) == Some(state)
    ensures Field(city + [','] + state, ',', 2).None?
  {
    BeforeSepOfFree(city, [','] + state, ',');
    assert city + [','] + state == city + ([','] + state);
    FieldJoin(city, state, ',', 0);
    FieldJoin(city, state, ',', 1);
    BeforeSepOfFree(state, [], ',');
    assert state + [] == state;
  }

  /** `cartItems.map(item => ({ itemId, quantity }))`. */
  function RequestItems(cart: seq<CartItem>): (items: seq<OrderItem>)
    ensures |items| == |cart|
    ensures forall i :: 0 <= i < |cart| ==> items[i] == OrderItem(Some(cart[i].itemId), cart[i].quantity)
  {
    seq(|cart|, i requires 0 <= i < |cart| => OrderItem(Some(cart[i].itemId), cart[i].quantity))
  }

  /** The body posted to `createOrder`; the restaurant is the first line's. */
  function BuildOrderRequest(cart: seq<CartItem>, tipAmount: real, form: DeliveryForm): CreateOrderRequest
    requires cart != []
  {
    CreateOrderRequest(
      Some(cart[0].restaurantName),
      Some(RequestItems(cart)),
      Some(DeliveryDetails(Some(form.addressLine1), Some(form.addressLine2), Some(form.city), Some(form.state),
                           Some(form.zip), Some(form.contactName), Some(form.contactPhone))),
      Some(tipAmount))
  }

  /** What the page posts after its gate passes meets the server's top-level
      validation (given a restaurant name with a visible character), names
      every cart line's id and quantity in cart order, and carries a phone the
      server's pattern accepts, since the phone field keeps only digits. */
  lemma GatePassedRequestIsValid(cart: seq<CartItem>, tipAmount: real, form: DeliveryForm, typedPhone: string)
    requires form.contactPhone == StripNonDigits(typedPhone)
    requires DeliveryGate(false, form, cart).None?
    requires exists i :: 0 <= i < |cart[0].restaurantName| && cart[0].restaurantName[i] > ' '
    ensures var r := BuildOrderRequest(cart, tipAmount, form);
            && ValidTopLevel(r)
            && ItemIds(r.items.value) == seq(|cart|, i requires 0 <= i < |cart| => Some(cart[i].itemId))
            && NotBlank(r.delivery.value.contactPhone) && MatchesPhonePattern(r.delivery.value.contactPhone)
  {
    JsLengthOfDigits(form.contactPhone);
    ValidPhoneIsTenDigits(Some(form.contactPhone));
  }

  // ----------------------------------------------------------- page state

  datatype OrderConfirmation = OrderConfirmation(
    orderNumber: string, restaurantName: string, items: seq<CartItem>, subtotal: real, serviceCharge: real,
    tips: real, grandTotal: real, deliveryAddress: string, contactName: string, contactPhone: string)

  datatype DeliveryOutcome =
    | Rejected(failure: DeliveryFailure)
    | OrderFailed(message: string)
    | Confirmed(details: OrderConfirmation)

  const DefaultOrderError: string := "Unable to place order. Please try again."

  /** `String(n)` for an integer. */
  function IntToString(n: int): (s: string)
    ensures n >= 0 ==> s == NatToString(n)
  {
    if n >= 0 then NatToString(n) else "-" + NatToString(-n)
  }

  /** The confirmation built from the server's response and the form. */
  function Confirmation(cart: seq<CartItem>, form: DeliveryForm, response: CreateOrderResponse): OrderConfirmation
    requires cart != []
  {
    OrderConfirmation(IntToString(response.orderNumber), cart[0].restaurantName, cart, response.subtotal,
                      response.serviceCharge, response.tipAmount, response.grandTotal, DeliveryAddress(form),
                      form.contactName, form.contactPhone)
  }

  class CheckoutSession {
    const cartItems: seq<CartItem>
    var hours: seq<HoursEntry>
    var tipAmountInput: string
    var paymentForm: PaymentForm
    var deliveryForm: DeliveryForm
    var isClosedNow: Option<string>
    var showDeliveryForm: bool
    var isSubmitting: bool

    constructor (cartItems: seq<CartItem>, hours: seq<HoursEntry>)
      ensures this.cartItems == cartItems && this.hours == hours
      ensures tipAmountInput == "" && paymentForm == EmptyPaymentForm && deliveryForm == EmptyDeliveryForm
      ensures isClosedNow.None? && !showDeliveryForm && !isSubmitting
    {
      this.cartItems := cartItems;
      this.hours := hours;
      tipAmountInput := "";
      paymentForm := EmptyPaymentForm;
      deliveryForm := EmptyDeliveryForm;
      isClosedNow := None;
      showDeliveryForm := false;
      isSubmitting := false;
    }

    function Totals(): Totals
      reads this
    {
      PageTotals(cartItems, tipAmountInput)
    }

    /** `handleTipOptionSelect`: the preset amount written with two decimals,
      which then highlights that preset. */
    method SelectTipOption(percentage: nat)
      modifies this`tipAmountInput
      ensures tipAmountInput == ToFixed2(PresetTip(Subtotal(cartItems), percentage))
      ensures IsTipOptionSelected(tipAmountInput, Subtotal(cartItems), percentage)
      ensures Totals().tip == Round2(PresetTip(Subtotal(cartItems), percentage))
    {
      tipAmountInput := ToFixed2(PresetTip(Subtotal(cartItems), percentage));
      SelectedAfterSelect(Subtotal(cartItems), percentage);
      ParseToFixed2(PresetTip(Subtotal(cartItems), percentage));
      assert TipAmount(tipAmountInput) == Round2(PresetTip(Subtotal(cartItems), percentage));
    }

    /** Typing into the payment form; the card number and security code keep
        only their digits. */
    method EditPaymentForm(typed: PaymentForm)
      modifies this`paymentForm
      ensures paymentForm == typed.(cardNumber := StripNonDigits(typed.cardNumber),
                                    securityCode := StripNonDigits(typed.securityCode))
      ensures AllDigits(paymentForm.cardNumber) && AllDigits(paymentForm.securityCode)
    {
      paymentForm := typed.(cardNumber := StripNonDigits(typed.cardNumber),
                            securityCode := StripNonDigits(typed.securityCode));
    }

    /** Typing into the delivery form; the phone keeps only its digits. */
    method EditDeliveryForm(typed: DeliveryForm)
      modifies this`deliveryForm
      ensures deliveryForm == typed.(contactPhone := StripNonDigits(typed.contactPhone))
      ensures AllDigits(deliveryForm.contactPhone)
    {
      deliveryForm := typed.(contactPhone := StripNonDigits(typed.contactPhone));
    }

    /** The hours were loaded: the closed message is recomputed from them and
        the clock at that moment. Only a change of hours triggers this, so the
        message is not refreshed as time passes. */
    method RefreshClosed(newHours: seq<HoursEntry>, dayName: string, nowMinutes: int)
      modifies this`hours, this`isClosedNow
      ensures hours == newHours
      ensures isClosedNow == ClosedNowMessage(newHours, dayName, nowMinutes)
    {
      hours := newHours;
      isClosedNow := ClosedNowMessage(hours, dayName, nowMinutes);
    }

    /** `handlePaymentSubmit`: the delivery form opens exactly when every
        check passes. */
    method SubmitPayment(now: Timestamp) returns (failure: Option<PaymentFailure>)
      modifies this`showDeliveryForm
      ensures failure == PaymentGate(isClosedNow, paymentForm, now)
      ensures showDeliveryForm == (old(showDeliveryForm) || failure.None?)
    {
      failure := PaymentGate(isClosedNow, paymentForm, now);
      if failure.None? {
        showDeliveryForm := true;
      }
    }

    /** `handleDeliverySubmit`: `verificationFails` is the random draw and
        `reply` the server's answer to the request, if one is sent. */
    method SubmitDelivery(verificationFails: bool, reply: Result<CreateOrderResponse, string>)
      returns (sent: Option<CreateOrderRequest>, outcome: DeliveryOutcome)
      modifies this`isSubmitting
      ensures DeliveryGate(verificationFails, deliveryForm, cartItems).Some? ==>
                sent.None? && isSubmitting == old(isSubmitting) && outcome == Rejected(DeliveryGate(verificationFails, deliveryForm, cartItems).value)
      ensures DeliveryGate(verificationFails, deliveryForm, cartItems).None? ==>
                && cartItems != [] && !isSubmitting
                && sent == Some(BuildOrderRequest(cartItems, Totals().tip, deliveryForm))
                && (reply.Success? ==> outcome == Confirmed(Confirmation(cartItems, deliveryForm, reply.value)))
                && (reply.Failure? ==> outcome == OrderFailed(if reply.error != "" then reply.error else DefaultOrderError))
    {
      var gate := DeliveryGate(verificationFails, deliveryForm, cartItems);
      if gate.Some? {
        return None, Rejected(gate.value);
      }
      isSubmitting := true;
      sent := Some(BuildOrderRequest(cartItems, TipAmount(tipAmountInput), deliveryForm));
      match reply {
        case Success(response) =>
          outcome := Confirmed(Confirmation(cartItems, deliveryForm, response));
        case Failure(message) =>
          outcome := OrderFailed(if message != "" then message else DefaultOrderError);
      }
      isSubmitting := false;
    }
  }
}
