/** The staff member's dashboard (src/components/StaffDashboard.tsx): the
    order lists it derives by status, the badge a status gets, the rule a
    new password must meet, and the per-order updates after assigning a
    driver or recording a delivery. The orders list is a field of a `Desk`
    object that the handlers replace; whether the awaited backend call
    succeeds is a parameter, and the clock's date and time strings are
    passed in. */
module StaffDashboard {
  import opened Common
  import Auth

  const InProgress: string := "In Progress"
  const AssignedDriver: string := "AssignedDriver"
  const Delivered: string := "Delivered"

  datatype OrderSummary = OrderSummary(orderNumber: int, restName: string, driverName: Option<string>,
                                       orderStatus: string, orderDate: string, orderTime: string,
                                       deliveryDate: Option<string>, deliveryTime: Option<string>)

  // ------------------------------------------------------------ filters

  /** `orders.filter(o => o.orderStatus === status)`. */
  function WithStatus(orders: seq<OrderSummary>, status: string): (r: seq<OrderSummary>)
    ensures forall o :: o in r <==> o in orders && o.orderStatus == status
    ensures |r| <= |orders|
  {
    if orders == [] then []
    else (if orders[0].orderStatus == status then [orders[0]] else []) + WithStatus(orders[1..], status)
  }

  /** The filter keeps the orders' order: filtering a concatenation filters
      each part. */
  lemma {:induction false} WithStatusAppend(a: seq<OrderSummary>, b: seq<OrderSummary>, status: string)
    ensures WithStatus(a + b, status) == WithStatus(a, status) + WithStatus(b, status)
  {
    if a == [] {
      assert a + b == b;
    } else {
      var head := if a[0].orderStatus == status then [a[0]] else [];
      assert (a + b)[0] == a[0];
      assert (a + b)[1..] == a[1..] + b;
      WithStatusAppend(a[1..], b, status);
      ConsAppend(head, WithStatus(a + b, status), WithStatus(a[1..] + b, status), WithStatus(a, status),
                 WithStatus(a[1..], status), WithStatus(b, status));
    }
  }

  /** Each order with the status is kept as often as it occurs, and no
      other order is. */
  lemma {:induction false} WithStatusCounts(orders: seq<OrderSummary>, status: string, o: OrderSummary)
    ensures multiset(WithStatus(orders, status))[o] == if o.orderStatus == status then multiset(orders)[o] else 0
  {
    if orders != [] {
      WithStatusCounts(orders[1..], status, o);
      assert orders == [orders[0]] + orders[1..];
    }
  }

  function PendingOrders(orders: seq<OrderSummary>): seq<OrderSummary>
  {
    WithStatus(orders, InProgress)
  }

  function AssignedOrders(orders: seq<OrderSummary>): seq<OrderSummary>
  {
    WithStatus(orders, AssignedDriver)
  }

  /** No order is both pending and assigned, and together the two lists
      hold no more orders than there are. */
  lemma {:induction false} PendingAndAssignedDisjoint(orders: seq<OrderSummary>)
    ensures forall o :: o in PendingOrders(orders) ==> o !in AssignedOrders(orders)
    ensures |PendingOrders(orders)| + |AssignedOrders(orders)| <= |orders|
  {
    if orders != [] {
      PendingAndAssignedDisjoint(orders[1..]);
    }
  }

  // ------------------------------------------------------------ statusClass

  /** The four badge styles. */
  datatype Badge = DeliveredBadge | AssignedBadge | ProgressBadge | NeutralBadge

  function BadgeClasses(b: Badge): string
  {
    match b
    case DeliveredBadge => "bg-green-100 text-green-800"
    case AssignedBadge => "bg-blue-100 text-blue-800"
    case ProgressBadge => "bg-yellow-100 text-yellow-900"
    case NeutralBadge => "bg-gray-200 text-gray-800"
  }

  /** `statusClass`: a missing status reads as ""; the lower-cased status is
      searched for "delivered", then "assigned", then "progress". */
  function StatusClass(status: Option<string>): (b: Badge)
    ensures var s := ToLower(if status.None? then "" else status.value);
            && (b == DeliveredBadge <==> Contains(s, "delivered"))
            && (b == AssignedBadge <==> !Contains(s, "delivered") && Contains(s, "assigned"))
            && (b == ProgressBadge <==> !Contains(s, "delivered") && !Contains(s, "assigned") && Contains(s, "progress"))
  {
    var s := ToLower(if status.None? then "" else status.value);
    if Contains(s, "delivered") then DeliveredBadge
    else if Contains(s, "assigned") then AssignedBadge
    else if Contains(s, "progress") then ProgressBadge
    else NeutralBadge
  }

  /** Where `sub` could start, `s` never has `sub`'s first character, so `s`
      does not contain `sub`. */
  lemma {:induction false} NotContainedByFirstChar(s: string, sub: string)
    requires sub != []
    requires forall k :: 0 <= k && k + |sub| <= |s| ==> s[k] != sub[0]
    ensures !Contains(s, sub)
  {
    if |sub| <= |s| {
      assert s[..|sub|][0] == s[0] != sub[0];
    }
    if s != [] {
      assert forall k :: 0 <= k && k + |sub| <= |s[1..]| ==> s[1..][k] == s[k + 1];
      NotContainedByFirstChar(s[1..], sub);
    }
  }

  /** The three statuses the backend writes get three different badges,
      and a missing status the neutral one. */
  lemma StatusBadges()
    ensures StatusClass(Some(InProgress)) == ProgressBadge
    ensures StatusClass(Some(AssignedDriver)) == AssignedBadge
    ensures StatusClass(Some(Delivered)) == DeliveredBadge
    ensures StatusClass(None) == NeutralBadge
  {
    InProgressBadge();
    AssignedDriverBadge();
    DeliveredStatusBadge();
    NotContainedByFirstChar("", "delivered");
    NotContainedByFirstChar("", "assigned");
    NotContainedByFirstChar("", "progress");
  }

  lemma InProgressBadge()
    ensures StatusClass(Some(InProgress)) == ProgressBadge
  {
    var p := ToLower(InProgress);
    assert p == "in progress";
    NotContainedByFirstChar(p, "delivered");
    NotContainedByFirstChar(p, "assigned");
    assert StartsWith(p[3..], "progress");
    assert Contains(p[2..], "progress") && Contains(p[1..], "progress");
  }

  lemma AssignedDriverBadge()
    ensures StatusClass(Some(AssignedDriver)) == AssignedBadge
  {
    var a := ToLower(AssignedDriver);
    assert a == "assigneddriver";
    NotContainedByFirstChar(a, "delivered");
    assert StartsWith(a, "assigned");
  }

  lemma DeliveredStatusBadge()
    ensures StatusClass(Some(Delivered)) == DeliveredBadge
  {
    var d := ToLower(Delivered);
    assert d == "delivered";
    assert StartsWith(d, "delivered");
  }

  // ------------------------------------------------------------ password rule

  datatype PasswordForm = PasswordForm(current: string, newPassword: string, confirm: string)

  const EmptyPasswordForm := PasswordForm("", "", "")

  datatype PasswordError = Mismatch | TooShort | MissingCharacterClass | CurrentRequired | UsernameMissing

  predicate HasUpper(s: string) { exists i :: 0 <= i < |s| && 'A' <= s[i] <= 'Z' }

  predicate HasLower(s: string) { exists i :: 0 <= i < |s| && 'a' <= s[i] <= 'z' }

  predicate HasDigit(s: string) { exists i :: 0 <= i < |s| && IsDigit(s[i]) }

  /** The checks of `handlePasswordChange`, in order; `username` is absent
      or empty when the page was opened without one. */
  function PasswordChangeError(form: PasswordForm, username: Option<string>): (r: Option<PasswordError>)
    ensures r.None? <==>
              && form.newPassword == form.confirm
              && JsLength(form.newPassword) >= 6
              && HasUpper(form.newPassword) && HasLower(form.newPassword) && HasDigit(form.newPassword)
              && form.current != ""
              && username.Some? && username.value != ""
    ensures r == Some(Mismatch) <==> form.newPassword != form.confirm
  {
    if form.newPassword != form.confirm then Some(Mismatch)
    else if JsLength(form.newPassword) < 6 then Some(TooShort)
    else if !(HasUpper(form.newPassword) && HasLower(form.newPassword) && HasDigit(form.newPassword)) then Some(MissingCharacterClass)
    else if form.current == "" then Some(CurrentRequired)
    else if username.None? || username.value == "" then Some(UsernameMissing)
    else None
  }

  /** Which check reports the failure: each error exactly when every check
      before it passed and its own fails, in the page's order. */
  lemma PasswordChangeErrorReported(form: PasswordForm, username: Option<string>)
    ensures var pw, r := form.newPassword, PasswordChangeError(form, username);
            var classes := HasUpper(pw) && HasLower(pw) && HasDigit(pw);
            && (r == Some(TooShort) <==> pw == form.confirm && JsLength(pw) < 6)
            && (r == Some(MissingCharacterClass) <==> pw == form.confirm && JsLength(pw) >= 6 && !classes)
            && (r == Some(CurrentRequired) <==> pw == form.confirm && JsLength(pw) >= 6 && classes && form.current == "")
            && (r == Some(UsernameMissing) <==> pw == form.confirm && JsLength(pw) >= 6 && classes && form.current != ""
                                                && (username.None? || username.value == ""))
  {
  }

  /** The rule does not stop a new password that is itself temporary: the
      backend will then ask for another change at the next login. */
  lemma TemporaryPasswordPassesRule()
    ensures PasswordChangeError(PasswordForm("old", "temp-Ab1", "temp-Ab1"), Some("sam")).None?
    ensures Auth.IsTemporary("temp-Ab1")
  {
    var pw := "temp-Ab1";
    assert 'A' <= pw[5] <= 'Z' && 'a' <= pw[0] <= 'z' && IsDigit(pw[7]);
    assert pw[..5] == "temp-";
  }

  // ------------------------------------------------------------ order updates

  /** The orders after `assignDriver` succeeds. */
  function WithDriver(orders: seq<OrderSummary>, orderNumber: int, driverName: string): (r: seq<OrderSummary>)
    ensures |r| == |orders|
    ensures forall i :: 0 <= i < |orders| && orders[i].orderNumber != orderNumber ==> r[i] == orders[i]
    ensures forall i :: 0 <= i < |orders| && orders[i].orderNumber == orderNumber ==>
              r[i] == orders[i].(driverName := Some(driverName), orderStatus := AssignedDriver)
  {
    seq(|orders|, i requires 0 <= i < |orders| =>
      if orders[i].orderNumber == orderNumber then orders[i].(driverName := Some(driverName), orderStatus := AssignedDriver)
      else orders[i])
  }

  /** The orders after `recordDelivery` succeeds. */
  function WithDelivery(orders: seq<OrderSummary>, orderNumber: int, date: string, time: string): (r: seq<OrderSummary>)
    ensures |r| == |orders|
    ensures forall i :: 0 <= i < |orders| && orders[i].orderNumber != orderNumber ==> r[i] == orders[i]
    ensures forall i :: 0 <= i < |orders| && orders[i].orderNumber == orderNumber ==>
              r[i] == orders[i].(orderStatus := Delivered, deliveryDate := Some(date), deliveryTime := Some(time))
  {
    seq(|orders|, i requires 0 <= i < |orders| =>
      if orders[i].orderNumber == orderNumber
      then orders[i].(orderStatus := Delivered, deliveryDate := Some(date), deliveryTime := Some(time))
      else orders[i])
  }

  predicate ListsOrder(list: seq<OrderSummary>, orderNumber: int)
  {
    exists i :: 0 <= i < |list| && list[i].orderNumber == orderNumber
  }

  /** Assigning moves the order out of the pending list into the assigned
      list and leaves every other order's place as it was. */
  lemma AssignMovesOrder(orders: seq<OrderSummary>, orderNumber: int, driverName: string)
    requires ListsOrder(orders, orderNumber)
    ensures var after := WithDriver(orders, orderNumber, driverName);
            && !ListsOrder(PendingOrders(after), orderNumber)
            && ListsOrder(AssignedOrders(after), orderNumber)
            && (forall o :: o in orders && o.orderNumber != orderNumber ==>
                  (o in PendingOrders(orders) <==> o in PendingOrders(after)))
  {
    var after := WithDriver(orders, orderNumber, driverName);
    forall o | o in after && o.orderNumber == orderNumber ensures o.orderStatus == AssignedDriver {
      var n :| 0 <= n < |after| && after[n] == o;
    }
    assert InProgress != AssignedDriver;
    NoOrderWithNumber(PendingOrders(after), after, orderNumber, AssignedDriver);
    var k :| 0 <= k < |orders| && orders[k].orderNumber == orderNumber;
    assert after[k] in AssignedOrders(after);
    MemberListed(AssignedOrders(after), after[k]);
    OthersKeepPending(orders, orderNumber, driverName);
  }

  lemma OthersKeepPending(orders: seq<OrderSummary>, orderNumber: int, driverName: string)
    ensures var after := WithDriver(orders, orderNumber, driverName);
            forall o :: o in orders && o.orderNumber != orderNumber ==>
              (o in PendingOrders(orders) <==> o in PendingOrders(after))
  {
    var after := WithDriver(orders, orderNumber, driverName);
    forall o | o in orders && o.orderNumber != orderNumber
      ensures o in PendingOrders(orders) <==> o in PendingOrders(after)
    {
      var i :| 0 <= i < |orders| && orders[i] == o;
      assert after[i] == o;
    }
  }

  lemma MemberListed(list: seq<OrderSummary>, o: OrderSummary)
    requires o in list
    ensures ListsOrder(list, o.orderNumber)
  {
    var m :| 0 <= m < |list| && list[m] == o;
  }

  /** A delivered order leaves both lists. */
  lemma DeliveryClearsOrder(orders: seq<OrderSummary>, orderNumber: int, date: string, time: string)
    ensures var after := WithDelivery(orders, orderNumber, date, time);
            && !ListsOrder(PendingOrders(after), orderNumber)
            && !ListsOrder(AssignedOrders(after), orderNumber)
  {
    var after := WithDelivery(orders, orderNumber, date, time);
    forall o | o in after && o.orderNumber == orderNumber ensures o.orderStatus == Delivered {
      var n :| 0 <= n < |after| && after[n] == o;
    }
    assert InProgress != Delivered && AssignedDriver != Delivered;
    NoOrderWithNumber(PendingOrders(after), after, orderNumber, Delivered);
    NoOrderWithNumber(AssignedOrders(after), after, orderNumber, Delivered);
  }

  /** A list drawn from `all` without status `status` holds no order
      numbered `orderNumber` when every such order in `all` has that
      status. */
  lemma NoOrderWithNumber(list: seq<OrderSummary>, all: seq<OrderSummary>, orderNumber: int, status: string)
    requires forall o :: o in list ==> o in all && o.orderStatus != status
    requires forall o :: o in all && o.orderNumber == orderNumber ==> o.orderStatus == status
    ensures !ListsOrder(list, orderNumber)
  {
  }

  // ------------------------------------------------------------ drivers

  datatype DriverRow = DriverRow(name: string, status: string)

  /** `drivers.filter(d => d.status === "Active").length`. */
  function AvailableDriverCount(drivers: seq<DriverRow>): (n: nat)
    ensures n <= |drivers|
    ensures n == |drivers| <==> forall i :: 0 <= i < |drivers| ==> drivers[i].status == "Active"
    ensures n == 0 <==> forall i :: 0 <= i < |drivers| ==> drivers[i].status != "Active"
  {
    if drivers == [] then 0
    else
      var rest := AvailableDriverCount(drivers[1..]);
      assert forall i :: 1 <= i < |drivers| ==> drivers[i] == drivers[1..][i - 1];
      (if drivers[0].status == "Active" then 1 else 0) + rest
  }

  /** The drivers' statuses, in roster order. */
  function Statuses(drivers: seq<DriverRow>): (r: seq<string>)
    ensures |r| == |drivers| && forall i :: 0 <= i < |drivers| ==> r[i] == drivers[i].status
  {
    seq(|drivers|, i requires 0 <= i < |drivers| => drivers[i].status)
  }

  /** The count is how often "Active" occurs among the statuses. */
  lemma {:induction false} AvailableDriverCountIsOccurrences(drivers: seq<DriverRow>)
    ensures AvailableDriverCount(drivers) == multiset(Statuses(drivers))["Active"]
  {
    if drivers != [] {
      AvailableDriverCountIsOccurrences(drivers[1..]);
      assert Statuses(drivers) == [drivers[0].status] + Statuses(drivers[1..]);
    }
  }

  // ------------------------------------------------------------ the page

  /** What `changePassword` is sent; the user type is always staff. */
  datatype ChangePasswordRequest = ChangePasswordRequest(username: string, oldPassword: string, newPassword: string,
                                                         userType: string)

  class Desk {
    var orders: seq<OrderSummary>
    var passwordForm: PasswordForm
    var isFirstLogin: bool
    const username: Option<string>

    constructor (username: Option<string>, orders: seq<OrderSummary>)
      ensures this.username == username && this.orders == orders
      ensures passwordForm == EmptyPasswordForm && !isFirstLogin
    {
      this.username := username;
      this.orders := orders;
      passwordForm := EmptyPasswordForm;
      isFirstLogin := false;
    }

    method EditPasswordForm(form: PasswordForm)
      modifies this`passwordForm
      ensures passwordForm == form
    {
      passwordForm := form;
    }

    /** `handlePasswordChange`. */
    method ChangePassword(apiSucceeds: bool) returns (error: Option<PasswordError>, sent: Option<ChangePasswordRequest>)
      modifies this`passwordForm, this`isFirstLogin
      ensures error == PasswordChangeError(old(passwordForm), username)
      ensures sent.Some? <==> error.None?
      ensures sent.Some? ==>
                sent.value == ChangePasswordRequest(username.value, old(passwordForm).current, old(passwordForm).newPassword, "staff")
      ensures if sent.Some? && apiSucceeds then passwordForm == EmptyPasswordForm && !isFirstLogin
              else passwordForm == old(passwordForm) && isFirstLogin == old(isFirstLogin)
    {
      error := PasswordChangeError(passwordForm, username);
      if error.Some? {
        return error, None;
      }
      sent := Some(ChangePasswordRequest(username.value, passwordForm.current, passwordForm.newPassword, "staff"));
      if apiSucceeds {
        passwordForm := EmptyPasswordForm;
        isFirstLogin := false;
      }
    }

    /** `assignDriver`: an empty driver name is refused before any call. */
    method AssignDriver(orderNumber: int, driverName: string, apiSucceeds: bool) returns (sent: bool)
      modifies this`orders
      ensures sent <==> driverName != ""
      ensures orders == if sent && apiSucceeds then WithDriver(old(orders), orderNumber, driverName) else old(orders)
    {
      if driverName == "" {
        return false;
      }
      sent := true;
      if apiSucceeds {
        orders := WithDriver(orders, orderNumber, driverName);
      }
    }

    /** `recordDelivery`, with the clock's date and time passed in. */
    method RecordDelivery(orderNumber: int, date: string, time: string, apiSucceeds: bool)
      modifies this`orders
      ensures orders == if apiSucceeds then WithDelivery(old(orders), orderNumber, date, time) else old(orders)
    {
      if apiSucceeds {
        orders := WithDelivery(orders, orderNumber, date, time);
      }
    }
  }
}
