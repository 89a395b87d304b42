/** The administrator's dashboard (src/components/AdminDashboard.tsx): the
    12-hour clock text for opening hours, the list of pending restaurant
    registrations, and the staff and driver rosters with their add and
    status-toggle rules. The lists are fields of a `Dashboard` object that
    each handler replaces; the backend calls a handler awaits are an
    outcome parameter (`apiSucceeds`), and the request it sends is an
    out-parameter. */
module AdminDashboard {
  import opened Common

  // ------------------------------------------------------------ formatTime

  datatype Period = AM | PM

  /** `hours >= 12 ? 'PM' : 'AM'`; NaN compares false. */
  function PeriodOf(hours: Option<nat>): Period
  {
    if hours.Some? && hours.value >= 12 then PM else AM
  }

  /** `hours % 12`, with 0 shown as 12. */
  function DisplayHour(h: nat): (d: nat)
    ensures 1 <= d <= 12
    ensures d % 12 == h % 12
  {
    if h % 12 == 0 then 12 else h % 12
  }

  function PeriodText(p: Period): string
  {
    match p
    case AM => "AM"
    case PM => "PM"
  }

  /** `${hours}:${minutes} ${period}`. */
  function RenderTime(hourText: string, minutes: string, period: Period): string
  {
    hourText + ":" + minutes + " " + PeriodText(period)
  }

  /** `formatTime`: the first field read with `Number`, the second copied as
      it is ("undefined" when there is none). */
  function FormatTime(time: string): string
  {
    var hours := JsNumber(BeforeSep(time, ':'));
    var minutes := match Field(time, ':', 1) case None => "undefined" case Some(m) => m;
    var hourText := match hours case None => "NaN" case Some(h) => NatToString(DisplayHour(h));
    RenderTime(hourText, minutes, PeriodOf(hours))
  }

  /** Reading a 12-hour clock back: 12 AM is midnight, 12 PM is noon. */
  function Hour24(displayHour: nat, period: Period): nat
  {
    match period
    case AM => if displayHour == 12 then 0 else displayHour
    case PM => if displayHour == 12 then 12 else displayHour + 12
  }

  /** The 12-hour text loses nothing for a time of day: hour and period
      give back the 24-hour hour. */
  lemma DisplayHourRoundTrip(h: nat)
    requires h < 24
    ensures Hour24(DisplayHour(h), PeriodOf(Some(h))) == h
  {
  }

  /** "hh:mm" with digit hours renders its hour on the 12-hour clock and its
      minutes verbatim. */
  lemma {:induction false} FormatClockTime(h: string, m: string)
    requires h != [] && AllDigits(h) && ':' !in m
    ensures FormatTime(h + ":" + m)
         == RenderTime(NatToString(DisplayHour(DigitsValue(h))), m, PeriodOf(Some(DigitsValue(h))))
  {
    var t := h + ":" + m;
    assert ':' !in h by {
      forall i | 0 <= i < |h| ensures h[i] != ':' {
        assert IsDigit(h[i]);
      }
    }
    assert t == h + [':'] + m;
    BeforeSepOfFree(h, [':'] + m, ':');
    assert h + [':'] + m == h + ([':'] + m);
    FieldJoin(h, m, ':', 0);
    BeforeSepOfFree(m, [], ':');
    assert m + [] == m;
    JsNumberOfDigits(h);
  }

  // ------------------------------------------------------------ pending

  datatype RestaurantApplication = RestaurantApplication(id: string, name: string, contactPerson: string,
                                                         email: string)

  predicate HasId(list: seq<RestaurantApplication>, id: string)
  {
    exists i :: 0 <= i < |list| && list[i].id == id
  }

  /** The incoming requests whose id is not already pending, in incoming
      order. */
  function Additions(prev: seq<RestaurantApplication>, incoming: seq<RestaurantApplication>): (r: seq<RestaurantApplication>)
    ensures forall a :: a in r ==> a in incoming && !HasId(prev, a.id)
    ensures forall a :: a in incoming && !HasId(prev, a.id) ==> a in r
  {
    if incoming == [] then []
    else (if HasId(prev, incoming[0].id) then [] else [incoming[0]]) + Additions(prev, incoming[1..])
  }

  /** The pending list after the merge: the additions in front, or the old
      list itself when there are none. */
  function Merge(prev: seq<RestaurantApplication>, incoming: seq<RestaurantApplication>): seq<RestaurantApplication>
  {
    var additions := Additions(prev, incoming);
    if additions == [] then prev else additions + prev
  }

  /** Merging the same requests again adds nothing and consumes nothing. */
  lemma MergeIdempotent(prev: seq<RestaurantApplication>, incoming: seq<RestaurantApplication>)
    ensures Additions(Merge(prev, incoming), incoming) == []
    ensures Merge(Merge(prev, incoming), incoming) == Merge(prev, incoming)
  {
    var merged := Merge(prev, incoming);
    var additions := Additions(prev, incoming);
    forall a | a in incoming ensures HasId(merged, a.id) {
      if HasId(prev, a.id) {
        var i :| 0 <= i < |prev| && prev[i].id == a.id;
        if additions != [] {
          assert merged[|additions| + i] == prev[i];
        }
      } else {
        var k :| 0 <= k < |additions| && additions[k] == a;
        assert merged[k] == a;
      }
    }
    AdditionsOfKnown(merged, incoming);
  }

  /** Requests whose ids are all pending add nothing. */
  lemma {:induction false} AdditionsOfKnown(prev: seq<RestaurantApplication>, incoming: seq<RestaurantApplication>)
    requires forall a :: a in incoming ==> HasId(prev, a.id)
    ensures Additions(prev, incoming) == []
  {
    if incoming != [] {
      assert incoming[0] in incoming;
      assert forall a :: a in incoming[1..] ==> a in incoming;
      AdditionsOfKnown(prev, incoming[1..]);
    }
  }

  /** `prev.filter(r => r.id !== id)`. */
  function WithoutId(prev: seq<RestaurantApplication>, id: string): (r: seq<RestaurantApplication>)
    ensures !HasId(r, id)
    ensures forall a :: a in r ==> a in prev
    ensures forall a :: a in prev && a.id != id ==> a in r
    ensures |r| <= |prev|
  {
    if prev == [] then []
    else (if prev[0].id == id then [] else [prev[0]]) + WithoutId(prev[1..], id)
  }

  /** The removal keeps the survivors in their order: removing from a
      concatenation removes from each part. */
  lemma {:induction false} WithoutIdAppend(a: seq<RestaurantApplication>, b: seq<RestaurantApplication>, id: string)
    ensures WithoutId(a + b, id) == WithoutId(a, id) + WithoutId(b, id)
  {
    if a == [] {
      assert a + b == b;
    } else {
      var head := if a[0].id == id then [] else [a[0]];
      assert (a + b)[0] == a[0];
      assert (a + b)[1..] == a[1..] + b;
      WithoutIdAppend(a[1..], b, id);
      ConsAppend(head, WithoutId(a + b, id), WithoutId(a[1..] + b, id), WithoutId(a, id), WithoutId(a[1..], id),
                 WithoutId(b, id));
    }
  }

  /** The additions keep the incoming order: the additions from a
      concatenation are those of each part. */
  lemma {:induction false} AdditionsAppend(prev: seq<RestaurantApplication>, a: seq<RestaurantApplication>,
                                           b: seq<RestaurantApplication>)
    ensures Additions(prev, a + b) == Additions(prev, a) + Additions(prev, b)
  {
    if a == [] {
      assert a + b == b;
    } else {
      assert (a + b)[0] == a[0];
      assert (a + b)[1..] == a[1..] + b;
      AdditionsAppend(prev, a[1..], b);
    }
  }

  /** Removing an id that is not pending leaves the list as it is. */
  lemma {:induction false} WithoutAbsentId(prev: seq<RestaurantApplication>, id: string)
    requires !HasId(prev, id)
    ensures WithoutId(prev, id) == prev
  {
    if prev != [] {
      assert prev[0].id != id;
      assert !HasId(prev[1..], id) by {
        forall i | 0 <= i < |prev[1..]| ensures prev[1..][i].id != id {
          assert prev[1..][i] == prev[i + 1];
        }
      }
      WithoutAbsentId(prev[1..], id);
      assert WithoutId(prev, id) == [prev[0]] + WithoutId(prev[1..], id);
      assert [prev[0]] + prev[1..] == prev;
    }
  }

  // ------------------------------------------------------------ staff

  datatype StaffMember = StaffMember(id: nat, name: string, username: string, role: string, status: string)

  datatype StaffForm = StaffForm(firstName: string, lastName: string, username: string, password: string)

  const EmptyStaffForm := StaffForm("", "", "", "")

  datatype AddStaffError = NamesRequired | NamesTooShort | NameNotUnique | CredentialsRequired

  /** What `createStaff` is sent. */
  datatype NewStaffRequest = NewStaffRequest(username: string, password: string, firstName: string, lastName: string)

  /** How names are compared for uniqueness: trimmed, in lower case. */
  function NameKey(name: string): string
  {
    ToLower(Trim(name))
  }

  function FullName(firstName: string, lastName: string): string
  {
    Trim(firstName + " " + lastName)
  }

  predicate StaffNameTaken(staff: seq<StaffMember>, fullName: string)
  {
    exists i :: 0 <= i < |staff| && NameKey(staff[i].name) == ToLower(fullName)
  }

  /** What `addStaff` accepts: trimmed names of at least two characters
      each, a full name no one on the roster has, and non-blank
      credentials. */
  predicate StaffFormAcceptable(form: StaffForm, staff: seq<StaffMember>)
  {
    && JsLength(Trim(form.firstName)) >= 2 && JsLength(Trim(form.lastName)) >= 2
    && !StaffNameTaken(staff, FullName(Trim(form.firstName), Trim(form.lastName)))
    && Trim(form.username) != [] && Trim(form.password) != []
  }

  /** The checks of `addStaff`, in order; None when the form passes. */
  function StaffFormError(form: StaffForm, staff: seq<StaffMember>): (r: Option<AddStaffError>)
    ensures r.None? <==> StaffFormAcceptable(form, staff)
  {
    var first := Trim(form.firstName);
    var last := Trim(form.lastName);
    if first == [] || last == [] then Some(NamesRequired)
    else if JsLength(first) < 2 || JsLength(last) < 2 then Some(NamesTooShort)
    else if StaffNameTaken(staff, FullName(first, last)) then Some(NameNotUnique)
    else if Trim(form.username) == [] || Trim(form.password) == [] then Some(CredentialsRequired)
    else None
  }

  /** Which message `addStaff` shows: each check's own, in the order the
      checks are made. */
  lemma StaffFormErrorReported(form: StaffForm, staff: seq<StaffMember>)
    ensures var first, last := Trim(form.firstName), Trim(form.lastName);
            var r := StaffFormError(form, staff);
            && (r == Some(NamesRequired) <==> first == [] || last == [])
            && (r == Some(NamesTooShort) <==> first != [] && last != [] && (JsLength(first) < 2 || JsLength(last) < 2))
            && (r == Some(NameNotUnique) <==> JsLength(first) >= 2 && JsLength(last) >= 2
                                              && StaffNameTaken(staff, FullName(first, last)))
            && (r == Some(CredentialsRequired) <==> JsLength(first) >= 2 && JsLength(last) >= 2
                                                    && !StaffNameTaken(staff, FullName(first, last))
                                                    && (Trim(form.username) == [] || Trim(form.password) == []))
  {
  }

  /** The body `createStaff` is sent: every field trimmed. */
  function StaffRequestOf(form: StaffForm): NewStaffRequest
  {
    NewStaffRequest(Trim(form.username), Trim(form.password), Trim(form.firstName), Trim(form.lastName))
  }

  /** The roster entry a successful add appends. */
  function NewStaffMember(form: StaffForm, count: nat): StaffMember
  {
    StaffMember(count + 1, FullName(Trim(form.firstName), Trim(form.lastName)), Trim(form.username), "staff", "active")
  }

  /** No two staff names agree once trimmed and lower-cased. */
  predicate UniqueStaffNames(staff: seq<StaffMember>)
  {
    forall i, j :: 0 <= i < j < |staff| ==> NameKey(staff[i].name) != NameKey(staff[j].name)
  }

  /** Ids rise along the roster and never run ahead of position + 1: true of
      the ids the roster is loaded with (its indices) and kept by every
      add, so ids stay distinct. */
  predicate StaffIdsAscending(staff: seq<StaffMember>)
  {
    && (forall i, j :: 0 <= i < j < |staff| ==> staff[i].id < staff[j].id)
    && (forall i :: 0 <= i < |staff| ==> staff[i].id <= i + 1)
  }

  /** A successful add keeps names unique. */
  lemma AddStaffKeepsNamesUnique(staff: seq<StaffMember>, form: StaffForm)
    requires UniqueStaffNames(staff)
    requires StaffFormError(form, staff).None?
    ensures UniqueStaffNames(staff + [NewStaffMember(form, |staff|)])
  {
    var added := NewStaffMember(form, |staff|);
    var full := FullName(Trim(form.firstName), Trim(form.lastName));
    TrimIdempotent(Trim(form.firstName) + " " + Trim(form.lastName));
    assert NameKey(added.name) == ToLower(full);
    var s' := staff + [added];
    forall i, j | 0 <= i < j < |s'| ensures NameKey(s'[i].name) != NameKey(s'[j].name) {
      if j == |staff| {
        assert s'[i] == staff[i];
        assert NameKey(staff[i].name) != ToLower(full);
      } else {
        assert s'[i] == staff[i] && s'[j] == staff[j];
      }
    }
  }

  /** Appending a member with id `|staff| + 1`, as a successful add does,
      keeps ids ascending. */
  lemma AddStaffKeepsIdsAscending(staff: seq<StaffMember>, added: StaffMember)
    requires StaffIdsAscending(staff)
    requires added.id == |staff| + 1
    ensures StaffIdsAscending(staff + [added])
  {
    var ids := seq(|staff|, i requires 0 <= i < |staff| => staff[i].id);
    IdsAscendingAppend(ids, |staff| + 1);
    var s' := staff + [added];
    assert forall i :: 0 <= i < |s'| ==> s'[i].id == (ids + [|staff| + 1])[i];
  }

  /** Appending `|ids| + 1` to ids that rise and stay at most position + 1
      keeps both properties. */
  lemma IdsAscendingAppend(ids: seq<nat>, next: nat)
    requires forall i, j :: 0 <= i < j < |ids| ==> ids[i] < ids[j]
    requires forall i :: 0 <= i < |ids| ==> ids[i] <= i + 1
    requires next == |ids| + 1
    ensures forall i, j :: 0 <= i < j < |ids + [next]| ==> (ids + [next])[i] < (ids + [next])[j]
    ensures forall i :: 0 <= i < |ids + [next]| ==> (ids + [next])[i] <= i + 1
  {
  }

  /** `nextStatus`: "active" turns "inactive", anything else "active"
      (the roster keeps the lower-cased form). */
  function NextStaffStatus(status: string): string
  {
    if status == "active" then "inactive" else "active"
  }

  function FindStaff(staff: seq<StaffMember>, id: nat): (r: Option<StaffMember>)
    ensures r.None? <==> forall i :: 0 <= i < |staff| ==> staff[i].id != id
    ensures r.Some? ==> r.value in staff && r.value.id == id
    ensures r.Some? ==> exists k :: 0 <= k < |staff| && staff[k] == r.value
                               && forall j :: 0 <= j < k ==> staff[j].id != id
  {
    if staff == [] then None
    else if staff[0].id == id then Some(staff[0])
    else
      var r := FindStaff(staff[1..], id);
      assert forall i :: 1 <= i < |staff| ==> staff[i] == staff[1..][i - 1];
      r
  }

  /** The roster after toggling `id`: every entry with that id takes the
      status that follows the first such entry's; the rest are untouched. */
  function ToggledStaff(staff: seq<StaffMember>, id: nat): (r: seq<StaffMember>)
    ensures |r| == |staff|
    ensures forall i :: 0 <= i < |staff| && staff[i].id != id ==> r[i] == staff[i]
    ensures FindStaff(staff, id).Some? ==>
              forall i :: 0 <= i < |staff| && staff[i].id == id ==>
                r[i] == staff[i].(status := NextStaffStatus(FindStaff(staff, id).value.status))
  {
    match FindStaff(staff, id)
    case None => staff
    case Some(target) =>
      var next := NextStaffStatus(target.status);
      seq(|staff|, i requires 0 <= i < |staff| => if staff[i].id == id then staff[i].(status := next) else staff[i])
  }

  /** With distinct ids, toggling an active or inactive member twice
      restores the roster. */
  lemma ToggleStaffTwice(staff: seq<StaffMember>, id: nat)
    requires StaffIdsAscending(staff)
    requires forall i :: 0 <= i < |staff| ==> Toggleable(staff[i].status)
    ensures ToggledStaff(ToggledStaff(staff, id), id) == staff
  {
    var once := ToggledStaff(staff, id);
    if k :| 0 <= k < |staff| && staff[k].id == id {
      StaffIdAt(staff, id, k);
      NextStaffStatusTwice(staff[k].status);
      assert FindStaff(once, id).value == once[k];
      var twice := ToggledStaff(once, id);
      forall j | 0 <= j < |staff| ensures twice[j] == staff[j] {
        if staff[j].id == id {
          assert j == k;
        }
      }
    }
  }

  predicate Toggleable(status: string)
  {
    status == "active" || status == "inactive"
  }

  lemma NextStaffStatusTwice(status: string)
    requires Toggleable(status)
    ensures NextStaffStatus(NextStaffStatus(status)) == status
  {
  }

  /** With ascending ids, position `k` is the only one carrying its id, so
      it is the one found. */
  lemma StaffIdAt(staff: seq<StaffMember>, id: nat, k: nat)
    requires StaffIdsAscending(staff)
    requires k < |staff| && staff[k].id == id
    ensures forall j :: 0 <= j < |staff| && staff[j].id == id ==> j == k
    ensures FindStaff(staff, id) == Some(staff[k])
  {
    var found := FindStaff(staff, id);
    assert found.Some? && found.value.id == id;
    var i :| 0 <= i < |staff| && staff[i] == found.value;
    assert i == k;
  }

  // ------------------------------------------------------------ drivers

  /** The roster shows a driver as available or inactive. */
  datatype DriverStatus = Available | Inactive

  datatype Driver = Driver(id: nat, name: string, status: DriverStatus)

  datatype AddDriverError = DriverNameRequired | DriverNameNotUnique

  predicate DriverNameTaken(drivers: seq<Driver>, trimmedName: string)
  {
    exists i :: 0 <= i < |drivers| && NameKey(drivers[i].name) == ToLower(trimmedName)
  }

  /** The checks of `addDriver`, in order. */
  function DriverFormError(name: string, drivers: seq<Driver>): (r: Option<AddDriverError>)
    ensures r.None? <==> Trim(name) != [] && !DriverNameTaken(drivers, Trim(name))
    ensures r == Some(DriverNameRequired) <==> Trim(name) == []
  {
    var trimmed := Trim(name);
    if trimmed == [] then Some(DriverNameRequired)
    else if DriverNameTaken(drivers, trimmed) then Some(DriverNameNotUnique)
    else None
  }

  predicate UniqueDriverNames(drivers: seq<Driver>)
  {
    forall i, j :: 0 <= i < j < |drivers| ==> NameKey(drivers[i].name) != NameKey(drivers[j].name)
  }

  predicate DriverIdsAscending(drivers: seq<Driver>)
  {
    && (forall i, j :: 0 <= i < j < |drivers| ==> drivers[i].id < drivers[j].id)
    && (forall i :: 0 <= i < |drivers| ==> drivers[i].id <= i + 1)
  }

  function NewDriver(name: string, count: nat): Driver
  {
    Driver(count + 1, Trim(name), Available)
  }

  /** A successful add keeps driver names unique. */
  lemma AddDriverKeepsNamesUnique(drivers: seq<Driver>, name: string)
    requires UniqueDriverNames(drivers)
    requires DriverFormError(name, drivers).None?
    ensures UniqueDriverNames(drivers + [NewDriver(name, |drivers|)])
  {
    var added := NewDriver(name, |drivers|);
    TrimIdempotent(name);
    assert NameKey(added.name) == ToLower(Trim(name));
    var d' := drivers + [added];
    forall i, j | 0 <= i < j < |d'| ensures NameKey(d'[i].name) != NameKey(d'[j].name) {
      assert d'[i] == drivers[i];
      if j == |drivers| {
        assert NameKey(drivers[i].name) != ToLower(Trim(name));
      } else {
        assert d'[j] == drivers[j];
      }
    }
  }

  /** Appending a driver with id `|drivers| + 1`, as a successful add does,
      keeps ids ascending. */
  lemma AddDriverKeepsIdsAscending(drivers: seq<Driver>, added: Driver)
    requires DriverIdsAscending(drivers)
    requires added.id == |drivers| + 1
    ensures DriverIdsAscending(drivers + [added])
  {
    var ids := seq(|drivers|, i requires 0 <= i < |drivers| => drivers[i].id);
    IdsAscendingAppend(ids, |drivers| + 1);
    var d' := drivers + [added];
    assert forall i :: 0 <= i < |d'| ==> d'[i].id == (ids + [|drivers| + 1])[i];
  }

  /** `nextStatus` for a driver: available turns inactive, inactive turns
      available. */
  function NextDriverStatus(status: DriverStatus): (next: DriverStatus)
    ensures next != status
  {
    match status
    case Available => Inactive
    case Inactive => Available
  }

  /** `drivers.find(d => d.id === id)`: the lookup `FindStaff` makes, over
      the driver records, which carry different fields from staff records. */
  function FindDriver(drivers: seq<Driver>, id: nat): (r: Option<Driver>)
    ensures r.None? <==> forall i :: 0 <= i < |drivers| ==> drivers[i].id != id
    ensures r.Some? ==> r.value in drivers && r.value.id == id
    ensures r.Some? ==> exists k :: 0 <= k < |drivers| && drivers[k] == r.value
                               && forall j :: 0 <= j < k ==> drivers[j].id != id
  {
    if drivers == [] then None
    else if drivers[0].id == id then Some(drivers[0])
    else
      var r := FindDriver(drivers[1..], id);
      assert forall i :: 1 <= i < |drivers| ==> drivers[i] == drivers[1..][i - 1];
      r
  }

  function ToggledDrivers(drivers: seq<Driver>, id: nat): (r: seq<Driver>)
    ensures |r| == |drivers|
    ensures forall i :: 0 <= i < |drivers| && drivers[i].id != id ==> r[i] == drivers[i]
    ensures FindDriver(drivers, id).Some? ==>
              forall i :: 0 <= i < |drivers| && drivers[i].id == id ==>
                r[i] == drivers[i].(status := NextDriverStatus(FindDriver(drivers, id).value.status))
  {
    match FindDriver(drivers, id)
    case None => drivers
    case Some(target) =>
      var next := NextDriverStatus(target.status);
      seq(|drivers|, i requires 0 <= i < |drivers| => if drivers[i].id == id then drivers[i].(status := next) else drivers[i])
  }

  /** With distinct ids, toggling a driver twice restores the roster. */
  lemma ToggleDriverTwice(drivers: seq<Driver>, id: nat)
    requires DriverIdsAscending(drivers)
    ensures ToggledDrivers(ToggledDrivers(drivers, id), id) == drivers
  {
    var once := ToggledDrivers(drivers, id);
    if k :| 0 <= k < |drivers| && drivers[k].id == id {
      DriverIdAt(drivers, id, k);
      assert FindDriver(once, id).value == once[k];
      var twice := ToggledDrivers(once, id);
      assert forall j :: 0 <= j < |drivers| ==> twice[j] == drivers[j];
    }
  }

  /** With ascending ids, position `k` is the only one carrying its id, so
      it is the one found. */
  lemma DriverIdAt(drivers: seq<Driver>, id: nat, k: nat)
    requires DriverIdsAscending(drivers)
    requires k < |drivers| && drivers[k].id == id
    ensures forall j :: 0 <= j < |drivers| && drivers[j].id == id ==> j == k
    ensures FindDriver(drivers, id) == Some(drivers[k])
  {
    var found := FindDriver(drivers, id);
    assert found.Some? && found.value.id == id;
    var i :| 0 <= i < |drivers| && drivers[i] == found.value;
    assert i == k;
  }

  // ------------------------------------------------------------ the page

  /** `setStaffStatus` / `setDriverStatus` take "Active" or "Inactive". */
  datatype StatusRequest = StatusRequest(who: string, active: bool)

  class Dashboard {
    var pendingRestaurants: seq<RestaurantApplication>
    var staffMembers: seq<StaffMember>
    var drivers: seq<Driver>
    var newStaffForm: StaffForm
    var newDriverName: string
    /** How many times the page has called `onConsumeIncomingRequests`. */
    var consumeCalls: nat

    constructor ()
      ensures pendingRestaurants == [] && staffMembers == [] && drivers == []
      ensures newStaffForm == EmptyStaffForm && newDriverName == "" && consumeCalls == 0
    {
      pendingRestaurants := [];
      staffMembers := [];
      drivers := [];
      newStaffForm := EmptyStaffForm;
      newDriverName := "";
      consumeCalls := 0;
    }

    /** The merge effect: new registrations go in front and the parent is
        told to consume them; with none new, nothing happens. */
    method MergeIncoming(incoming: seq<RestaurantApplication>)
      modifies this`pendingRestaurants, this`consumeCalls
      ensures pendingRestaurants == Merge(old(pendingRestaurants), incoming)
      ensures consumeCalls == old(consumeCalls) + (if Additions(old(pendingRestaurants), incoming) == [] then 0 else 1)
    {
      if |incoming| == 0 {
        return;
      }
      var additions := Additions(pendingRestaurants, incoming);
      if additions == [] {
        return;
      }
      consumeCalls := consumeCalls + 1;
      pendingRestaurants := additions + pendingRestaurants;
    }

    /** `approveRestaurant` and `rejectRestaurant` both drop the entries with
        that id; they differ only in the notice shown. */
    method DecideRestaurant(id: string)
      modifies this`pendingRestaurants
      ensures pendingRestaurants == WithoutId(old(pendingRestaurants), id)
    {
      pendingRestaurants := WithoutId(pendingRestaurants, id);
    }

    method EditStaffForm(form: StaffForm)
      modifies this`newStaffForm
      ensures newStaffForm == form
    {
      newStaffForm := form;
    }

    method EditDriverName(name: string)
      modifies this`newDriverName
      ensures newDriverName == name
    {
      newDriverName := name;
    }

    /** `addStaff`: the checks, then `createStaff`; only when that call
        succeeds is the member appended and the form cleared. */
    method AddStaff(apiSucceeds: bool) returns (error: Option<AddStaffError>, sent: Option<NewStaffRequest>)
      modifies this`staffMembers, this`newStaffForm
      ensures error == StaffFormError(old(newStaffForm), old(staffMembers))
      ensures sent.Some? <==> error.None?
      ensures sent.Some? ==> sent.value == StaffRequestOf(old(newStaffForm))
      ensures error.None? && apiSucceeds ==>
                staffMembers == old(staffMembers) + [NewStaffMember(old(newStaffForm), |old(staffMembers)|)]
                && newStaffForm == EmptyStaffForm
      ensures error.Some? || !apiSucceeds ==> staffMembers == old(staffMembers) && newStaffForm == old(newStaffForm)
    {
      error := StaffFormError(newStaffForm, staffMembers);
      if error.Some? {
        return error, None;
      }
      var form := newStaffForm;
      sent := Some(StaffRequestOf(form));
      if apiSucceeds {
        staffMembers := staffMembers + [NewStaffMember(form, |staffMembers|)];
        newStaffForm := EmptyStaffForm;
      }
    }

    /** `toggleStaffStatus`: nothing for an unknown id; otherwise the
        backend is asked for the next status and, once it answers, the
        roster entry follows. */
    method ToggleStaffStatus(id: nat, apiSucceeds: bool) returns (sent: Option<StatusRequest>)
      modifies this`staffMembers
      ensures sent.None? <==> FindStaff(old(staffMembers), id).None?
      ensures sent.Some? ==>
                var target := FindStaff(old(staffMembers), id).value;
                sent.value == StatusRequest(target.username, target.status != "active")
      ensures staffMembers == if sent.Some? && apiSucceeds then ToggledStaff(old(staffMembers), id) else old(staffMembers)
    {
      var target := FindStaff(staffMembers, id);
      if target.None? {
        return None;
      }
      sent := Some(StatusRequest(target.value.username, target.value.status != "active"));
      if apiSucceeds {
        staffMembers := ToggledStaff(staffMembers, id);
      }
    }

    /** `addDriver`: the checks, then `createDriver` with the trimmed name. */
    method AddDriver(apiSucceeds: bool) returns (error: Option<AddDriverError>, sent: Option<string>)
      modifies this`drivers, this`newDriverName
      ensures error == DriverFormError(old(newDriverName), old(drivers))
      ensures sent.Some? <==> error.None?
      ensures sent.Some? ==> sent.value == Trim(old(newDriverName))
      ensures error.None? && apiSucceeds ==>
                drivers == old(drivers) + [NewDriver(old(newDriverName), |old(drivers)|)] && newDriverName == ""
      ensures error.Some? || !apiSucceeds ==> drivers == old(drivers) && newDriverName == old(newDriverName)
    {
      error := DriverFormError(newDriverName, drivers);
      if error.Some? {
        return error, None;
      }
      sent := Some(Trim(newDriverName));
      if apiSucceeds {
        drivers := drivers + [NewDriver(newDriverName, |drivers|)];
        newDriverName := "";
      }
    }

    /** `toggleDriverStatus`. */
    method ToggleDriverStatus(id: nat, apiSucceeds: bool) returns (sent: Option<StatusRequest>)
      modifies this`drivers
      ensures sent.None? <==> FindDriver(old(drivers), id).None?
      ensures sent.Some? ==>
                var target := FindDriver(old(drivers), id).value;
                sent.value == StatusRequest(target.name, target.status != Available)
      ensures drivers == if sent.Some? && apiSucceeds then ToggledDrivers(old(drivers), id) else old(drivers)
    {
      var target := FindDriver(drivers, id);
      if target.None? {
        return None;
      }
      sent := Some(StatusRequest(target.value.name, target.value.status != Available));
      if apiSucceeds {
        drivers := ToggledDrivers(drivers, id);
      }
    }
  }
}
