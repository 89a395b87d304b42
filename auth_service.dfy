/** Login and password-change decisions of the backend's AuthService
    (backend/.../service/AuthService.java). The user stores are maps from
    user name to the stored record; the restaurant login check runs in a
    stored procedure whose answer is a parameter here. */
module Auth {
  import opened Common

  /** What the repository returns for a user: the stored password and the
      account status. */
  datatype UserRecord = UserRecord(password: string, status: string)

  datatype Role = StaffRole | RestaurantRole

  /** The fixed texts a LoginResponse carries. */
  datatype LoginMessage =
    | InvalidStaffCredentials
    | InactiveStaffUser
    | PasswordChangeRequired
    | StaffLoginSuccessful
    | RestaurantLoginSuccessful
    | InvalidRestaurantCredentials

  function MessageText(m: LoginMessage): string
  {
    match m
    case InvalidStaffCredentials => "Invalid staff credentials"
    case InactiveStaffUser => "Inactive staff user"
    case PasswordChangeRequired => "Password change required"
    case StaffLoginSuccessful => "Staff login successful"
    case RestaurantLoginSuccessful => "Restaurant login successful"
    case InvalidRestaurantCredentials => "Invalid restaurant credentials"
  }

  /** A login answer; the three-argument constructor leaves `mustChange`
      false. */
  datatype LoginResponse = LoginResponse(success: bool, role: Role, message: LoginMessage, mustChange: bool)

  /** `"Active".equalsIgnoreCase(status)`. */
  predicate IsActive(status: string)
  {
    EqualsIgnoreCase("Active", status)
  }

  /** A temporary password, issued by an administrator, starts with "temp-". */
  predicate IsTemporary(password: string)
  {
    StartsWith(password, "temp-")
  }

  /** `loginStaff`: unknown user, then inactive account, then password. */
  function LoginStaff(staff: map<string, UserRecord>, username: string, password: string): (r: LoginResponse)
    ensures r.role == StaffRole
    ensures username !in staff ==> r == LoginResponse(false, StaffRole, InvalidStaffCredentials, false)
    ensures username in staff && !IsActive(staff[username].status) ==> r.message == InactiveStaffUser
    ensures r.success <==> username in staff && IsActive(staff[username].status) && staff[username].password == password
    ensures r.mustChange <==> r.success && IsTemporary(staff[username].password)
    ensures r.success ==> (r.message == PasswordChangeRequired <==> r.mustChange)
  {
    if username !in staff then LoginResponse(false, StaffRole, InvalidStaffCredentials, false)
    else
      var rec := staff[username];
      if !IsActive(rec.status) then LoginResponse(false, StaffRole, InactiveStaffUser, false)
      else
        var matches := rec.password == password;
        var mustChange := matches && IsTemporary(rec.password);
        if matches then
          LoginResponse(true, StaffRole, if mustChange then PasswordChangeRequired else StaffLoginSuccessful, mustChange)
        else LoginResponse(false, StaffRole, InvalidStaffCredentials, false)
  }

  /** `loginRestaurant`: the stored procedure decides; a successful login
      with a supplied password starting "temp-" must change it. */
  function LoginRestaurant(procedureAccepts: bool, password: string): (r: LoginResponse)
    ensures r.role == RestaurantRole
    ensures r.success == procedureAccepts
    ensures r.mustChange <==> procedureAccepts && IsTemporary(password)
    ensures !procedureAccepts ==> r.message == InvalidRestaurantCredentials
    ensures r.success ==> (r.message == PasswordChangeRequired <==> r.mustChange)
  {
    if procedureAccepts then
      var mustChange := IsTemporary(password);
      LoginResponse(true, RestaurantRole, if mustChange then PasswordChangeRequired else RestaurantLoginSuccessful,
                    mustChange)
    else LoginResponse(false, RestaurantRole, InvalidRestaurantCredentials, false)
  }

  /** `"staff".equalsIgnoreCase(userType)` picks the staff store; anything
      else, the restaurant store. */
  predicate SelectsStaff(userType: string)
  {
    EqualsIgnoreCase("staff", userType)
  }

  /** The store after `updatePassword(username, newPassword)`: that user's
      record with the new password, the status kept. */
  function WithPassword(store: map<string, UserRecord>, username: string, newPassword: string): (s: map<string, UserRecord>)
    requires username in store
    ensures s.Keys == store.Keys
    ensures s[username] == UserRecord(newPassword, store[username].status)
    ensures forall u :: u in store && u != username ==> s[u] == store[u]
  {
    store[username := store[username].(password := newPassword)]
  }

  /** The two user stores the repository reads and writes. */
  class AuthStore {
    var staff: map<string, UserRecord>
    var restaurantUsers: map<string, UserRecord>

    constructor (staff: map<string, UserRecord>, restaurantUsers: map<string, UserRecord>)
      ensures this.staff == staff && this.restaurantUsers == restaurantUsers
    {
      this.staff := staff;
      this.restaurantUsers := restaurantUsers;
    }

    /** `changePassword`: false, and nothing written, for a missing user or
        a wrong old password; otherwise the stored password of that user, in
        the store the user type selects, becomes the new one. */
    method ChangePassword(userType: string, username: string, oldPassword: string, newPassword: string)
      returns (ok: bool)
      modifies this
      ensures var store := if SelectsStaff(userType) then old(staff) else old(restaurantUsers);
              ok <==> username in store && store[username].password == oldPassword
      ensures !ok ==> staff == old(staff) && restaurantUsers == old(restaurantUsers)
      ensures ok && SelectsStaff(userType) ==>
                staff == WithPassword(old(staff), username, newPassword) && restaurantUsers == old(restaurantUsers)
      ensures ok && !SelectsStaff(userType) ==>
                restaurantUsers == WithPassword(old(restaurantUsers), username, newPassword) && staff == old(staff)
    {
      var isStaff := SelectsStaff(userType);
      var store := if isStaff then staff else restaurantUsers;
      if username !in store {
        return false;
      }
      if store[username].password != oldPassword {
        return false;
      }
      if isStaff {
        staff := WithPassword(staff, username, newPassword);
      } else {
        restaurantUsers := WithPassword(restaurantUsers, username, newPassword);
      }
      ok := true;
    }
  }

  // ------------------------------------------------------------ properties

  /** After a staff password change, the new password logs in exactly when
      the account is active, and it asks for another change exactly when it
      is itself temporary. */
  lemma LoginAfterChange(staff: map<string, UserRecord>, username: string, newPassword: string)
    requires username in staff
    ensures var r := LoginStaff(WithPassword(staff, username, newPassword), username, newPassword);
            && (r.success <==> IsActive(staff[username].status))
            && (r.mustChange <==> IsActive(staff[username].status) && IsTemporary(newPassword))
  {
  }

  /** The old password stops working once it differs from the new one. */
  lemma OldPasswordRevoked(staff: map<string, UserRecord>, username: string, oldPassword: string, newPassword: string)
    requires username in staff && oldPassword != newPassword
    ensures !LoginStaff(WithPassword(staff, username, newPassword), username, oldPassword).success
  {
  }

  /** A change for one user leaves every other user's login as it was. */
  lemma OtherLoginsUnaffected(staff: map<string, UserRecord>, username: string, newPassword: string,
                              other: string, password: string)
    requires username in staff && other != username
    ensures LoginStaff(WithPassword(staff, username, newPassword), other, password) == LoginStaff(staff, other, password)
  {
  }

  /** The status and user-type comparisons ignore letter case only. */
  lemma CaseInsensitiveChoices()
    ensures IsActive("ACTIVE") && IsActive("active") && !IsActive("Inactive")
    ensures SelectsStaff("Staff") && SelectsStaff("STAFF") && !SelectsStaff("restaurant")
  {
    assert ToLower("Active") == "active";
    assert ToLower("ACTIVE") == "active";
    assert ToLower("active") == "active";
    assert ToLower("staff") == "staff";
    assert ToLower("Staff") == "staff";
    assert ToLower("STAFF") == "staff";
  }
}
