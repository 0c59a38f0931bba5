/** Administrator access, client/hooks/use-admin.tsx: three fixed accounts,
    each accepting a code derived from the current date or a fixed password;
    the signed-in administrator, the permissions of the account, and an
    eight-hour session kept in browser storage. The clock, today's UTC date,
    the random session id and the storage contents are parameters. */
module UseAdmin {
  import opened Common

  /** The UTC calendar date `new Date().toISOString()` starts with. */
  datatype CalendarDate = CalendarDate(year: nat, month: nat, day: nat)

  predicate ValidDate(date: CalendarDate) {
    1 <= date.month <= 12 && 1 <= date.day <= 31
  }

  /** The reduce over "YYYY-MM-DD" split at '-': year + month + day. */
  function Seed(date: CalendarDate): nat {
    date.year + date.month + date.day
  }

  /** `${prefix}-${seed}${DD}${suffix}`, DD being the two-digit day. */
  function DailyCode(prefix: string, date: CalendarDate, suffix: char): (code: string)
    requires ValidDate(date)
    ensures |code| == |prefix| + 1 + |NatToString(Seed(date))| + 3
  {
    prefix + "-" + NatToString(Seed(date)) + TwoDigits(date.day) + [suffix]
  }

  datatype DailyCodes = DailyCodes(admin: string, supervisor: string, hse: string)

  /** `getDailyAccessCodes`: one code per account, "ADM"/"SUP"/"HSE" with the
      letters A/B/C at the end. */
  function GetDailyAccessCodes(date: CalendarDate): (codes: DailyCodes)
    requires ValidDate(date)
    ensures codes.admin != codes.supervisor && codes.supervisor != codes.hse && codes.admin != codes.hse
  {
    var codes := DailyCodes(DailyCode("ADM", date, 'A'), DailyCode("SUP", date, 'B'), DailyCode("HSE", date, 'C'));
    assert codes.admin[0] == 'A' && codes.supervisor[0] == 'S' && codes.hse[0] == 'H';
    codes
  }

  lemma ParseTwoMore(a: string, b: string)
    requires IsDigits(a) && IsDigits(b) && |b| == 2
    ensures IsDigits(a + b) && ParseDigits(a + b) == 100 * ParseDigits(a) + ParseDigits(b)
  {
    var s := a + b;
    var t := a + b[..1];
    assert s[..|s| - 1] == t && s[|s| - 1] == b[1];
    assert t[..|t| - 1] == a && t[|t| - 1] == b[0];
    assert ParseDigits(t) == 10 * ParseDigits(a) + DigitValue(b[0]);
    assert b[..1][..0] == [];
    assert ParseDigits(b[..1]) == DigitValue(b[0]);
    assert ParseDigits(b) == 10 * DigitValue(b[0]) + DigitValue(b[1]);
  }

  /** The digits between the dash and the final letter of a daily code read
      back as 100 * (year + month + day) + day: the code carries exactly the
      seed and the day. */
  lemma DailyCodeReadsBack(prefix: string, date: CalendarDate, suffix: char)
    requires ValidDate(date)
    ensures var code := DailyCode(prefix, date, suffix);
      var digits := code[|prefix| + 1 .. |code| - 1];
      IsDigits(digits) && ParseDigits(digits) == 100 * Seed(date) + date.day
  {
    var code := DailyCode(prefix, date, suffix);
    var seed := NatToString(Seed(date));
    assert code[|prefix| + 1 .. |code| - 1] == seed + TwoDigits(date.day);
    ParseTwoMore(seed, TwoDigits(date.day));
    NatToStringRoundTrip(Seed(date));
  }

  /** Two dates share an account's code exactly when they have the same day
      of the month and the same year + month + day. */
  lemma SameCodeIff(prefix: string, d1: CalendarDate, d2: CalendarDate, suffix: char)
    requires ValidDate(d1) && ValidDate(d2)
    ensures DailyCode(prefix, d1, suffix) == DailyCode(prefix, d2, suffix) <==> Seed(d1) == Seed(d2) && d1.day == d2.day
  {
    if DailyCode(prefix, d1, suffix) == DailyCode(prefix, d2, suffix) {
      DailyCodeReadsBack(prefix, d1, suffix);
      DailyCodeReadsBack(prefix, d2, suffix);
    }
  }

  /** So a "daily" code comes back on other dates: 15 February 2025 and
      15 January 2026 have the same codes. */
  lemma DailyCodesRepeat()
    ensures GetDailyAccessCodes(CalendarDate(2025, 2, 15)) == GetDailyAccessCodes(CalendarDate(2026, 1, 15))
  {
    SameCodeIff("ADM", CalendarDate(2025, 2, 15), CalendarDate(2026, 1, 15), 'A');
    SameCodeIff("SUP", CalendarDate(2025, 2, 15), CalendarDate(2026, 1, 15), 'B');
    SameCodeIff("HSE", CalendarDate(2025, 2, 15), CalendarDate(2026, 1, 15), 'C');
  }

  const SuperAdminRole := "super_admin"
  const AdminRole := "admin"
  const ModeratorRole := "moderator"

  const AdminPermissions: seq<string> := [
    "view_all", "export_data", "manage_users", "system_settings", "analytics",
    "real_time_monitoring", "advanced_reports", "user_management", "security_logs"
  ]
  const SupervisorPermissions: seq<string> := ["view_all", "export_data", "analytics", "advanced_reports"]
  const HsePermissions: seq<string> := ["view_all", "analytics"]

  /** The account's permissions: each lower account's are among the next
      higher account's. */
  lemma PermissionsNested()
    ensures forall p :: p in HsePermissions ==> p in SupervisorPermissions
    ensures forall p :: p in SupervisorPermissions ==> p in AdminPermissions
    ensures "manage_users" in AdminPermissions && "manage_users" !in SupervisorPermissions
    ensures "export_data" in SupervisorPermissions && "export_data" !in HsePermissions
  {
  }

  datatype Account = Account(password: string, staticPassword: string, role: string, permissions: seq<string>)

  /** `getAdminAccounts()[username]`: the three accounts; any other name has
      none (inherited object properties carry no password either). */
  function GetAdminAccount(username: string, date: CalendarDate): (r: Option<Account>)
    requires ValidDate(date)
    ensures r.Some? <==> username in {"admin", "supervisor", "hse"}
    ensures username == "admin" ==> r.value.role == SuperAdminRole && r.value.permissions == AdminPermissions
    ensures username == "supervisor" ==> r.value.role == AdminRole && r.value.permissions == SupervisorPermissions
    ensures username == "hse" ==> r.value.role == ModeratorRole && r.value.permissions == HsePermissions
  {
    var codes := GetDailyAccessCodes(date);
    if username == "admin" then Some(Account(codes.admin, "SafetyAdmin2024!", SuperAdminRole, AdminPermissions))
    else if username == "supervisor" then Some(Account(codes.supervisor, "Supervisor2024!", AdminRole, SupervisorPermissions))
    else if username == "hse" then Some(Account(codes.hse, "HSE2024!", ModeratorRole, HsePermissions))
    else None
  }

  /** `isValidPassword`: the account, when the password is its daily code or
      its fixed password. */
  function CheckCredentials(username: string, password: string, date: CalendarDate): (r: Option<Account>)
    requires ValidDate(date)
    ensures r.Some? <==>
      && GetAdminAccount(username, date).Some?
      && (password == GetAdminAccount(username, date).value.password || password == GetAdminAccount(username, date).value.staticPassword)
    ensures r.Some? ==> r == GetAdminAccount(username, date)
  {
    var account := GetAdminAccount(username, date);
    if account.Some? && (account.value.password == password || account.value.staticPassword == password) then account else None
  }

  /** The accepted sign-ins, spelled out: each account name with its daily
      code or its fixed password, and nothing else. */
  lemma CredentialsAccepted(username: string, password: string, date: CalendarDate)
    requires ValidDate(date)
    ensures var codes := GetDailyAccessCodes(date);
      CheckCredentials(username, password, date).Some? <==>
        || (username == "admin" && (password == codes.admin || password == "SafetyAdmin2024!"))
        || (username == "supervisor" && (password == codes.supervisor || password == "Supervisor2024!"))
        || (username == "hse" && (password == codes.hse || password == "HSE2024!"))
  {
  }

  /** Which credential was used, as recorded with the stored session. */
  function LoginMethod(account: Account, password: string): (r: string)
    ensures r in {"daily_code", "static_password"}
    ensures r == "daily_code" <==> password == account.password
  {
    if account.password == password then "daily_code" else "static_password"
  }

  /** A daily code never equals a fixed password (it ends with a letter, they
      end with '!'), so a daily-code login is always recorded as such, and a
      fixed-password login as "static_password". */
  lemma LoginMethodIff(username: string, password: string, date: CalendarDate)
    requires ValidDate(date)
    requires CheckCredentials(username, password, date).Some?
    ensures var account := CheckCredentials(username, password, date).value;
      && (LoginMethod(account, password) == "daily_code" <==> password == account.password)
      && (LoginMethod(account, password) == "static_password" <==> password == account.staticPassword)
  {
    var account := CheckCredentials(username, password, date).value;
    assert account.password[|account.password| - 1] in {'A', 'B', 'C'};
    assert account.staticPassword[|account.staticPassword| - 1] == '!';
  }

  datatype AdminUser = AdminUser(id: string, username: string, role: string, permissions: seq<string>, loginTime: int)

  /** The "admin-session" record: the user plus how they signed in. */
  datatype AdminSessionRecord = AdminSessionRecord(user: AdminUser, loginMethod: string, sessionId: string)

  /** The "admin-session" storage slot. */
  datatype StoredAdmin = NoSession | Unreadable | Saved(record: AdminSessionRecord)

  const AdminSessionLifetimeMs: int := 8 * HourMs

  /** How `login`'s promise settles: with a boolean, or rejected because
      writing to storage threw. */
  datatype LoginResult = Returned(success: bool) | Threw

  class AdminAuth {
    var isAuthenticated: bool
    var user: Option<AdminUser>
    var stored: StoredAdmin

    /** Signed in exactly when there is a user. */
    ghost predicate Valid()
      reads this
    {
      isAuthenticated <==> user.Some?
    }

    constructor (initialStorage: StoredAdmin)
      ensures Valid() && user.None? && stored == initialStorage
    {
      isAuthenticated := false;
      user := None;
      stored := initialStorage;
    }

    /** `checkExistingSession`, run on mount: a stored session less than
        eight hours old signs its user in; anything else (none, unreadable,
        expired) is removed from storage. */
    method CheckExistingSession(now: int) returns (restored: bool)
      requires Valid()
      modifies this
      ensures Valid()
      ensures restored <==> old(stored).Saved? && now - old(stored).record.user.loginTime < AdminSessionLifetimeMs
      ensures restored ==> user == Some(old(stored).record.user) && stored == old(stored)
      ensures !restored ==> user == old(user) && isAuthenticated == old(isAuthenticated) && stored == NoSession
    {
      if stored.Saved? && now - stored.record.user.loginTime < AdminSessionLifetimeMs {
        user := Some(stored.record.user);
        isAuthenticated := true;
        restored := true;
      } else {
        stored := NoSession;
        restored := false;
      }
    }

    /** `login`: with valid credentials the user is signed in with the
        account's role and permissions, and the session is written to
        storage; if that write throws, the promise rejects with the user
        already signed in. Invalid credentials change nothing. */
    method Login(username: string, password: string, now: int, today: CalendarDate, sessionId: string, storageWritable: bool)
      returns (r: LoginResult)
      requires Valid() && ValidDate(today)
      modifies this
      ensures Valid()
      ensures var account := CheckCredentials(username, password, today);
        && (account.None? ==> r == Returned(false) && user == old(user) && isAuthenticated == old(isAuthenticated) && stored == old(stored))
        && (account.Some? ==>
              && user == Some(AdminUser("admin_" + username + "_" + IntToString(now), username,
                                        account.value.role, account.value.permissions, now))
              && isAuthenticated
              && (storageWritable ==>
                    && r == Returned(true)
                    && stored == Saved(AdminSessionRecord(user.value, LoginMethod(account.value, password), sessionId)))
              && (!storageWritable ==> r == Threw && stored == old(stored)))
    {
      var account := CheckCredentials(username, password, today);
      if account.None? {
        return Returned(false);
      }
      var adminUser := AdminUser("admin_" + username + "_" + IntToString(now), username,
                                 account.value.role, account.value.permissions, now);
      user := Some(adminUser);
      isAuthenticated := true;
      if !storageWritable {
        return Threw;
      }
      stored := Saved(AdminSessionRecord(adminUser, LoginMethod(account.value, password), sessionId));
      r := Returned(true);
    }

    method Logout()
      modifies this
      ensures Valid() && user.None? && !isAuthenticated && stored == NoSession
    {
      user := None;
      isAuthenticated := false;
      stored := NoSession;
    }

    /** `hasPermission`: false when signed out. */
    predicate HasPermission(permission: string)
      reads this
      ensures HasPermission(permission) && Valid() ==> isAuthenticated
      ensures HasPermission(permission) ==> user.Some? && permission in user.value.permissions
    {
      user.Some? && permission in user.value.permissions
    }

    /** `isRole`: false when signed out. */
    predicate IsRole(role: string)
      reads this
      ensures IsRole(role) && Valid() ==> isAuthenticated
      ensures IsRole(role) ==> user.Some? && user.value.role == role
    {
      user.Some? && user.value.role == role
    }
  }

  /** `hasPermission` and `isRole` around a sign-in from the signed-out
      state: after `login` they answer from the account exactly when the
      credentials were accepted, and after `logout` both answer false. */
  method PermissionChecks(auth: AdminAuth, username: string, password: string, now: int, today: CalendarDate,
                          sessionId: string, permission: string, role: string)
    returns (granted: bool, hasRole: bool)
    requires auth.Valid() && auth.user.None? && ValidDate(today)
    modifies auth
    ensures var account := CheckCredentials(username, password, today);
      && (granted <==> account.Some? && permission in account.value.permissions)
      && (hasRole <==> account.Some? && role == account.value.role)
    ensures !auth.HasPermission(permission) && !auth.IsRole(role) && !auth.isAuthenticated
  {
    var _ := auth.Login(username, password, now, today, sessionId, true);
    granted := auth.HasPermission(permission);
    hasRole := auth.IsRole(role);
    auth.Logout();
  }

  /** After a successful login, the user holds exactly the permissions of
      the account, so a "hse" login grants "analytics" and not
      "export_data", and every permission of a lower account. */
  lemma GrantedPermissions(username: string, password: string, date: CalendarDate, p: string)
    requires ValidDate(date)
    requires CheckCredentials(username, password, date).Some?
    ensures var perms := CheckCredentials(username, password, date).value.permissions;
      && (p in HsePermissions ==> p in perms)
      && (username == "hse" ==> (p in perms <==> p in HsePermissions))
      && (username == "supervisor" ==> (p in perms <==> p in SupervisorPermissions))
      && (username == "admin" ==> (p in perms <==> p in AdminPermissions))
  {
    PermissionsNested();
  }
}
