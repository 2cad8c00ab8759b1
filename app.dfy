/**
 * The application shell (App.tsx): which screen is shown, the signed-in session it holds, the
 * session restored from the store at start-up, and the navigation handlers it gives the screens.
 */
module AppShell {
  import opened Options
  import opened Seqs
  import opened Records
  import opened Database

  /** The four values of the shell's `Screen` type. */
  datatype Screen = LoginView | PunchView | CameraView | AdminView

  /**
   * The shell's state. `employeeId` is `None` when it holds `undefined`, which happens when a
   * login callback is called without its third argument.
   */
  datatype Session = Session(screen: Screen, authToken: Option<string>, userName: string, employeeId: Option<string>)

  /** JavaScript truthiness of an optional string: present and not empty. */
  predicate Truthy(s: Option<string>)
  {
    s.Some? && s.value != ""
  }

  /** The state the shell starts in. */
  const Initial := Session(LoginView, None, "", Some(""))

  /** The component the shell renders for a state, or `None` for an empty page. */
  function Mounted(s: Session): (r: Option<Screen>)
    ensures r.Some? ==> r.value == s.screen
    ensures r.None? <==> s.screen == PunchView && !(Truthy(s.authToken) && Truthy(s.employeeId))
  {
    match s.screen
    case PunchView => if Truthy(s.authToken) && Truthy(s.employeeId) then Some(PunchView) else None
    case other => Some(other)
  }

  /** `handleLogin`: the session the login callback installs, with the punch screen selected. */
  function AfterLogin(token: string, name: string, empId: Option<string>): (s: Session)
    ensures s.screen == PunchView && s.authToken == Some(token) && s.userName == name && s.employeeId == empId
    ensures Mounted(s) == Some(PunchView) <==> token != "" && Truthy(empId)
  {
    Session(PunchView, Some(token), name, empId)
  }

  /** `handleLogout`: the session emptied and the login screen selected. */
  const AfterLogout := Session(LoginView, None, "", Some(""))

  /**
   * A login callback called with a token and a name only, as the login screen calls it, selects
   * the punch screen but leaves the page empty: the punch screen's guard needs an employee id.
   */
  lemma LoginWithoutIdShowsNothing(token: string, name: string)
    ensures AfterLogin(token, name, None).screen == PunchView
    ensures Mounted(AfterLogin(token, name, None)) == None
  {
  }

  /** A login that does pass a token and an employee id shows the punch screen. */
  lemma LoginWithIdShowsPunch(token: string, name: string, empId: string)
    ensures Mounted(AfterLogin(token, name, Some(empId))) == Some(PunchView) <==> token != "" && empId != ""
  {
  }

  /** After a logout the login screen is shown and no session is left. */
  lemma LogoutShowsLogin()
    ensures Mounted(AfterLogout) == Some(LoginView)
    ensures !Truthy(AfterLogout.authToken) && !Truthy(AfterLogout.employeeId)
  {
  }

  /** The session restored at start-up, if the stored token and id still name an employee. */
  function Restored(token: Option<string>, employeeId: Option<string>, employees: seq<Employee>): (r: Option<Session>)
    ensures r.Some? ==> Mounted(r.value) == Some(PunchView)
    ensures r.Some? ==> r.value.authToken == token && r.value.employeeId == employeeId
    ensures r.Some? <==> Truthy(token) && Truthy(employeeId) && exists e :: e in employees && e.id == employeeId.value
    ensures r.Some? ==> exists i :: 0 <= i < |employees| && employees[i].id == employeeId.value && r.value.userName == employees[i].name
    ensures r.Some? ==> forall i ::
              (0 <= i < |employees| && employees[i].id == employeeId.value &&
               forall j :: 0 <= j < i ==> employees[j].id != employeeId.value) ==> r.value.userName == employees[i].name
  {
    if Truthy(token) && Truthy(employeeId) then
      match Find(employees, EmployeeWithId(employeeId.value))
      case Some(e) => Some(Session(PunchView, token, e.name, employeeId))
      case None => None
    else None
  }

  class App {
    const db: DatabaseService
    var currentScreen: Screen
    var authToken: Option<string>
    var userName: string
    var employeeId: Option<string>

    /** The state as one value. */
    function State(): Session
      reads this
    {
      Session(currentScreen, authToken, userName, employeeId)
    }

    constructor (db: DatabaseService)
      ensures this.db == db && State() == Initial
    {
      this.db := db;
      currentScreen := LoginView;
      authToken := None;
      userName := "";
      employeeId := Some("");
    }

    /**
     * `checkAuthStatus`: a stored token and employee id that still name an employee restore the
     * session on the punch screen; when they name nobody the stored session is cleared
     * (`tokenRemoveOk` and `idRemoveOk` say whether the two removals succeed; a failure is caught).
     */
    method CheckAuthStatus(tokenRemoveOk: bool, idRemoveOk: bool)
      requires db.Valid()
      modifies this, db
      ensures db.Valid()
      ensures var restored := Restored(old(db.AuthToken()), old(db.CurrentEmployeeId()), old(db.Employees()));
              if restored.Some? then
                State() == restored.value && db.items == old(db.items)
              else
                && State() == old(State())
                && db.Employees() == old(db.Employees())
                && db.AttendanceRecords() == old(db.AttendanceRecords())
                && (if Truthy(old(db.AuthToken())) && Truthy(old(db.CurrentEmployeeId())) then
                      db.items == if !tokenRemoveOk then old(db.items)
                                  else if !idRemoveOk then old(db.items) - {AuthTokenKey}
                                  else old(db.items) - {AuthTokenKey, EmployeeIdKey}
                    else db.items == old(db.items))
    {
      var token := db.AuthToken();
      var currentEmployeeId := db.CurrentEmployeeId();
      if Truthy(token) && Truthy(currentEmployeeId) {
        var employees := db.Employees();
        var employee := Find(employees, EmployeeWithId(currentEmployeeId.value));
        if employee.Some? {
          authToken := token;
          userName := employee.value.name;
          employeeId := currentEmployeeId;
          currentScreen := PunchView;
        } else {
          var _ := db.ClearAuth(tokenRemoveOk, idRemoveOk);
        }
      }
    }

    /** `handleLogin`: `empId` is `None` when the caller passes only a token and a name. */
    method HandleLogin(token: string, name: string, empId: Option<string>)
      modifies this
      ensures State() == AfterLogin(token, name, empId)
    {
      authToken := Some(token);
      userName := name;
      employeeId := empId;
      currentScreen := PunchView;
    }

    method HandleLogout()
      modifies this
      ensures State() == AfterLogout
    {
      authToken := None;
      userName := "";
      employeeId := Some("");
      currentScreen := LoginView;
    }

    method HandleAdminAccess()
      modifies this`currentScreen
      ensures State() == old(State()).(screen := AdminView)
    {
      currentScreen := AdminView;
    }

    /** `handleBackToApp`: the admin panel's back button leads to the login screen, not the punch screen. */
    method HandleBackToApp()
      modifies this`currentScreen
      ensures State() == old(State()).(screen := LoginView)
    {
      currentScreen := LoginView;
    }

    method HandleCameraCapture()
      modifies this`currentScreen
      ensures State() == old(State()).(screen := CameraView)
    {
      currentScreen := CameraView;
    }

    /**
     * `handlePhotoCapture`: the photo is handed to the punch screen's completion through the
     * window bridge (not part of this model) and the punch screen is selected again.
     */
    method HandlePhotoCapture()
      modifies this`currentScreen
      ensures State() == old(State()).(screen := PunchView)
    {
      currentScreen := PunchView;
    }

    method HandleCameraCancel()
      modifies this`currentScreen
      ensures State() == old(State()).(screen := PunchView)
    {
      currentScreen := PunchView;
    }
  }

  /**
   * Signing in through the login screen: the callback receives the token and name the screen
   * produced and no employee id, so the page stays empty.
   */
  method SignInFromLoginScreen(app: App, token: string, name: string)
    modifies app
    ensures app.currentScreen == PunchView && app.employeeId == None
    ensures Mounted(app.State()) == None
  {
    app.HandleLogin(token, name, None);
    LoginWithoutIdShowsNothing(token, name);
  }
}
