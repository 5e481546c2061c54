/**
 * The root layout's onboarding flow: which screen is showing, whether the
 * first auth event has arrived (`authChecked`), whether a registration is in
 * flight (`isRegistering`), and the chosen role. `Step` gives the effect of
 * each handler; the class `RootLayout` holds the state the handlers reassign.
 * Each asynchronous registration handler is one atomic step whose outcome
 * (sign-up and profile write succeeding or throwing) is a parameter.
 */
module Onboarding {
  import opened Wrappers
  import opened Roles
  import opened TextInput
  import Firestore
  import StudentRegistration
  import StaffRegistration
  import VisitorInfo

  datatype Screen =
    | SplashScreen
    | LoadingScreen
    | RoleSelectionScreen
    | StudentRegistrationScreen
    | FacultyRegistrationScreen
    | StaffRegistrationScreen
    | VisitorInfoScreen
    | MainScreen

  /**
   * `splashAuthChecked` is the `authChecked` the splash's `onFinish` closed
   * over: the splash starts its animation once, when it mounts, and later calls
   * the handler of that render. None before the splash has mounted.
   */
  datatype Shell = Shell(
    screen: Screen, authChecked: bool, isRegistering: bool, role: Option<UserRole>, splashAuthChecked: Option<bool>)

  const Initial: Shell := Shell(SplashScreen, false, false, None, None)

  /** What the handlers of the root layout react to. */
  datatype Event =
    | AuthChanged(signedIn: bool)        // the onAuthChange listener
    | SplashMounted                      // the splash's first render past the font gate
    | SplashFinished                     // the splash animation's completion callback
    | Rendered                           // a render while "loading" is showing
    | RoleSelected(role: UserRole)
    | BackPressed                        // back from a registration or visitor screen
    | VisitorContinued
    | RegistrationSettled(succeeded: bool)

  /** The screen the role-selection dispatch shows for each role. */
  function ScreenFor(role: UserRole): (s: Screen)
    ensures s != MainScreen && s != RoleSelectionScreen && s != SplashScreen && s != LoadingScreen
  {
    match role
    case Student => StudentRegistrationScreen
    case Faculty => FacultyRegistrationScreen
    case Staff => StaffRegistrationScreen
    case Visitor => VisitorInfoScreen
  }

  /** The role a registration or visitor screen belongs to, if any. */
  function RoleOf(s: Screen): (r: Option<UserRole>)
    ensures r.Some? ==> ScreenFor(r.value) == s
    ensures forall role :: ScreenFor(role) == s ==> r == Some(role)
  {
    match s
    case StudentRegistrationScreen => Some(Student)
    case FacultyRegistrationScreen => Some(Faculty)
    case StaffRegistrationScreen => Some(Staff)
    case VisitorInfoScreen => Some(Visitor)
    case _ => None
  }

  /** The four roles lead to four distinct screens. */
  lemma ScreenForInjective(a: UserRole, b: UserRole)
    ensures ScreenFor(a) == ScreenFor(b) ==> a == b
  {
  }

  predicate IsRegistrationScreen(s: Screen) {
    s == StudentRegistrationScreen || s == FacultyRegistrationScreen || s == StaffRegistrationScreen
  }

  /** The effect of one handler. */
  function Step(s: Shell, e: Event): (t: Shell)
    // every auth event marks the check done; a signed-in user goes to main from anywhere
    ensures e.AuthChanged? ==> t.authChecked && (e.signedIn ==> t.screen == MainScreen)
    ensures e.AuthChanged? && !e.signedIn ==> t.screen == s.screen
    // the splash captures authChecked when it mounts; its completion reads that captured value
    ensures e.SplashMounted? ==> t.splashAuthChecked == Some(s.authChecked) && t.screen == s.screen
    ensures e.SplashFinished? ==> t.screen == (if s.splashAuthChecked == Some(true) then RoleSelectionScreen else LoadingScreen)
    ensures e.Rendered? ==> t.screen == (if s.screen == LoadingScreen && s.authChecked then RoleSelectionScreen else s.screen)
    ensures e.RoleSelected? ==> t.screen == ScreenFor(e.role) && t.role == Some(e.role)
    ensures e.BackPressed? ==> t.screen == RoleSelectionScreen
    ensures e.VisitorContinued? ==> t.screen == MainScreen
    // registration: main on success, unchanged on failure, never left in flight
    ensures e.RegistrationSettled? ==> !t.isRegistering && t.screen == (if e.succeeded then MainScreen else s.screen)
    // only auth events touch authChecked, only role choices touch the role
    ensures !e.AuthChanged? ==> t.authChecked == s.authChecked
    ensures !e.RoleSelected? ==> t.role == s.role
    ensures !e.RegistrationSettled? ==> t.isRegistering == s.isRegistering
    ensures !e.SplashMounted? ==> t.splashAuthChecked == s.splashAuthChecked
  {
    match e
    case AuthChanged(signedIn) => s.(screen := if signedIn then MainScreen else s.screen, authChecked := true)
    case SplashMounted => s.(splashAuthChecked := Some(s.authChecked))
    case SplashFinished => s.(screen := if s.splashAuthChecked == Some(true) then RoleSelectionScreen else LoadingScreen)
    case Rendered => if s.screen == LoadingScreen && s.authChecked then s.(screen := RoleSelectionScreen) else s
    case RoleSelected(role) => s.(role := Some(role), screen := ScreenFor(role))
    case BackPressed => s.(screen := RoleSelectionScreen)
    case VisitorContinued => s.(screen := MainScreen)
    case RegistrationSettled(ok) => s.(screen := if ok then MainScreen else s.screen, isRegistering := false)
  }

  /**
   * Which events the interface can deliver in a state: the listener and renders
   * at any time; the splash mounts once, on the splash screen, and its callback
   * may come any time after that; the other callbacks only from the screen that
   * owns them.
   */
  predicate Enabled(s: Shell, e: Event) {
    match e
    case AuthChanged(_) => true
    case SplashMounted => s.screen == SplashScreen && s.splashAuthChecked.None?
    case SplashFinished => s.splashAuthChecked.Some?
    case Rendered => true
    case RoleSelected(_) => s.screen == RoleSelectionScreen
    case BackPressed => RoleOf(s.screen).Some?
    case VisitorContinued => s.screen == VisitorInfoScreen
    case RegistrationSettled(_) => IsRegistrationScreen(s.screen)
  }

  function Run(s: Shell, events: seq<Event>): Shell
    decreases |events|
  {
    if events == [] then s else Run(Step(s, events[0]), events[1..])
  }

  predicate EnabledRun(s: Shell, events: seq<Event>)
    decreases |events|
  {
    events == [] || (Enabled(s, events[0]) && EnabledRun(Step(s, events[0]), events[1..]))
  }

  /** A registration or visitor screen always belongs to the role last chosen. */
  predicate Consistent(s: Shell) {
    RoleOf(s.screen).Some? ==> s.role == RoleOf(s.screen)
  }

  lemma StepConsistent(s: Shell, e: Event)
    requires Consistent(s) && Enabled(s, e)
    ensures Consistent(Step(s, e))
  {
  }

  /** Every run of deliverable events from the initial state stays consistent. */
  lemma {:induction false} RunConsistent(s: Shell, events: seq<Event>)
    requires Consistent(s) && EnabledRun(s, events)
    ensures Consistent(Run(s, events))
    decreases |events|
  {
    if events != [] {
      StepConsistent(s, events[0]);
      RunConsistent(Step(s, events[0]), events[1..]);
    }
  }

  /** Once the first auth event has arrived, `authChecked` stays true whatever follows. */
  lemma {:induction false} RunKeepsAuthChecked(s: Shell, events: seq<Event>)
    requires s.authChecked
    ensures Run(s, events).authChecked
    decreases |events|
  {
    if events != [] {
      RunKeepsAuthChecked(Step(s, events[0]), events[1..]);
    }
  }

  /**
   * A signed-out user reaches role selection whichever comes first. When the
   * splash mounted before the auth answer, its callback still sees the captured
   * `false` and shows the spinner, and the next render moves on; only an answer
   * that arrived before the splash mounted leads straight to role selection.
   */
  lemma SignedOutReachesRoleSelection()
    ensures Run(Initial, [SplashMounted, SplashFinished, AuthChanged(false), Rendered]).screen == RoleSelectionScreen
    ensures Run(Initial, [SplashMounted, AuthChanged(false), SplashFinished]).screen == LoadingScreen
    ensures Run(Initial, [SplashMounted, AuthChanged(false), SplashFinished, Rendered]).screen == RoleSelectionScreen
    ensures Run(Initial, [AuthChanged(false), SplashMounted, SplashFinished]).screen == RoleSelectionScreen
  {
  }

  /**
   * The splash handler does not look at the current screen: a signed-in user
   * sent to main by the auth listener is moved to the spinner, and by the next
   * render to role selection, if the splash callback runs afterwards.
   */
  lemma SplashAfterSignInLeavesMain()
    ensures Run(Initial, [SplashMounted, AuthChanged(true)]).screen == MainScreen
    ensures Run(Initial, [SplashMounted, AuthChanged(true), SplashFinished]).screen == LoadingScreen
    ensures Run(Initial, [SplashMounted, AuthChanged(true), SplashFinished, Rendered]).screen == RoleSelectionScreen
  {
  }

  // ── derived sign-up fields and profile payloads ────────────────────────────

  const StaffEmailDomain: string := "@navigateu.app"

  /** Arguments of the `signUp` call. */
  datatype SignUpRequest = SignUpRequest(email: string, password: string, displayName: string)

  /** The display name given to a student account. */
  function StudentDisplayName(regNumber: string): (name: string)
    ensures |name| == 8 + |regNumber| && name[..8] == "Student-" && name[8..] == regNumber
  {
    "Student-" + regNumber
  }

  /** `data.email || staffId.toLowerCase() + "@navigateu.app"`. */
  function StaffSignUpEmail(email: string, staffId: string): (r: string)
    ensures email != "" ==> r == email
    ensures email == "" ==>
      && |r| == |staffId| + |StaffEmailDomain|
      && r[|staffId|..] == StaffEmailDomain
      && (forall i :: 0 <= i < |staffId| ==> r[i] == LowerChar(staffId[i]))
    ensures '@' in r <==> ('@' in email || email == "")
  {
    if email != "" then email
    else
      var r := ToLower(staffId) + StaffEmailDomain;
      assert r[|staffId|] == '@';
      r
  }

  /** What the faculty screen submits (that screen is not part of this model). */
  datatype FacultyFormData = FacultyFormData(
    fullName: string, facultyId: string, department: string, phone: string, email: string, password: string)

  function StudentSignUp(d: StudentRegistration.StudentFormData): SignUpRequest {
    SignUpRequest(d.email, d.password, StudentDisplayName(d.regNumber))
  }

  function StudentProfile(d: StudentRegistration.StudentFormData): Firestore.Doc {
    map["role" := Firestore.Text(RoleName(Student)), "email" := Firestore.Text(d.email),
        "displayName" := Firestore.Text(StudentDisplayName(d.regNumber)), "phone" := Firestore.Text(d.phone),
        "regNumber" := Firestore.Text(d.regNumber), "academicYear" := Firestore.Text(d.academicYear),
        "stream" := Firestore.Text(d.stream)]
  }

  /** The student's account and saved profile carry the same display name and email. */
  lemma StudentNamesAgree(d: StudentRegistration.StudentFormData)
    ensures StudentProfile(d)["displayName"] == Firestore.Text(StudentSignUp(d).displayName)
    ensures StudentProfile(d)["email"] == Firestore.Text(StudentSignUp(d).email)
  {
  }

  function FacultySignUp(d: FacultyFormData): SignUpRequest {
    SignUpRequest(d.email, d.password, d.fullName)
  }

  function FacultyProfile(d: FacultyFormData): Firestore.Doc {
    map["role" := Firestore.Text(RoleName(Faculty)), "email" := Firestore.Text(d.email),
        "displayName" := Firestore.Text(d.fullName), "phone" := Firestore.Text(d.phone),
        "employeeId" := Firestore.Text(d.facultyId), "department" := Firestore.Text(d.department)]
  }

  function StaffSignUp(d: StaffRegistration.StaffFormData): SignUpRequest {
    SignUpRequest(StaffSignUpEmail(d.email, d.staffId), d.password, d.fullName)
  }

  function StaffProfile(d: StaffRegistration.StaffFormData): Firestore.Doc {
    map["role" := Firestore.Text(RoleName(Staff)), "email" := Firestore.Text(StaffSignUpEmail(d.email, d.staffId)),
        "displayName" := Firestore.Text(d.fullName), "phone" := Firestore.Text(d.phone),
        "staffId" := Firestore.Text(d.staffId), "section" := Firestore.Text(d.department)]
  }

  /** The staff account and saved profile carry the same (possibly derived) email. */
  lemma StaffEmailsAgree(d: StaffRegistration.StaffFormData)
    ensures StaffProfile(d)["email"] == Firestore.Text(StaffSignUp(d).email)
    ensures StaffProfile(d)["section"] == Firestore.Text(d.department)
  {
  }

  /** A staff member who leaves the email empty still signs up with an address of the app's domain. */
  lemma StaffFallbackEmail(d: StaffRegistration.StaffFormData)
    requires d.email == ""
    ensures '@' in StaffSignUp(d).email
    ensures StaffSignUp(d).email[|d.staffId|..] == StaffEmailDomain
  {
  }

  // ── the root layout's state ────────────────────────────────────────────────

  class RootLayout {
    var currentScreen: Screen
    var authChecked: bool
    var isRegistering: bool
    var userRole: Option<UserRole>
    var splashAuthChecked: Option<bool>

    function State(): Shell
      reads this
    {
      Shell(currentScreen, authChecked, isRegistering, userRole, splashAuthChecked)
    }

    constructor ()
      ensures State() == Initial
    {
      currentScreen := SplashScreen;
      authChecked := false;
      isRegistering := false;
      userRole := None;
      splashAuthChecked := None;
    }

    method OnAuthChange(signedIn: bool)
      modifies this
      ensures State() == Step(old(State()), AuthChanged(signedIn))
    {
      if signedIn {
        currentScreen := MainScreen;
      }
      authChecked := true;
    }

    /** The splash's mount effect: the animation starts with the `onFinish` of this render. */
    method OnSplashMount()
      modifies this
      ensures State() == Step(old(State()), SplashMounted)
    {
      splashAuthChecked := Some(authChecked);
    }

    method OnSplashFinish()
      modifies this
      ensures State() == Step(old(State()), SplashFinished)
    {
      if splashAuthChecked == Some(true) {
        currentScreen := RoleSelectionScreen;
      } else {
        currentScreen := LoadingScreen;
      }
    }

    /** The check made while rendering the loading spinner. */
    method Render()
      modifies this
      ensures State() == Step(old(State()), Rendered)
    {
      if currentScreen == LoadingScreen && authChecked {
        currentScreen := RoleSelectionScreen;
      }
    }

    method OnRoleSelect(role: UserRole)
      requires currentScreen == RoleSelectionScreen
      modifies this
      ensures State() == Step(old(State()), RoleSelected(role))
    {
      userRole := Some(role);
      match role {
        case Student => currentScreen := StudentRegistrationScreen;
        case Faculty => currentScreen := FacultyRegistrationScreen;
        case Staff => currentScreen := StaffRegistrationScreen;
        case Visitor => currentScreen := VisitorInfoScreen;
      }
    }

    method OnBack()
      requires RoleOf(currentScreen).Some?
      modifies this
      ensures State() == Step(old(State()), BackPressed)
    {
      currentScreen := RoleSelectionScreen;
    }

    /** The visitor's details are not stored; continuing only leaves for main. */
    method OnVisitorContinue(data: VisitorInfo.VisitorData)
      requires currentScreen == VisitorInfoScreen
      modifies this
      ensures State() == Step(old(State()), VisitorContinued)
    {
      currentScreen := MainScreen;
    }

    /**
     * The registration handlers share one shape: sign up (`signedUp` is the new
     * uid, or None when `signUp` throws), then save the profile (`saved` says
     * whether the write went through), then main on success; `isRegistering`
     * is reset in `finally`.
     */
    method Register(request: SignUpRequest, profile: Firestore.Doc, signedUp: Option<string>, saved: bool,
                    store: Firestore.UserStore) returns (sent: SignUpRequest)
      requires IsRegistrationScreen(currentScreen) && store.Valid()
      modifies this, store
      ensures sent == request
      ensures store.Valid() && store.places == old(store.places)
      ensures store.users ==
        if signedUp.Some? && saved then Firestore.SavedProfiles(old(store.users), signedUp.value, profile)
        else old(store.users)
      ensures State() == Step(old(State()), RegistrationSettled(signedUp.Some? && saved))
    {
      isRegistering := true;
      sent := request;
      if signedUp.Some? && saved {
        store.SaveUserProfile(signedUp.value, profile);
        currentScreen := MainScreen;
      }
      isRegistering := false;
    }

    method SubmitStudent(data: StudentRegistration.StudentFormData, signedUp: Option<string>, saved: bool,
                         store: Firestore.UserStore) returns (sent: SignUpRequest)
      requires currentScreen == StudentRegistrationScreen && store.Valid()
      modifies this, store
      ensures sent == SignUpRequest(data.email, data.password, "Student-" + data.regNumber)
      ensures store.Valid() && store.places == old(store.places)
      ensures store.users ==
        if signedUp.Some? && saved then Firestore.SavedProfiles(old(store.users), signedUp.value, StudentProfile(data))
        else old(store.users)
      ensures State() == Step(old(State()), RegistrationSettled(signedUp.Some? && saved))
    {
      sent := Register(StudentSignUp(data), StudentProfile(data), signedUp, saved, store);
    }

    method SubmitFaculty(data: FacultyFormData, signedUp: Option<string>, saved: bool,
                         store: Firestore.UserStore) returns (sent: SignUpRequest)
      requires currentScreen == FacultyRegistrationScreen && store.Valid()
      modifies this, store
      ensures sent == SignUpRequest(data.email, data.password, data.fullName)
      ensures store.Valid() && store.places == old(store.places)
      ensures store.users ==
        if signedUp.Some? && saved then Firestore.SavedProfiles(old(store.users), signedUp.value, FacultyProfile(data))
        else old(store.users)
      ensures State() == Step(old(State()), RegistrationSettled(signedUp.Some? && saved))
    {
      sent := Register(FacultySignUp(data), FacultyProfile(data), signedUp, saved, store);
    }

    method SubmitStaff(data: StaffRegistration.StaffFormData, signedUp: Option<string>, saved: bool,
                       store: Firestore.UserStore) returns (sent: SignUpRequest)
      requires currentScreen == StaffRegistrationScreen && store.Valid()
      modifies this, store
      ensures sent == SignUpRequest(StaffSignUpEmail(data.email, data.staffId), data.password, data.fullName)
      ensures store.Valid() && store.places == old(store.places)
      ensures store.users ==
        if signedUp.Some? && saved then Firestore.SavedProfiles(old(store.users), signedUp.value, StaffProfile(data))
        else old(store.users)
      ensures State() == Step(old(State()), RegistrationSettled(signedUp.Some? && saved))
    {
      sent := Register(StaffSignUp(data), StaffProfile(data), signedUp, saved, store);
    }
  }
}
