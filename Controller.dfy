/**
 * The navigation controller of the `App` component as a pure state machine:
 * the five pieces of state, one transition per handler, and what runs of
 * handler calls do to the back-stack.
 */
module Controller {
  import opened Wrappers
  import opened Navigation

  datatype Role = Student | Professor

  /** `'student' | 'professor' | null`. */
  type UserRole = Option<Role>

  /** The pre-login sub-screen: `'select' | 'student' | 'professor'`. */
  datatype LoginScreen = SelectRole | StudentLogin | ProfessorLogin

  datatype AppState = AppState(
    userRole: UserRole,
    loginScreen: LoginScreen,
    userEmail: string,
    navigation: NavigationState,
    history: seq<NavigationState>)

  /** The state the component mounts with. */
  const Initial := AppState(None, SelectRole, "", Landing, [])

  /** Every screen in the state is the only value with its id. */
  predicate WellFormed(s: AppState) {
    Canonical(s.navigation.screen) &&
    forall i :: 0 <= i < |s.history| ==> Canonical(s.history[i].screen)
  }

  /** The landing target of a role after login. */
  function Dashboard(role: Role): (t: NavigationState)
    ensures t.data.None?
    ensures t.screen == StudentDashboard <==> role == Student
    ensures t.screen == ProfessorDashboard <==> role == Professor
  {
    match role
    case Student => NavigationState(StudentDashboard, None)
    case Professor => NavigationState(ProfessorDashboard, None)
  }

  /** `if (email)`: a supplied, non-empty email. */
  predicate Supplied(email: Option<string>) {
    email.Some? && email.value != ""
  }

  /** handleRoleSelect: picks the login form; a null role does nothing. */
  function RoleSelected(s: AppState, role: UserRole): (r: AppState)
    ensures r.userRole == s.userRole && r.userEmail == s.userEmail
    ensures r.navigation == s.navigation && r.history == s.history
    ensures role == Some(Student) ==> r.loginScreen == StudentLogin
    ensures role == Some(Professor) ==> r.loginScreen == ProfessorLogin
    ensures role.None? ==> r == s
  {
    match role
    case Some(Student) => s.(loginScreen := StudentLogin)
    case Some(Professor) => s.(loginScreen := ProfessorLogin)
    case None => s
  }

  /** handleLogin: sets the role, keeps a supplied email, empties the back-stack and lands a
      student or professor on their dashboard; a null role keeps the current target. */
  function LoggedIn(s: AppState, role: UserRole, email: Option<string>): (r: AppState)
    ensures r.userRole == role && r.loginScreen == s.loginScreen
    ensures r.history == []
    ensures Supplied(email) ==> r.userEmail == email.value
    ensures !Supplied(email) ==> r.userEmail == s.userEmail
    ensures role.Some? ==> r.navigation == Dashboard(role.value)
    ensures role.None? ==> r.navigation == s.navigation
  {
    var email' := if Supplied(email) then email.value else s.userEmail;
    var navigation' := if role.Some? then Dashboard(role.value) else s.navigation;
    AppState(role, s.loginScreen, email', navigation', [])
  }

  /** handleLogout: back to the mount-time state, whatever the state was. */
  function LoggedOut(s: AppState): (r: AppState)
    ensures r.userRole.None? && r.userEmail == "" && r.loginScreen == SelectRole
    ensures r.navigation == NavigationState(StudentDashboard, None) && r.history == []
  {
    Initial
  }

  /** handleNavigate: pushes the departing target (see `Departing`) and switches to
      `{screen, data}`; nothing else changes. */
  function Navigated(s: AppState, screen: string, data: Payload): (r: AppState)
    ensures |r.history| == |s.history| + 1
    ensures r.history[..|s.history|] == s.history
    ensures r.history[|s.history|] == Departing(s.navigation, data)
    ensures ScreenId(r.navigation.screen) == screen && Canonical(r.navigation.screen)
    ensures r.navigation.data == data
    ensures r.userRole == s.userRole && r.loginScreen == s.loginScreen
    ensures r.userEmail == s.userEmail
  {
    s.(history := s.history + [Departing(s.navigation, data)],
       navigation := NavigationState(ParseScreen(screen), data))
  }

  /** handleBack: restores the last pushed target and drops it; a no-op on an empty stack. */
  function WentBack(s: AppState): (r: AppState)
    ensures s.history == [] ==> r == s
    ensures s.history != [] ==> r.history + [r.navigation] == s.history
    ensures r.userRole == s.userRole && r.loginScreen == s.loginScreen
    ensures r.userEmail == s.userEmail
  {
    if |s.history| > 0 then
      s.(history := s.history[..|s.history| - 1], navigation := s.history[|s.history| - 1])
    else
      s
  }

  /** handleBackToRoleSelect: only the login sub-screen changes, to the role picker. */
  function ReturnedToRoleSelect(s: AppState): (r: AppState)
    ensures r.loginScreen == SelectRole
    ensures r.userRole == s.userRole && r.userEmail == s.userEmail
    ensures r.navigation == s.navigation && r.history == s.history
  {
    s.(loginScreen := SelectRole)
  }

  /** One call into the controller from a child screen. */
  datatype Event =
    | SelectRoleEvent(role: UserRole)
    | LoginEvent(loginRole: UserRole, email: Option<string>)
    | LogoutEvent
    | NavigateEvent(screen: string, data: Payload)
    | BackEvent
    | BackToRoleSelectEvent

  function Step(s: AppState, e: Event): AppState {
    match e
    case SelectRoleEvent(role) => RoleSelected(s, role)
    case LoginEvent(role, email) => LoggedIn(s, role, email)
    case LogoutEvent => LoggedOut(s)
    case NavigateEvent(screen, data) => Navigated(s, screen, data)
    case BackEvent => WentBack(s)
    case BackToRoleSelectEvent => ReturnedToRoleSelect(s)
  }

  /** The events handled one after another, first to last. */
  function Run(s: AppState, es: seq<Event>): AppState
    decreases |es|
  {
    if es == [] then s else Run(Step(s, es[0]), es[1..])
  }

  /** Every handler keeps the screens canonical. */
  lemma StepWellFormed(s: AppState, e: Event)
    requires WellFormed(s)
    ensures WellFormed(Step(s, e))
  {
  }

  lemma InitialWellFormed()
    ensures WellFormed(Initial) && Initial.history == []
  {
  }

  // ---------------------------------------------------------------------------
  // Navigate and back

  /** Back after navigate restores the target that was left, in the form it was pushed. */
  lemma NavigateThenBack(s: AppState, screen: string, data: Payload)
    ensures WentBack(Navigated(s, screen, data)) == s.(navigation := Departing(s.navigation, data))
    ensures !MergesTab(s.navigation, data) ==> WentBack(Navigated(s, screen, data)) == s
  {
  }

  /** Leaving the dashboard with a `returnTab` and coming back reopens it on that tab. */
  lemma NavigateThenBackRemembersTab(s: AppState, screen: string, data: Payload)
    requires s.navigation.screen == StudentDashboard && Truthy(data, ReturnTab)
    ensures WentBack(Navigated(s, screen, data)).navigation.screen == StudentDashboard
    ensures Field(WentBack(Navigated(s, screen, data)).navigation.data, ActiveTab)
         == Field(data, ReturnTab)
  {
  }

  predicate NavigationOnly(es: seq<Event>) {
    forall i :: 0 <= i < |es| ==> es[i].NavigateEvent? || es[i].BackEvent?
  }

  function Navigates(es: seq<Event>): nat
    decreases |es|
  {
    if es == [] then 0 else (if es[0].NavigateEvent? then 1 else 0) + Navigates(es[1..])
  }

  /** The back calls of a run that found a non-empty stack. */
  function SuccessfulBacks(s: AppState, es: seq<Event>): nat
    decreases |es|
  {
    if es == [] then 0
    else (if es[0].BackEvent? && s.history != [] then 1 else 0) + SuccessfulBacks(Step(s, es[0]), es[1..])
  }

  /** The stack grows by one per navigate and shrinks by one per back that found it non-empty;
      it never has fewer entries than none. */
  lemma {:induction false} HistoryLength(s: AppState, es: seq<Event>)
    requires NavigationOnly(es)
    ensures SuccessfulBacks(s, es) <= |s.history| + Navigates(es)
    ensures |Run(s, es).history| == |s.history| + Navigates(es) - SuccessfulBacks(s, es)
    decreases |es|
  {
    if es != [] {
      assert NavigationOnly(es[1..]) by {
        forall i | 0 <= i < |es[1..]| ensures es[1..][i].NavigateEvent? || es[1..][i].BackEvent? {
          assert es[1..][i] == es[i + 1];
        }
      }
      HistoryLength(Step(s, es[0]), es[1..]);
    }
  }

  /** Net change in stack depth of one event: +1 navigate, -1 back. */
  function Delta(e: Event): int {
    if e.NavigateEvent? then 1 else if e.BackEvent? then -1 else 0
  }

  function NetDepth(es: seq<Event>): int
    decreases |es|
  {
    if es == [] then 0 else Delta(es[0]) + NetDepth(es[1..])
  }

  /** Starting at depth `d`, no prefix of the run backs out below the start. */
  predicate NeverBelow(d: int, es: seq<Event>)
    decreases |es|
  {
    d >= 0 && (es == [] || NeverBelow(d + Delta(es[0]), es[1..]))
  }

  predicate NoReturnTab(es: seq<Event>) {
    forall i :: 0 <= i < |es| ==> es[i].NavigateEvent? ==> !Truthy(es[i].data, ReturnTab)
  }

  /** `t` is `base` with `d` further targets stacked on it: at depth 0 it is back at `base`'s
      target, and deeper down the first extra entry is `base`'s target. */
  predicate Stacked(base: AppState, t: AppState, d: nat) {
    t.userRole == base.userRole && t.loginScreen == base.loginScreen &&
    t.userEmail == base.userEmail &&
    |t.history| == |base.history| + d &&
    t.history[..|base.history|] == base.history &&
    (d == 0 ==> t.navigation == base.navigation) &&
    (d > 0 ==> t.history[|base.history|] == base.navigation)
  }

  lemma StepStacked(base: AppState, t: AppState, d: nat, e: Event)
    requires Stacked(base, t, d)
    requires e.NavigateEvent? || e.BackEvent?
    requires e.NavigateEvent? ==> !Truthy(e.data, ReturnTab)
    requires d + Delta(e) >= 0
    ensures Stacked(base, Step(t, e), d + Delta(e))
  {
  }

  lemma {:induction false} RunStacked(base: AppState, t: AppState, d: nat, es: seq<Event>)
    requires Stacked(base, t, d)
    requires NavigationOnly(es) && NoReturnTab(es) && NeverBelow(d, es)
    ensures d + NetDepth(es) >= 0
    ensures Stacked(base, Run(t, es), d + NetDepth(es))
    decreases |es|
  {
    if es != [] {
      assert es[0] == es[0 ..][0];
      assert NeverBelow(d + Delta(es[0]), es[1..]);
      StepStacked(base, t, d, es[0]);
      assert NavigationOnly(es[1..]) && NoReturnTab(es[1..]) by {
        forall i | 0 <= i < |es[1..]| ensures es[1..][i] == es[i + 1] { }
      }
      RunStacked(base, Step(t, es[0]), d + Delta(es[0]), es[1..]);
    }
  }

  /** A run of navigates and backs that never backs out below its start and ends as deep as it
      began returns the controller to exactly the state it started in, provided no navigate
      carries a `returnTab`. */
  lemma BalancedRunRestores(s: AppState, es: seq<Event>)
    requires NavigationOnly(es) && NoReturnTab(es)
    requires NeverBelow(0, es) && NetDepth(es) == 0
    ensures Run(s, es) == s
  {
    RunStacked(s, s, 0, es);
    var r := Run(s, es);
    assert r.history == r.history[..|s.history|];
  }

  // ---------------------------------------------------------------------------
  // Sessions

  /** Handling one run and then another is handling the two one after the other. */
  lemma {:induction false} RunAppend(s: AppState, a: seq<Event>, b: seq<Event>)
    ensures Run(s, a + b) == Run(Run(s, a), b)
    decreases |a|
  {
    if a != [] {
      assert (a + b)[0] == a[0] && (a + b)[1..] == a[1..] + b;
      RunAppend(Step(s, a[0]), a[1..], b);
    } else {
      assert a + b == b;
    }
  }

  /** Login discards the previous session's navigation: two states that differ only in role,
      target and stack are indistinguishable after logging in as a role. */
  lemma LoginResets(s: AppState, t: AppState, role: Role, email: Option<string>)
    requires s.loginScreen == t.loginScreen && s.userEmail == t.userEmail
    ensures LoggedIn(s, Some(role), email) == LoggedIn(t, Some(role), email)
  {
  }

  /** Whatever run of handler calls came before, logout ends in the mount-time state, and a
      second logout changes nothing. */
  lemma LogoutForgets(s: AppState, es: seq<Event>)
    ensures Run(s, es + [LogoutEvent]) == Initial
    ensures Run(s, es + [LogoutEvent, LogoutEvent]) == Run(s, es + [LogoutEvent])
  {
    RunAppend(s, es, [LogoutEvent]);
    RunAppend(s, es, [LogoutEvent, LogoutEvent]);
    assert [LogoutEvent, LogoutEvent][1..] == [LogoutEvent];
  }

  /** Back on an empty stack changes nothing, however often it is repeated. */
  lemma {:induction false} BacksOnEmptyStack(s: AppState, k: nat)
    requires s.history == []
    ensures Run(s, seq(k, _ => BackEvent)) == s
    decreases k
  {
    if k > 0 {
      var es := seq(k, _ => BackEvent);
      assert es[1..] == seq(k - 1, _ => BackEvent);
      BacksOnEmptyStack(s, k - 1);
    }
  }

  /** Picking a role and then going back to the picker only moves the login sub-screen. */
  lemma RoleSelectThenBack(s: AppState, role: UserRole)
    ensures ReturnedToRoleSelect(RoleSelected(s, role)) == s.(loginScreen := SelectRole)
  {
  }

  // ---------------------------------------------------------------------------
  // Scenarios

  /** Pick student, log in: the dashboard with no data and an empty stack. */
  lemma StudentLoginScenario()
    ensures Run(Initial, [SelectRoleEvent(Some(Student)), LoginEvent(Some(Student), Some("a@b.edu"))])
         == AppState(Some(Student), StudentLogin, "a@b.edu", NavigationState(StudentDashboard, None), [])
  {
  }

  /** Dashboard on tab A, open a professor with `returnTab` B, go back: the dashboard on tab B. */
  lemma ReturnTabScenario(s: AppState)
    requires s.navigation == NavigationState(StudentDashboard, Some(map[ActiveTab := "A"]))
    ensures Run(s, [NavigateEvent("professor-detail", Some(map[ProfessorId := "p1", ReturnTab := "B"])), BackEvent])
         == s.(navigation := NavigationState(StudentDashboard, Some(map[ActiveTab := "B"])))
  {
    var data := Some(map[ProfessorId := "p1", ReturnTab := "B"]);
    var es := [NavigateEvent("professor-detail", data), BackEvent];
    assert Truthy(data, ReturnTab);
    assert map[ActiveTab := "A"][ActiveTab := "B"] == map[ActiveTab := "B"];
    NavigateThenBack(s, "professor-detail", data);
    var s1 := Navigated(s, "professor-detail", data);
    assert Run(s, es) == Run(s1, [BackEvent]) by { assert es[1..] == [BackEvent]; }
    assert Run(s1, [BackEvent]) == Run(WentBack(s1), []);
  }

  /** Search for Smith, open professor 42, go back: the search list again. */
  lemma SearchThenDetailScenario(s: AppState)
    requires s.navigation == Landing
    ensures Run(s, [NavigateEvent("professor-list", Some(map[SearchQuery := "Smith"])),
                    NavigateEvent("professor-detail", Some(map[ProfessorId := "42"])),
                    BackEvent]).navigation
         == NavigationState(ProfessorList, Some(map[SearchQuery := "Smith"]))
  {
    var list := Some(map[SearchQuery := "Smith"]);
    var detail := Some(map[ProfessorId := "42"]);
    var es := [NavigateEvent("professor-list", list), NavigateEvent("professor-detail", detail), BackEvent];
    var s1 := Navigated(s, "professor-list", list);
    var s2 := Navigated(s1, "professor-detail", detail);
    assert s1.navigation == NavigationState(ProfessorList, list);
    NavigateThenBack(s1, "professor-detail", detail);
    assert Run(s, es) == Run(s1, es[1..]);
    assert es[1..][0] == NavigateEvent("professor-detail", detail);
    assert Run(s1, es[1..]) == Run(s2, [BackEvent]) by { assert es[1..][1..] == [BackEvent]; }
    assert Run(s2, [BackEvent]) == Run(WentBack(s2), []);
  }
}
