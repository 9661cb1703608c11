/**
 * The `App` component's state and handlers as an object: each handler is one
 * atomic step that applies its setter calls in order, and its contract ties the
 * new state to the controller transition of the old one.
 */
module AppComponent {
  import opened Wrappers
  import opened Navigation
  import opened Controller

  class App {
    var userRole: UserRole
    var loginScreen: LoginScreen
    var userEmail: string
    var navigation: NavigationState
    var navigationHistory: seq<NavigationState>

    /** The state as a value, for the controller's transitions and the render. */
    ghost function State(): AppState
      reads this
    {
      AppState(userRole, loginScreen, userEmail, navigation, navigationHistory)
    }

    constructor ()
      ensures State() == Initial
      ensures WellFormed(State())
    {
      userRole := None;
      loginScreen := SelectRole;
      userEmail := "";
      navigation := NavigationState(StudentDashboard, None);
      navigationHistory := [];
    }

    method HandleRoleSelect(role: UserRole)
      requires WellFormed(State())
      modifies this
      ensures State() == RoleSelected(old(State()), role)
      ensures userRole == old(userRole) && userEmail == old(userEmail)
      ensures navigation == old(navigation) && navigationHistory == old(navigationHistory)
      ensures WellFormed(State())
    {
      if role == Some(Student) {
        loginScreen := StudentLogin;
      } else if role == Some(Professor) {
        loginScreen := ProfessorLogin;
      }
      StepWellFormed(old(State()), SelectRoleEvent(role));
    }

    method HandleLogin(role: UserRole, email: Option<string>)
      requires WellFormed(State())
      modifies this
      ensures State() == LoggedIn(old(State()), role, email)
      ensures navigationHistory == [] && loginScreen == old(loginScreen)
      ensures WellFormed(State())
    {
      userRole := role;
      if email.Some? && email.value != "" {
        userEmail := email.value;
      }
      navigationHistory := [];
      if role == Some(Student) {
        navigation := NavigationState(StudentDashboard, None);
      } else if role == Some(Professor) {
        navigation := NavigationState(ProfessorDashboard, None);
      }
      StepWellFormed(old(State()), LoginEvent(role, email));
    }

    method HandleLogout()
      requires WellFormed(State())
      modifies this
      ensures State() == LoggedOut(old(State())) == Initial
      ensures WellFormed(State())
    {
      userRole := None;
      userEmail := "";
      loginScreen := SelectRole;
      navigation := NavigationState(StudentDashboard, None);
      navigationHistory := [];
      StepWellFormed(old(State()), LogoutEvent);
    }

    method HandleNavigate(screen: string, data: Payload)
      requires WellFormed(State())
      modifies this
      ensures State() == Navigated(old(State()), screen, data)
      ensures navigationHistory == old(navigationHistory) + [Departing(old(navigation), data)]
      ensures ScreenId(navigation.screen) == screen && Canonical(navigation.screen)
      ensures navigation.data == data
      ensures WellFormed(State())
    {
      var updatedCurrentNavigation := navigation;
      if navigation.screen == StudentDashboard && Truthy(data, ReturnTab) {
        updatedCurrentNavigation :=
          navigation.(data := WithField(navigation.data, ActiveTab, Field(data, ReturnTab).value));
      }
      navigationHistory := navigationHistory + [updatedCurrentNavigation];
      navigation := NavigationState(ParseScreen(screen), data);
      StepWellFormed(old(State()), NavigateEvent(screen, data));
    }

    method HandleBack()
      requires WellFormed(State())
      modifies this
      ensures State() == WentBack(old(State()))
      ensures old(navigationHistory) == [] ==> State() == old(State())
      ensures old(navigationHistory) != [] ==>
        navigationHistory + [navigation] == old(navigationHistory)
      ensures WellFormed(State())
    {
      if |navigationHistory| > 0 {
        var previous := navigationHistory[|navigationHistory| - 1];
        navigationHistory := navigationHistory[..|navigationHistory| - 1];
        navigation := previous;
      }
      StepWellFormed(old(State()), BackEvent);
    }

    method HandleBackToRoleSelect()
      requires WellFormed(State())
      modifies this
      ensures State() == ReturnedToRoleSelect(old(State()))
      ensures WellFormed(State())
    {
      loginScreen := SelectRole;
      StepWellFormed(old(State()), BackToRoleSelectEvent);
    }
  }
}
