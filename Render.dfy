/**
 * The conditional render of the `App` component: which screen component is
 * mounted for a controller state, and with which props. Each component is a
 * tag carrying the props the controller passes it besides its callbacks.
 */
module Rendering {
  import opened Wrappers
  import opened Navigation
  import opened Controller

  datatype View =
    | LoginSelectView
    | StudentLoginView
    | ProfessorLoginView
    | StudentDashboardView(initialTab: Option<string>)
    | HomePageView
    | ProfessorListView(initialSearch: string)
    | ProfessorDetailView(professorId: string, viewerRole: Role)
    | WriteReviewView(professorId: string)
    | StudentProfileView(userEmail: string)
    | ProfessorDashboardView
    | ProfessorCoursesView
    | ProfessorStudentsView

  /** What the component returns: a login component on its own before login, afterwards the
      page container holding the children whose guards hold. */
  datatype Page = Bare(view: View) | Shell(children: seq<View>)

  /** `value || fallback` for an optional string. */
  function OrElse(value: Option<string>, fallback: string): string {
    if value.Some? && value.value != "" then value.value else fallback
  }

  /** `cond && <V/>`: the child when its guard holds, nothing otherwise. */
  function When(cond: bool, v: View): seq<View> {
    if cond then [v] else []
  }

  /** The professor id handed to a detail or review screen (only read once its guard holds). */
  function ProfessorIdOf(nav: NavigationState): string {
    Field(nav.data, ProfessorId).GetOr("")
  }

  function LoginView(screen: LoginScreen): View {
    match screen
    case SelectRole => LoginSelectView
    case StudentLogin => StudentLoginView
    case ProfessorLogin => ProfessorLoginView
  }

  /** The children of the student branch, in the order they are written. */
  function StudentChildren(nav: NavigationState, userEmail: string): seq<View> {
    When(ScreenId(nav.screen) == "student-dashboard", StudentDashboardView(Field(nav.data, ActiveTab)))
    + When(ScreenId(nav.screen) == "home", HomePageView)
    + When(ScreenId(nav.screen) == "professor-list", ProfessorListView(OrElse(Field(nav.data, SearchQuery), "")))
    + When(ScreenId(nav.screen) == "professor-detail" && Truthy(nav.data, ProfessorId),
           ProfessorDetailView(ProfessorIdOf(nav), Student))
    + When(ScreenId(nav.screen) == "write-review" && Truthy(nav.data, ProfessorId),
           WriteReviewView(ProfessorIdOf(nav)))
    + When(ScreenId(nav.screen) == "profile", StudentProfileView(userEmail))
  }

  /** The children of the professor branch, in the order they are written. */
  function ProfessorChildren(nav: NavigationState): seq<View> {
    When(ScreenId(nav.screen) == "professor-dashboard", ProfessorDashboardView)
    + When(ScreenId(nav.screen) == "professor-courses", ProfessorCoursesView)
    + When(ScreenId(nav.screen) == "professor-students", ProfessorStudentsView)
    + When(ScreenId(nav.screen) == "professor-detail" && Truthy(nav.data, ProfessorId),
           ProfessorDetailView(ProfessorIdOf(nav), Professor))
    + When(ScreenId(nav.screen) == "professor-list", ProfessorListView(OrElse(Field(nav.data, SearchQuery), "")))
  }

  /** The render: before login the sub-screen picks a login component; after login the role's
      branch mounts at most one screen, since the screen cases are disjoint. The guards compare
      screen ids, as the component compares strings. */
  function Render(s: AppState): (p: Page)
    ensures s.userRole.None? <==> p.Bare?
    ensures p.Bare? ==> p.view == LoginView(s.loginScreen)
    ensures p.Shell? ==> |p.children| <= 1
  {
    match s.userRole
    case None => Bare(LoginView(s.loginScreen))
    case Some(Student) => Shell(StudentChildren(s.navigation, s.userEmail))
    case Some(Professor) => Shell(ProfessorChildren(s.navigation))
  }

  /** The targets a student can see: a screen of the student branch, with a truthy
      professor id where the screen needs one. */
  predicate StudentRoutable(nav: NavigationState) {
    ScreenId(nav.screen) in {"student-dashboard", "home", "professor-list", "profile"} ||
    (ScreenId(nav.screen) in {"professor-detail", "write-review"} && Truthy(nav.data, ProfessorId))
  }

  /** The targets a professor can see. */
  predicate ProfessorRoutable(nav: NavigationState) {
    ScreenId(nav.screen) in {"professor-dashboard", "professor-courses", "professor-students", "professor-list"} ||
    (ScreenId(nav.screen) == "professor-detail" && Truthy(nav.data, ProfessorId))
  }

  /** After login a screen is mounted exactly when the target is one the role can see. */
  lemma MountedIffRoutable(s: AppState)
    requires s.userRole.Some?
    ensures Render(s).Shell?
    ensures s.userRole == Some(Student) ==>
      (Render(s).children != [] <==> StudentRoutable(s.navigation))
    ensures s.userRole == Some(Professor) ==>
      (Render(s).children != [] <==> ProfessorRoutable(s.navigation))
  {
  }

  /** Before login the navigation state, role-independent fields and stack are invisible:
      only the login sub-screen decides. */
  lemma PreAuthRenderDependsOnlyOnLoginScreen(s: AppState, t: AppState)
    requires s.userRole.None? && t.userRole.None? && s.loginScreen == t.loginScreen
    ensures Render(s) == Render(t)
  {
  }

  /** A detail or review target without a truthy professor id mounts nothing, for either role. */
  lemma MissingProfessorIdRendersNothing(s: AppState)
    requires s.userRole.Some?
    requires s.navigation.screen in {ProfessorDetail, WriteReview}
    requires !Truthy(s.navigation.data, ProfessorId)
    ensures Render(s) == Shell([])
  {
  }

  /** The student-only screens never mount for a professor. */
  lemma StudentScreensHiddenFromProfessors(s: AppState)
    requires s.userRole == Some(Professor)
    requires s.navigation.screen in {Home, WriteReview, Profile, StudentDashboard}
    ensures Render(s) == Shell([])
  {
  }

  /** A target whose id names no screen mounts nothing. */
  lemma UnknownScreenRendersNothing(s: AppState)
    requires s.userRole.Some? && ScreenId(s.navigation.screen) !in KnownIds
    ensures Render(s) == Shell([])
  {
  }

  /** The mounted screen's props come from the target's data: the dashboard's initial tab is
      `activeTab`, the list's initial search is a truthy `searchQuery` or empty, detail and
      review get the professor id, the profile gets the stored email. */
  lemma MountedProps(s: AppState)
    requires s.userRole == Some(Student)
    ensures s.navigation.screen == StudentDashboard ==>
      Render(s) == Shell([StudentDashboardView(Field(s.navigation.data, ActiveTab))])
    ensures s.navigation.screen == Home ==> Render(s) == Shell([HomePageView])
    ensures s.navigation.screen == ProfessorList ==>
      Render(s) == Shell([ProfessorListView(
        if Truthy(s.navigation.data, SearchQuery) then Field(s.navigation.data, SearchQuery).value else "")])
    ensures s.navigation.screen == ProfessorDetail && Truthy(s.navigation.data, ProfessorId) ==>
      Render(s) == Shell([ProfessorDetailView(Field(s.navigation.data, ProfessorId).value, Student)])
    ensures s.navigation.screen == WriteReview && Truthy(s.navigation.data, ProfessorId) ==>
      Render(s) == Shell([WriteReviewView(Field(s.navigation.data, ProfessorId).value)])
    ensures s.navigation.screen == Profile ==> Render(s) == Shell([StudentProfileView(s.userEmail)])
  {
  }

  /** The professor branch: each professor screen mounts its own component; the list's initial
      search is a truthy `searchQuery` or empty, and the detail screen gets the professor id and
      the professor role. */
  lemma ProfessorMountedProps(s: AppState)
    requires s.userRole == Some(Professor)
    ensures s.navigation.screen == ProfessorDashboard ==> Render(s) == Shell([ProfessorDashboardView])
    ensures s.navigation.screen == ProfessorCourses ==> Render(s) == Shell([ProfessorCoursesView])
    ensures s.navigation.screen == ProfessorStudents ==> Render(s) == Shell([ProfessorStudentsView])
    ensures s.navigation.screen == ProfessorList ==>
      Render(s) == Shell([ProfessorListView(
        if Truthy(s.navigation.data, SearchQuery) then Field(s.navigation.data, SearchQuery).value else "")])
    ensures s.navigation.screen == ProfessorDetail && Truthy(s.navigation.data, ProfessorId) ==>
      Render(s) == Shell([ProfessorDetailView(Field(s.navigation.data, ProfessorId).value, Professor)])
  {
  }

  /** A student who leaves the dashboard with a `returnTab` and comes back sees the dashboard
      opened on that tab. */
  lemma BackToDashboardOpensReturnTab(s: AppState, screen: string, data: Payload)
    requires s.userRole == Some(Student) && s.navigation.screen == StudentDashboard
    requires Truthy(data, ReturnTab)
    ensures Render(WentBack(Navigated(s, screen, data)))
         == Shell([StudentDashboardView(Field(data, ReturnTab))])
  {
  }

  /** A malformed detail navigation, as a student or professor, leaves the page empty. */
  lemma NavigateWithoutProfessorId(s: AppState, data: Payload)
    requires s.userRole.Some? && !Truthy(data, ProfessorId)
    ensures Render(Navigated(s, "professor-detail", data)) == Shell([])
  {
  }
}
