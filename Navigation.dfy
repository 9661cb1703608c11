/**
 * Navigation targets of the app shell: a screen id plus an optional,
 * loosely typed data bag, and the one rule that rewrites a target as it is
 * pushed onto the back-stack (the dashboard remembers the tab it was left from).
 */
module Navigation {
  import opened Wrappers

  /** The screen ids the shell routes between. `Other` is any other string
      handed to navigate: the id is cast, never checked. */
  datatype Screen =
    | StudentDashboard
    | ProfessorDashboard
    | ProfessorCourses
    | ProfessorStudents
    | Home
    | ProfessorList
    | ProfessorDetail
    | WriteReview
    | Profile
    | Other(name: string)

  /** The string a screen is known by. */
  function ScreenId(s: Screen): string {
    match s
    case StudentDashboard => "student-dashboard"
    case ProfessorDashboard => "professor-dashboard"
    case ProfessorCourses => "professor-courses"
    case ProfessorStudents => "professor-students"
    case Home => "home"
    case ProfessorList => "professor-list"
    case ProfessorDetail => "professor-detail"
    case WriteReview => "write-review"
    case Profile => "profile"
    case Other(name) => name
  }

  const KnownIds: set<string> :=
    {"student-dashboard", "professor-dashboard", "professor-courses", "professor-students",
     "home", "professor-list", "professor-detail", "write-review", "profile"}

  /** A screen value that is the only one with its id: `Other` never spells a known id. */
  predicate Canonical(s: Screen) {
    s.Other? ==> s.name !in KnownIds
  }

  /** The cast `screen as any`: every string becomes a screen, known ids become their case. */
  function ParseScreen(id: string): (s: Screen)
    ensures ScreenId(s) == id
    ensures Canonical(s)
    ensures s.Other? <==> id !in KnownIds
  {
    if id == "student-dashboard" then StudentDashboard
    else if id == "professor-dashboard" then ProfessorDashboard
    else if id == "professor-courses" then ProfessorCourses
    else if id == "professor-students" then ProfessorStudents
    else if id == "home" then Home
    else if id == "professor-list" then ProfessorList
    else if id == "professor-detail" then ProfessorDetail
    else if id == "write-review" then WriteReview
    else if id == "profile" then Profile
    else Other(id)
  }

  /** Parsing the id of a canonical screen gives that screen back. */
  lemma ParseScreenId(s: Screen)
    requires Canonical(s)
    ensures ParseScreen(ScreenId(s)) == s
  {
  }

  /** The data bag `data?: any`: absent, or a record of string-valued fields. */
  type Payload = Option<map<string, string>>

  const ActiveTab := "activeTab"
  const ReturnTab := "returnTab"
  const ProfessorId := "professorId"
  const SearchQuery := "searchQuery"

  /** `data?.key`: the field's value, or nothing when the bag or the field is absent. */
  function Field(data: Payload, key: string): (r: Option<string>)
    ensures r.Some? <==> data.Some? && key in data.value
    ensures r.Some? ==> r.value == data.value[key]
  {
    match data
    case None => None
    case Some(m) => if key in m then Some(m[key]) else None
  }

  /** JavaScript truthiness of the string field `data?.key`: present and non-empty. */
  predicate Truthy(data: Payload, key: string) {
    Field(data, key).Some? && Field(data, key).value != ""
  }

  /** The spread `{ ...data, key: value }`; an absent bag spreads as no fields. */
  function WithField(data: Payload, key: string, value: string): (r: Payload)
    ensures Field(r, key) == Some(value)
    ensures forall k :: k != key ==> Field(r, k) == Field(data, k)
  {
    Some((if data.Some? then data.value else map[])[key := value])
  }

  /** `NavigationState`: where the shell is and what it was told. */
  datatype NavigationState = NavigationState(screen: Screen, data: Payload)

  /** The start target, and the one logout and a student login return to. */
  const Landing := NavigationState(StudentDashboard, None)

  /** The special case of navigate: leaving the student dashboard with a truthy `returnTab`. */
  predicate MergesTab(current: NavigationState, incoming: Payload) {
    current.screen == StudentDashboard && Truthy(incoming, ReturnTab)
  }

  /** The entry navigate pushes for the target it leaves: the current target, except that the
      dashboard left with a `returnTab` records it as its `activeTab`, all else kept. */
  function Departing(current: NavigationState, incoming: Payload): (r: NavigationState)
    ensures r.screen == current.screen
    ensures MergesTab(current, incoming) ==>
      r.data.Some? && Field(r.data, ActiveTab) == Field(incoming, ReturnTab)
    ensures MergesTab(current, incoming) ==>
      forall k :: k != ActiveTab ==> Field(r.data, k) == Field(current.data, k)
    ensures !MergesTab(current, incoming) ==> r == current
  {
    if MergesTab(current, incoming) then
      current.(data := WithField(current.data, ActiveTab, Field(incoming, ReturnTab).value))
    else
      current
  }
}
