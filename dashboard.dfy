/** main.py, the first dashboard: the credential check, the session state
    its pages read and change, the page menu and router with the
    administrator gate, and the comment page's filters, stars and posting. */
module Dashboard {
  import opened Common
  import opened Numeric
  import opened Text
  import opened SessionValues

  // ---------------------------------------------------------------------------
  // Authentication

  /** A `users_db` record. */
  datatype User = User(password: string, name: string, faculty: string, semester: string, role: string)

  /** `load_users_db()`. */
  const UsersDb: map<string, User> := map[
    "estudiante1" := User("1234", "Juan Pérez", "MATCOM", "2023-2", "estudiante"),
    "estudiante2" := User("1234", "Ana Gómez", "FF", "2023-2", "estudiante"),
    "admin" := User("admin123", "Administrador", "Todas", "2023-2", "administrador")
  ]

  /** `authenticate_user(username, password, users_db)`: the record of a
      known user whose password matches, None (Python's `(False, None)`)
      otherwise. */
  function AuthenticateUser(username: string, password: string, db: map<string, User>): (r: Option<User>)
    ensures r.Some? <==> username in db && db[username].password == password
    ensures r.Some? ==> r.value == db[username]
  {
    if username in db && password == db[username].password then Some(db[username]) else None
  }

  /** With the app's database only the admin account with its own password
      yields the administrator role, and a wrong password never signs in. */
  lemma AdministratorCredentials(username: string, password: string)
    ensures (AuthenticateUser(username, password, UsersDb).Some? &&
             AuthenticateUser(username, password, UsersDb).value.role == "administrador") <==>
            username == "admin" && password == "admin123"
    ensures username in UsersDb && password != UsersDb[username].password ==>
              AuthenticateUser(username, password, UsersDb).None?
  {
    if username in UsersDb && username != "admin" {
      assert UsersDb[username].role == "estudiante";
    }
  }

  // ---------------------------------------------------------------------------
  // Session state

  /** The session keys this dashboard writes: `logged_in`, `current_user`,
      `user_role`, `user_faculty`, `semestre_actual`, `rating`, `classes`,
      `vd`, `rating_MATCOM`, `comments` and `reset_trigger`, and the key
      `ratings` that `init_session_state` tests but nothing writes. */
  datatype Key =
    | LoggedInFlag | CurrentUser | UserRole | UserFaculty | CurrentSemester
    | Rating | Ratings | Classes | Vd | RatingMatcom | CommentFeed | ResetTrigger

  const SemesterFile: string := "Semester_Rating.csv"
  const ClassesFile: string := "MATCOM_Classes.csv"
  const VdFile: string := "VD_Rating.csv"
  const MatcomFile: string := "MATCOM_Rating.csv"

  /** `load_sample_comments()`: the comments a new session starts with. The
      session methods take this list as their `samples` parameter. */
  function SampleComments(): seq<Comment>
  {
    [
      Comment("María González", "INSTEC", "Programación", "Dr. Carlos Méndez",
              "Excelente profesor, explica muy bien los conceptos complejos.", Some(8.2), "2023-12-10", None),
      Comment("Carlos Rodríguez", "FBIO", "Biología Molecular", "Dra. Ana García",
              "La materia es interesante pero la carga de trabajo es excesiva.", Some(6.0), "2023-12-05", None),
      Comment("Anónimo", "FHS", "Historia", "Dra. Laura Rodríguez",
              "Me gustó la forma en que relaciona los hechos históricos con la actualidad.", Some(8.1),
              "2023-12-08", None),
      Comment("Javier López", "FF", "Cálculo I", "Dr. Carlos Méndez",
              "Muy difícil pero aprendí mucho. El profesor está dispuesto a ayudar.", Some(7.0), "2023-12-12", None),
      Comment("Laura Sánchez", "FQ", "Química", "Dr. Eugenia del Río",
              "Los laboratorios son muy prácticos y ayudan a entender la teoría.", Some(8.8), "2023-06-20", None)
    ]
  }

  /** The values `init_session_state` gives the keys it tests under their own
      name; `rating` is handled apart. */
  function Defaults(samples: seq<Comment>): map<Key, Value>
  {
    map[
      LoggedInFlag := VBool(false),
      CurrentUser := VNone,
      UserRole := VNone,
      Classes := VFrame(ClassesFile),
      Vd := VFrame(VdFile),
      RatingMatcom := VFrame(MatcomFile),
      CommentFeed := VComments(samples),
      ResetTrigger := VBool(false)
    ]
  }

  /** The state `init_session_state` leaves: missing keys get their default,
      present ones keep their value, and `rating` is read again from
      Semester_Rating.csv whenever `ratings` is absent. */
  function AfterInit(state: map<Key, Value>, samples: seq<Comment>): map<Key, Value>
  {
    var filled := Defaults(samples) + state;
    if Ratings in state then filled else filled[Rating := VFrame(SemesterFile)]
  }

  /** A key missing from the state gets `v`; a present one keeps its value. */
  function Fill(m: map<Key, Value>, k: Key, v: Value): map<Key, Value>
  {
    if k in m then m else m[k := v]
  }

  /** `rating` read again unless `ratings` was present in `s0`. */
  function Reload(m: map<Key, Value>, s0: map<Key, Value>): map<Key, Value>
  {
    if Ratings in s0 then m else m[Rating := VFrame(SemesterFile)]
  }

  /** The statements of `init_session_state` before the `rating` test. */
  ghost function HeadSteps(s: map<Key, Value>): map<Key, Value>
  {
    Fill(Fill(Fill(s, LoggedInFlag, VBool(false)), CurrentUser, VNone), UserRole, VNone)
  }

  /** The statements after it. */
  ghost function TailSteps(s: map<Key, Value>, samples: seq<Comment>): map<Key, Value>
  {
    Fill(Fill(Fill(Fill(Fill(s, Classes, VFrame(ClassesFile)), Vd, VFrame(VdFile)),
                        RatingMatcom, VFrame(MatcomFile)), CommentFeed, VComments(samples)),
         ResetTrigger, VBool(false))
  }

  /** The statements of `init_session_state`, one after the other. */
  ghost function InitSteps(s: map<Key, Value>, samples: seq<Comment>): map<Key, Value>
  {
    var s3 := HeadSteps(s);
    TailSteps(if Ratings in s3 then s3 else s3[Rating := VFrame(SemesterFile)], samples)
  }

  /** Filling a key of `d + s0` is filling it in `d`: a key present in `s0`
      keeps the value of `s0` either way. */
  lemma FillStep(d: map<Key, Value>, s0: map<Key, Value>, k: Key, v: Value)
    ensures Fill(d + s0, k, v) == Fill(d, k, v) + s0
  {
  }

  lemma FillReloadStep(d: map<Key, Value>, s0: map<Key, Value>, k: Key, v: Value)
    requires k != Rating && k != Ratings
    ensures Fill(Reload(d + s0, s0), k, v) == Reload(Fill(d, k, v) + s0, s0)
  {
  }

  lemma HeadStepsUnion(s0: map<Key, Value>)
    ensures HeadSteps(s0) == HeadSteps(map[]) + s0
  {
    var d0: map<Key, Value> := map[];
    assert s0 == d0 + s0;
    FillStep(d0, s0, LoggedInFlag, VBool(false));
    var d1 := Fill(d0, LoggedInFlag, VBool(false));
    FillStep(d1, s0, CurrentUser, VNone);
    FillStep(Fill(d1, CurrentUser, VNone), s0, UserRole, VNone);
  }

  lemma TailStepsUnion(d: map<Key, Value>, s0: map<Key, Value>, samples: seq<Comment>)
    ensures TailSteps(Reload(d + s0, s0), samples) == Reload(TailSteps(d, samples) + s0, s0)
  {
    FillReloadStep(d, s0, Classes, VFrame(ClassesFile));
    var d4 := Fill(d, Classes, VFrame(ClassesFile));
    FillReloadStep(d4, s0, Vd, VFrame(VdFile));
    var d5 := Fill(d4, Vd, VFrame(VdFile));
    FillReloadStep(d5, s0, RatingMatcom, VFrame(MatcomFile));
    var d6 := Fill(d5, RatingMatcom, VFrame(MatcomFile));
    FillReloadStep(d6, s0, CommentFeed, VComments(samples));
    FillReloadStep(Fill(d6, CommentFeed, VComments(samples)), s0, ResetTrigger, VBool(false));
  }

  /** Filling the defaults one by one into an empty state builds `Defaults`. */
  lemma DefaultsByFill(samples: seq<Comment>)
    ensures TailSteps(HeadSteps(map[]), samples) == Defaults(samples)
  {
  }

  /** The statements compute `AfterInit`. */
  lemma InitStepsAfterInit(s0: map<Key, Value>, samples: seq<Comment>)
    ensures InitSteps(s0, samples) == AfterInit(s0, samples)
  {
    var d3 := HeadSteps(map[]);
    HeadStepsUnion(s0);
    assert Ratings !in d3;
    TailStepsUnion(d3, s0, samples);
    DefaultsByFill(samples);
  }

  /** The test on `ratings` never succeeds, since no key `ratings` is ever
      written: each run re-reads `rating`, discarding any value stored there,
      while a value stored under any other key survives the run. */
  lemma RatingReloaded(state: map<Key, Value>, samples: seq<Comment>, k: Key, v: Value)
    requires Ratings !in state
    ensures Ratings !in AfterInit(state, samples)
    ensures AfterInit(state[Rating := v], samples)[Rating] == VFrame(SemesterFile)
    ensures k != Rating && k != Ratings ==> AfterInit(state[k := v], samples)[k] == v
  {
  }

  /** A second run of `init_session_state` changes nothing more. */
  lemma AfterInitIdempotent(state: map<Key, Value>, samples: seq<Comment>)
    requires Ratings !in state
    ensures AfterInit(AfterInit(state, samples), samples) == AfterInit(state, samples)
  {
    var once := AfterInit(state, samples);
    assert Ratings !in once;
    var twice := AfterInit(once, samples);
    assert twice.Keys == once.Keys;
    forall k | k in once ensures twice[k] == once[k] {
    }
  }

  /** The state after a sign-in with the given name, role, faculty and
      semester; every other key keeps its value. */
  function SignedIn(state: map<Key, Value>, name: string, role: string, faculty: string, semester: string)
    : map<Key, Value>
  {
    state[LoggedInFlag := VBool(true)][CurrentUser := VStr(name)][UserRole := VStr(role)]
         [UserFaculty := VStr(faculty)][CurrentSemester := VStr(semester)]
  }

  // ---------------------------------------------------------------------------
  // Pages

  const MainPage: string := "📊 Dashboard Principal"
  const FacultyPage: string := "🎓 Dashboard Facultad"
  const SemesterPage: string := "⭐ Evaluar Semestre"
  const ClassPage: string := "📚 Evaluar Clase"
  const CommentsPage: string := "💬 Comentarios"
  const StatisticsPage: string := "📈 Estadísticas"
  const AdminPage: string := "👨‍💼 Panel de Administración"

  /** What a run renders. */
  datatype View =
    | LoginSection
    | MainDashboard
    | FacultyDashboard
    | SemesterEvaluation
    | ClassEvaluation
    | CommentsView
    | Statistics
    | AdminPanel
    | NoPage

  predicate IsAdministrator(role: Value)
  {
    role == VStr("administrador")
  }

  /** `page_options`: six pages for everyone, the administration panel last
      for administrators only. */
  function PageOptions(role: Value): seq<string>
  {
    [MainPage, FacultyPage, SemesterPage, ClassPage, CommentsPage, StatisticsPage]
      + if IsAdministrator(role) then [AdminPage] else []
  }

  /** The `if`/`elif` chain in `main_dashboard`: the administration panel
      also re-checks the role. */
  function Route(selected: string, role: Value): View
  {
    if selected == MainPage then MainDashboard
    else if selected == SemesterPage then SemesterEvaluation
    else if selected == ClassPage then ClassEvaluation
    else if selected == CommentsPage then CommentsView
    else if selected == StatisticsPage then Statistics
    else if selected == FacultyPage then FacultyDashboard
    else if selected == AdminPage && IsAdministrator(role) then AdminPanel
    else NoPage
  }

  /** The administration page is offered and routed to exactly for
      administrators, every offered page renders a view, and nothing else
      does. */
  lemma RouteSpec(selected: string, role: Value)
    ensures AdminPage in PageOptions(role) <==> IsAdministrator(role)
    ensures Route(selected, role) == AdminPanel <==> selected == AdminPage && IsAdministrator(role)
    ensures Route(selected, role) != NoPage <==> selected in PageOptions(role)
  {
  }

  /** What `show_admin_panel` shows: a warning, or the panel's tabs. */
  datatype AdminContent = AccessRestricted | AdminTabs

  function ShowAdminPanel(role: Value): AdminContent
  {
    if !IsAdministrator(role) then AccessRestricted else AdminTabs
  }

  /** The panel's own check agrees with the router: whoever the router sends
      to the panel sees its tabs. */
  lemma AdminGateAgrees(selected: string, role: Value)
    requires Route(selected, role) == AdminPanel
    ensures ShowAdminPanel(role) == AdminTabs
  {
  }

  // ---------------------------------------------------------------------------
  // The comments page

  /** The first position of `x` in `s` (Python's `s.index(x)`); an error
      when `x` does not occur (ValueError). */
  function IndexOf(s: seq<string>, x: string): (r: Result<nat, string>)
    ensures r.Ok? <==> x in s
    ensures r.Ok? ==> r.value < |s| && s[r.value] == x && x !in s[..r.value]
  {
    if s == [] then Err("ValueError")
    else if s[0] == x then Ok(0)
    else match IndexOf(s[1..], x)
      case Err(e) => Err(e)
      case Ok(i) =>
        assert s[..i + 1] == [s[0]] + s[1..][..i];
        Ok(i + 1)
  }

  /** The faculty filter's options: the ratings table's `Facultad` index with
      its first "GENERAL" replaced by "Todas", reversed. */
  function FacultyOptions(index: seq<string>): (r: Result<seq<string>, string>)
    ensures r.Ok? <==> "GENERAL" in index
  {
    match IndexOf(index, "GENERAL")
    case Err(e) => Err(e)
    case Ok(i) => Ok(Reverse(index[i := "Todas"]))
  }

  /** For a table whose index is the faculty keys followed by "GENERAL" (the
      generated semester table), the options are "Todas" followed by the keys
      in reverse order. */
  lemma SemesterFacultyOptions(acronyms: seq<string>)
    requires "GENERAL" !in acronyms
    ensures FacultyOptions(acronyms + ["GENERAL"]) == Ok(["Todas"] + Reverse(acronyms))
  {
    var index := acronyms + ["GENERAL"];
    assert index[..|acronyms|] == acronyms;
    var i := IndexOf(index, "GENERAL").value;
    assert i == |acronyms|;
    assert index[i := "Todas"] == acronyms + ["Todas"];
    assert Reverse(acronyms + ["Todas"]) == ["Todas"] + Reverse(acronyms);
  }

  /** The class filter's options: each subject of the classes table (in the
      iteration order of Python's set, given here as `subjects`) with
      " (Ciencia de Datos)" appended, then "Todas", the whole list reversed. */
  function ClassOptions(subjects: seq<string>): (r: seq<string>)
    ensures |r| == |subjects| + 1 && r[0] == "Todas"
    ensures forall i :: 1 <= i < |r| ==> r[i] == subjects[|subjects| - i] + " (Ciencia de Datos)"
  {
    var labelled := seq(|subjects|, i requires 0 <= i < |subjects| => subjects[i] + " (Ciencia de Datos)");
    Reverse(labelled + ["Todas"])
  }

  /** Python's three successive comprehensions: each stage runs only when its
      selection is not the catch-all. */
  function Stage(comments: seq<Comment>, active: bool, keep: Comment -> bool): seq<Comment>
  {
    if active then Filter(comments, keep) else comments
  }

  function FacultyIs(faculty: string): Comment -> bool
  {
    (c: Comment) => c.faculty == faculty
  }

  function CourseIs(course: string): Comment -> bool
  {
    (c: Comment) => c.course == course
  }

  function ProfessorIs(professor: string): Comment -> bool
  {
    (c: Comment) => c.professor == professor
  }

  /** The comments shown for a faculty, class and professor selection. */
  function ShownComments(comments: seq<Comment>, faculty: string, course: string, professor: string)
    : seq<Comment>
  {
    var byFaculty := Stage(comments, faculty != "Todas", FacultyIs(faculty));
    var byCourse := Stage(byFaculty, course != "Todas", CourseIs(course));
    Stage(byCourse, professor != "Todos", ProfessorIs(professor))
  }

  /** A comment matches when each selection is the catch-all or equals its field. */
  predicate Matches(c: Comment, faculty: string, course: string, professor: string)
  {
    && (faculty == "Todas" || c.faculty == faculty)
    && (course == "Todas" || c.course == course)
    && (professor == "Todos" || c.professor == professor)
  }

  function MatchesAll(faculty: string, course: string, professor: string): Comment -> bool
  {
    (c: Comment) => Matches(c, faculty, course, professor)
  }

  /** A stage keeps what an inactive stage or its predicate keeps. */
  function Unless(active: bool, keep: Comment -> bool): Comment -> bool
  {
    (c: Comment) => !active || keep(c)
  }

  /** A stage is a filter on "inactive or matching". */
  lemma StageIsFilter(comments: seq<Comment>, active: bool, keep: Comment -> bool)
    ensures Stage(comments, active, keep) == Filter(comments, Unless(active, keep))
  {
    if active {
      FilterExt(comments, keep, Unless(active, keep));
    } else {
      FilterAll(comments, Unless(active, keep));
    }
  }

  /** The three stages are three filters in a row. */
  lemma ShownCommentsStages(comments: seq<Comment>, faculty: string, course: string, professor: string)
    ensures ShownComments(comments, faculty, course, professor) ==
            Filter(Filter(Filter(comments, Unless(faculty != "Todas", FacultyIs(faculty))),
                          Unless(course != "Todas", CourseIs(course))),
                   Unless(professor != "Todos", ProfessorIs(professor)))
  {
    var s1 := Filter(comments, Unless(faculty != "Todas", FacultyIs(faculty)));
    var s2 := Filter(s1, Unless(course != "Todas", CourseIs(course)));
    StageIsFilter(comments, faculty != "Todas", FacultyIs(faculty));
    StageIsFilter(s1, course != "Todas", CourseIs(course));
    StageIsFilter(s2, professor != "Todos", ProfessorIs(professor));
  }

  /** The conjunction of the three stages' predicates is `Matches`. */
  lemma StagesMatch(c: Comment, faculty: string, course: string, professor: string)
    ensures And(And(Unless(faculty != "Todas", FacultyIs(faculty)), Unless(course != "Todas", CourseIs(course))),
                Unless(professor != "Todos", ProfessorIs(professor)))(c) ==
            MatchesAll(faculty, course, professor)(c)
  {
  }

  /** The three filters compose as one filter on the conjunction. */
  lemma ShownCommentsConjunction(comments: seq<Comment>, faculty: string, course: string, professor: string)
    ensures ShownComments(comments, faculty, course, professor) ==
            Filter(comments, MatchesAll(faculty, course, professor))
  {
    var p := Unless(faculty != "Todas", FacultyIs(faculty));
    var q := Unless(course != "Todas", CourseIs(course));
    var r := Unless(professor != "Todos", ProfessorIs(professor));
    var pqr := And(And(p, q), r);
    ShownCommentsStages(comments, faculty, course, professor);
    FilterFilter(comments, p, q);
    FilterFilter(comments, And(p, q), r);
    assert ShownComments(comments, faculty, course, professor) == Filter(comments, pqr);
    forall i | 0 <= i < |comments| ensures pqr(comments[i]) == MatchesAll(faculty, course, professor)(comments[i]) {
      StagesMatch(comments[i], faculty, course, professor);
    }
    FilterExt(comments, pqr, MatchesAll(faculty, course, professor));
  }

  /** The comments shown keep the stored order and are exactly those that
      match every selection. */
  lemma ShownCommentsSpec(comments: seq<Comment>, faculty: string, course: string, professor: string)
    ensures IsSubsequence(ShownComments(comments, faculty, course, professor), comments)
    ensures forall c :: c in ShownComments(comments, faculty, course, professor) <==>
                        c in comments && Matches(c, faculty, course, professor)
  {
    var m := MatchesAll(faculty, course, professor);
    ShownCommentsConjunction(comments, faculty, course, professor);
    FilterIsSubsequence(comments, m);
    FilterMembers(comments, m);
  }

  const FullStar: char := '⭐'
  const EmptyStar: char := '☆'

  /** `round(calificacion / 2)`, the number of full stars. */
  function FullStars(rating: real): int
  {
    RoundHalfEven(rating / 2.0)
  }

  /** The star string: full stars, then `5 - n` empty ones (none when that is
      negative, as Python's string repetition gives). */
  function Stars(rating: real): string
  {
    RepeatChar(FullStar, FullStars(rating)) + RepeatChar(EmptyStar, 5 - FullStars(rating))
  }

  /** The rating line of a comment; `shown` is Python's text of the rating. */
  function StarLine(rating: Option<real>, shown: real -> string): string
  {
    match rating
    case None => "Sin calificacion"
    case Some(c) => Stars(c) + " (" + shown(c) + "/10)"
  }

  /** A comment without a rating reads "Sin calificacion"; one with a rating
      begins with its stars and ends with its value out of ten. */
  lemma StarLineCases(rating: Option<real>, shown: real -> string)
    ensures rating.None? ==> StarLine(rating, shown) == "Sin calificacion"
    ensures rating.Some? ==>
              var line := StarLine(rating, shown);
              Stars(rating.value) <= line &&
              line[|Stars(rating.value)|..] == " (" + shown(rating.value) + "/10)"
  {
  }

  /** For a rating in [0, 10] the stars are always five: the first
      `FullStars` full, the rest empty. */
  lemma StarsShape(rating: real)
    requires 0.0 <= rating <= 10.0
    ensures 0 <= FullStars(rating) <= 5
    ensures |Stars(rating)| == 5
    ensures forall i :: 0 <= i < 5 ==> Stars(rating)[i] == if i < FullStars(rating) then FullStar else EmptyStar
  {
    RoundHalfEvenMonotone(0.0, rating / 2.0);
    RoundHalfEvenMonotone(rating / 2.0, 5.0);
    RoundHalfEvenOfInt(0);
    RoundHalfEvenOfInt(5);
  }

  /** A higher rating never shows fewer full stars. */
  lemma StarsMonotone(r1: real, r2: real)
    requires r1 <= r2
    ensures FullStars(r1) <= FullStars(r2)
  {
    RoundHalfEvenMonotone(r1 / 2.0, r2 / 2.0);
  }

  /** Rounding halves to even: 7 and 9 both show four full stars, 5 and 3
      both two, 1 none at all. */
  lemma StarsRoundHalfEven()
    ensures FullStars(9.0) == 4 && FullStars(7.0) == 4
    ensures FullStars(5.0) == 2 && FullStars(3.0) == 2
    ensures FullStars(1.0) == 0
  {
    RoundHalfEvenUnique(4.5, 4);
    RoundHalfEvenUnique(3.5, 4);
    RoundHalfEvenUnique(2.5, 2);
    RoundHalfEvenUnique(1.5, 2);
    RoundHalfEvenUnique(0.5, 0);
  }

  /** A posted comment: its professor is named after the class, it has no
      rating, and it records the user's semester. */
  function NewComment(user: string, faculty: string, course: string, text: string, date: string,
                      semester: string): Comment
  {
    Comment(user, faculty, course, "Profesor de la clase " + course, text, None, date, Some(semester))
  }

  /** `logged_in` holds True. */
  predicate SignedInState(m: map<Key, Value>)
  {
    LoggedInFlag in m && m[LoggedInFlag] == VBool(true)
  }

  /** The user keys a sign-in sets, each holding a string. */
  predicate UserKnown(m: map<Key, Value>)
  {
    && CurrentUser in m && m[CurrentUser].VStr?
    && UserRole in m && m[UserRole].VStr?
    && UserFaculty in m && m[UserFaculty].VStr?
    && CurrentSemester in m && m[CurrentSemester].VStr?
  }

  /** The keys the pages read hold values of the kind they expect, and a
      signed-in session knows its user. */
  predicate ConsistentState(m: map<Key, Value>)
  {
    && (LoggedInFlag in m ==> m[LoggedInFlag].VBool?)
    && (CommentFeed in m ==> m[CommentFeed].VComments?)
    && (SignedInState(m) ==> UserKnown(m))
  }

  /** What `init_session_state` guarantees the pages. */
  predicate InitializedState(m: map<Key, Value>)
  {
    ConsistentState(m) && LoggedInFlag in m && CommentFeed in m && UserRole in m
  }

  /** Initialisation keeps a consistent state consistent and provides the
      keys the pages read; a signed-in user stays signed in. */
  lemma AfterInitInitialized(s0: map<Key, Value>, samples: seq<Comment>)
    requires ConsistentState(s0)
    ensures InitializedState(AfterInit(s0, samples))
    ensures SignedInState(AfterInit(s0, samples)) <==> SignedInState(s0)
  {
  }

  /** `st.session_state` as this dashboard uses it. */
  class Session {
    var state: map<Key, Value>

    constructor()
      ensures state == map[]
    {
      state := map[];
    }

    predicate LoggedIn()
      reads this
    {
      SignedInState(state)
    }

    predicate Consistent()
      reads this
    {
      ConsistentState(state)
    }

    predicate Initialized()
      reads this
    {
      InitializedState(state)
    }

    function Comments(): seq<Comment>
      reads this
      requires CommentFeed in state && state[CommentFeed].VComments?
    {
      state[CommentFeed].comments
    }

    /** `init_session_state`: one test per key, setting it only when absent,
        except that the test for `rating` is on the key `ratings`. */
    method InitSessionState(samples: seq<Comment>)
      requires Consistent()
      modifies this
      ensures state == AfterInit(old(state), samples)
      ensures Initialized()
    {
      ghost var s0 := state;
      SetDefault(LoggedInFlag, VBool(false));
      SetDefault(CurrentUser, VNone);
      SetDefault(UserRole, VNone);
      if Ratings !in state {
        state := state[Rating := VFrame(SemesterFile)];
      }
      SetDefault(Classes, VFrame(ClassesFile));
      SetDefault(Vd, VFrame(VdFile));
      SetDefault(RatingMatcom, VFrame(MatcomFile));
      SetDefault(CommentFeed, VComments(samples));
      SetDefault(ResetTrigger, VBool(false));
      InitStepsAfterInit(s0, samples);
      AfterInitInitialized(s0, samples);
    }

    /** One `if key not in st.session_state: st.session_state[key] = value`. */
    method SetDefault(k: Key, v: Value)
      modifies this
      ensures state == Fill(old(state), k, v)
    {
      if k !in state {
        state := state[k := v];
      }
    }

    /** The sign-in button: on good credentials the user keys are set from the
        record; otherwise nothing changes. */
    method Login(username: string, password: string) returns (ok: bool)
      requires Consistent()
      modifies this
      ensures ok <==> AuthenticateUser(username, password, UsersDb).Some?
      ensures ok ==> var u := AuthenticateUser(username, password, UsersDb).value;
                     state == SignedIn(old(state), u.name, u.role, u.faculty, u.semester)
      ensures !ok ==> state == old(state)
      ensures Consistent()
    {
      var user := AuthenticateUser(username, password, UsersDb);
      ok := user.Some?;
      if ok {
        var u := user.value;
        state := state[LoggedInFlag := VBool(true)];
        state := state[CurrentUser := VStr(u.name)];
        state := state[UserRole := VStr(u.role)];
        state := state[UserFaculty := VStr(u.faculty)];
        state := state[CurrentSemester := VStr(u.semester)];
      }
    }

    /** The guest button. */
    method EnterAsGuest()
      requires Consistent()
      modifies this
      ensures state == SignedIn(old(state), "Invitado", "invitado", "General", "2023-2")
      ensures Consistent() && LoggedIn()
    {
      state := state[LoggedInFlag := VBool(true)];
      state := state[CurrentUser := VStr("Invitado")];
      state := state[UserRole := VStr("invitado")];
      state := state[UserFaculty := VStr("General")];
      state := state[CurrentSemester := VStr("2023-2")];
    }

    /** The sidebar's logout button resets three keys; the user's faculty and
        semester stay behind. */
    method Logout()
      requires Consistent()
      modifies this
      ensures state == old(state)[LoggedInFlag := VBool(false)][CurrentUser := VNone][UserRole := VNone]
      ensures !LoggedIn() && Consistent()
      ensures forall k :: k != LoggedInFlag && k != CurrentUser && k != UserRole ==>
                (k in state <==> k in old(state)) && (k in state ==> state[k] == old(state)[k])
    {
      state := state[LoggedInFlag := VBool(false)];
      state := state[CurrentUser := VNone];
      state := state[UserRole := VNone];
    }

    /** The new-comment form: a user whose role is neither "invitado" nor
        "administrador" and who writes something gets the comment appended;
        otherwise nothing changes. */
    method PostComment(course: string, text: string, date: string) returns (posted: bool)
      requires Initialized() && LoggedIn()
      modifies this
      ensures posted <==> old(state[UserRole]) != VStr("invitado") &&
                          old(state[UserRole]) != VStr("administrador") && text != ""
      ensures posted ==>
                state == old(state)[CommentFeed := VComments(old(Comments()) + [NewComment(
                  old(state[CurrentUser].s), old(state[UserFaculty].s), course, text, date,
                  old(state[CurrentSemester].s))])]
      ensures !posted ==> state == old(state)
      ensures Initialized() && LoggedIn()
    {
      posted := false;
      var role := state[UserRole];
      if role != VStr("invitado") && role != VStr("administrador") && text != "" {
        var comment := NewComment(state[CurrentUser].s, state[UserFaculty].s, course, text, date,
                                  state[CurrentSemester].s);
        state := state[CommentFeed := VComments(Comments() + [comment])];
        posted := true;
      }
    }

    /** `main()`: initialise the session, then show the sign-in section or
        the page chosen in the sidebar. */
    method Render(selected: string, samples: seq<Comment>) returns (view: View)
      requires Consistent()
      modifies this
      ensures state == AfterInit(old(state), samples)
      ensures !LoggedIn() ==> view == LoginSection
      ensures LoggedIn() ==> view == Route(selected, state[UserRole])
      ensures view == AdminPanel ==> LoggedIn() && IsAdministrator(state[UserRole])
    {
      InitSessionState(samples);
      if !LoggedIn() {
        view := LoginSection;
      } else {
        view := Route(selected, state[UserRole]);
      }
    }
  }
}
