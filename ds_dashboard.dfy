/** ds/main.py, the second dashboard: its lookup tables with defaults, the
    credential check, and the session state its views read and change. */
module DsDashboard {
  import opened Common
  import opened Text
  import opened SessionValues
  import DataGen

  // ---------------------------------------------------------------------------
  // DataManager

  /** The keys of the dictionary `DataManager.load_data` returns: one data
      frame per file, an empty frame when the file is missing. */
  const DataKeys: seq<string> := ["semester_ratings", "matcom_ratings", "matcom_classes", "subject_ratings"]

  /** The list `get_faculties` falls back to when Semester_Rating.csv cannot be read. */
  const DefaultFaculties: seq<string> := [
    "MATCOM", "FF", "FQ", "FBIOM", "FHS", "INSTEC", "FTUR", "FCOM", "LEX", "PSICO", "CSGH"
  ]

  /** `get_faculties`: the `Facultad` column of Semester_Rating.csv (None when
      reading it fails) without its "GENERAL" entries, in file order. */
  function GetFaculties(column: Option<seq<string>>): (r: seq<string>)
    ensures "GENERAL" !in r
    ensures column.None? ==> r == DefaultFaculties
    ensures column.Some? ==> IsSubsequence(r, column.value)
    ensures column.Some? ==> forall f :: f in r <==> f in column.value && f != "GENERAL"
  {
    match column
    case None => DefaultFaculties
    case Some(names) =>
      FilterIsSubsequence(names, f => f != "GENERAL");
      FilterMembers(names, f => f != "GENERAL");
      Filter(names, f => f != "GENERAL")
  }

  /** Read from a semester table, whose `Facultad` column is the faculty keys
      followed by "GENERAL" (the shape the first dashboard's generator writes),
      `get_faculties` gives back exactly the faculty keys, in order. */
  lemma SemesterTableFaculties(acronyms: seq<string>)
    requires "GENERAL" !in acronyms
    ensures GetFaculties(Some(acronyms + ["GENERAL"])) == acronyms
  {
    var keep := (f: string) => f != "GENERAL";
    FilterAppend(acronyms, ["GENERAL"], keep);
    FilterAll(acronyms, keep);
  }

  /** In particular for the generator's own faculty table, whose keys never
      spell "GENERAL". */
  lemma GeneratedFaculties()
    ensures GetFaculties(Some(DataGen.Acronyms() + ["GENERAL"])) == DataGen.Acronyms()
  {
    var a := DataGen.Acronyms();
    forall i | 0 <= i < |a| ensures a[i] != "GENERAL" {
      assert |a[i]| <= 6;
    }
    SemesterTableFaculties(a);
  }

  /** `careers_by_faculty` in `get_careers`; it differs from the table the
      generators use (other career names, and FDER and FARQ). */
  const CareersByFaculty: map<string, seq<string>> := map[
    "MATCOM" := ["Matemática", "Ciencias de la Computación", "Ciencia de Datos"],
    "FF" := ["Licenciatura en Física", "Ingeniería Física"],
    "FQ" := ["Licenciatura en Química"],
    "FBIOM" := ["Licenciatura en Biología", "Licenciatura en Microbiología",
                "Licenciatura en Bioquímica y Biología Molecular"],
    "FHS" := ["Licenciatura en Historia", "Licenciatura en Sociología", "Licenciatura en Filosofía"],
    "INSTEC" := ["Ingeniería en Telecomunicaciones", "Ingeniería Eléctrica", "Ingeniería en Ciencias Aplicadas"],
    "FTUR" := ["Licenciatura en Turismo"],
    "FCOM" := ["Comunicación Social", "Periodismo"],
    "LEX" := ["Derecho"],
    "PSICO" := ["Licenciatura en Psicología"],
    "FLEX" := ["Licenciatura en Lenguas Extranjeras"],
    "FAYL" := ["Licenciatura en Letras", "Licenciatura en Historia del Arte"],
    "GEO" := ["Licenciatura en Geografía"],
    "IFAL" := ["Licenciatura en Farmacia", "Licenciatura en Ciencia de los Alimentos"],
    "ISDI" := ["Diseño Industrial", "Diseño de Comunicación Visual"],
    "CSGH" := ["Preservación y Gestión del Patrimonio Cultural"],
    "FENHI" := ["Licenciatura en Economía", "Licenciatura en Administración de Empresas"],
    "CONFIN" := ["Licenciatura en Contabilidad y Finanzas"],
    "EKO" := ["Licenciatura en Economía"],
    "FDER" := ["Derecho"],
    "FARQ" := ["Arquitectura"]
  ]

  const DefaultCareers: seq<string> := ["Carrera Principal"]

  /** `get_careers(faculty)`. */
  function GetCareers(faculty: string): seq<string>
  {
    Get(CareersByFaculty, faculty, DefaultCareers)
  }

  /** Every faculty, known or not, gets at least one career, and the default
      list marks exactly the unknown ones. */
  lemma CareersLookup(faculty: string)
    ensures |GetCareers(faculty)| >= 1
    ensures GetCareers(faculty) == DefaultCareers <==> faculty !in CareersByFaculty
  {
    if faculty in CareersByFaculty {
      var careers := CareersByFaculty[faculty];
      assert |careers| >= 1 && careers[0] != "Carrera Principal";
    }
  }

  // ---------------------------------------------------------------------------
  // FacultyDashboardView lookups

  /** `founding_years` in `get_founding_year`. */
  const FoundingYears: map<string, string> := map[
    "MATCOM" := "1976", "FF" := "1962", "FQ" := "1963", "FBIOM" := "1964", "FHS" := "1962",
    "INSTEC" := "1980", "FTUR" := "1995", "FCOM" := "1990", "LEX" := "1900", "PSICO" := "1970",
    "FAYL" := "1962", "IFAL" := "1975", "ISDI" := "1985", "CSGH" := "1998"
  ]

  /** `deans` in `get_dean`. */
  const Deans: map<string, string> := map[
    "MATCOM" := "Dr. Carlos Martínez",
    "FF" := "Dr. Arbelio Pentón Madrigal",
    "FQ" := "Dra. Marta Álvarez",
    "FBIOM" := "Dr. Pedro Pablo García",
    "FHS" := "Dra. Mayra Mena",
    "INSTEC" := "Dr. Roberto González",
    "FTUR" := "MSc. Ana López",
    "FCOM" := "Dr. Julio García",
    "LEX" := "Dr. Fernando Martínez",
    "PSICO" := "Dra. Laura Rodríguez",
    "FAYL" := "Dr. Jorge Pérez",
    "IFAL" := "Dra. Carmen Ruiz",
    "ISDI" := "MSc. Alejandro Díaz",
    "CSGH" := "Dr. Ricardo Fernández"
  ]

  /** `student_counts` in `get_student_count`. */
  const StudentCounts: map<string, string> := map[
    "MATCOM" := "550", "FF" := "420", "FQ" := "380", "FBIOM" := "450", "FHS" := "320",
    "INSTEC" := "280", "FTUR" := "200", "FCOM" := "250", "LEX" := "600", "PSICO" := "350",
    "FAYL" := "280", "IFAL" := "220", "ISDI" := "180", "CSGH" := "150"
  ]

  function FoundingYear(faculty: string): string
  {
    Get(FoundingYears, faculty, "1960")
  }

  function Dean(faculty: string): string
  {
    Get(Deans, faculty, "Por definir")
  }

  function StudentCount(faculty: string): string
  {
    Get(StudentCounts, faculty, "300")
  }

  /** The three faculty tables describe the same fourteen faculties, each of
      which also has its own career list. */
  lemma FacultyTablesAgree()
    ensures FoundingYears.Keys == Deans.Keys == StudentCounts.Keys
    ensures FoundingYears.Keys <= CareersByFaculty.Keys
  {
  }

  /** No table stores its own default, so a default answer means exactly
      that the faculty is not listed. */
  lemma FacultyDefaults(faculty: string)
    ensures FoundingYear(faculty) == "1960" <==> faculty !in FoundingYears
    ensures Dean(faculty) == "Por definir" <==> faculty !in Deans
    ensures StudentCount(faculty) == "300" <==> faculty !in StudentCounts
  {
    FacultyTablesAgree();
    if faculty in FoundingYears {
      assert FoundingYears[faculty] != "1960";
      assert Deans[faculty] != "Por definir";
      assert StudentCounts[faculty] != "300";
    }
  }

  /** `durations` in `get_career_info`. */
  const Durations: map<string, nat> := map[
    "Matemática" := 5, "Ciencias de la Computación" := 5, "Ciencia de Datos" := 4,
    "Licenciatura en Física" := 5, "Ingeniería Física" := 5, "Licenciatura en Química" := 5,
    "Licenciatura en Biología" := 5, "Licenciatura en Microbiología" := 5,
    "Licenciatura en Bioquímica y Biología Molecular" := 5, "Licenciatura en Historia" := 5,
    "Licenciatura en Sociología" := 5, "Licenciatura en Filosofía" := 5,
    "Ingeniería en Telecomunicaciones" := 5, "Ingeniería Eléctrica" := 5, "Licenciatura en Turismo" := 5,
    "Comunicación Social" := 5, "Periodismo" := 5, "Derecho" := 5, "Licenciatura en Psicología" := 5,
    "Licenciatura en Lenguas Extranjeras" := 5, "Licenciatura en Letras" := 5,
    "Licenciatura en Historia del Arte" := 5, "Licenciatura en Geografía" := 5,
    "Licenciatura en Farmacia" := 5, "Licenciatura en Ciencia de los Alimentos" := 5,
    "Diseño Industrial" := 5, "Diseño de Comunicación Visual" := 5,
    "Preservación y Gestión del Patrimonio Cultural" := 5, "Licenciatura en Economía" := 5,
    "Licenciatura en Administración de Empresas" := 5, "Licenciatura en Contabilidad y Finanzas" := 5,
    "Arquitectura" := 6, "Ingeniería Civil" := 6, "Ingeniería Hidráulica" := 6
  ]

  /** `descriptions` in `get_career_info`. */
  const Descriptions: map<string, string> := map[
    "Matemática" := "Formación sólida en matemáticas puras y aplicadas, preparando para investigación y aplicación en diversas áreas científicas y tecnológicas.",
    "Ciencias de la Computación" := "Formación en fundamentos teóricos y prácticos de la computación, algoritmos, sistemas y desarrollo de software.",
    "Ciencia de Datos" := "Formación interdisciplinaria en matemáticas, estadística y computación para extraer conocimiento de datos complejos.",
    "Licenciatura en Física" := "Formación en leyes fundamentales de la naturaleza, métodos experimentales y aplicaciones tecnológicas.",
    "Ingeniería Física" := "Aplicación de principios físicos al diseño y desarrollo de tecnologías y sistemas innovadores.",
    "Licenciatura en Química" := "Estudio de la composición, propiedades y transformaciones de la materia, con aplicaciones industriales y ambientales."
  ]

  /** The degree a career leads to: a Licenciatura first, then an Ingeniería,
      anything else being "Profesional". */
  function DegreeLabel(career: string): (degree: string)
    ensures degree == "Licenciado/a" <==> Contains(career, "Licenciatura")
    ensures degree == "Ingeniero/a" <==> !Contains(career, "Licenciatura") && Contains(career, "Ingeniería")
    ensures degree == "Profesional" <==> !Contains(career, "Licenciatura") && !Contains(career, "Ingeniería")
  {
    if Contains(career, "Licenciatura") then "Licenciado/a"
    else if Contains(career, "Ingeniería") then "Ingeniero/a"
    else "Profesional"
  }

  /** The label depends only on where the two words occur in the name: a
      career named "Licenciatura ..." is always a Licenciado/a, and one named
      "Ingeniería ..." an Ingeniero/a unless "Licenciatura" also occurs. */
  lemma DegreeByOccurrence(career: string)
    ensures DegreeLabel(career) == "Licenciado/a" <==> exists i: nat :: OccursAt(career, "Licenciatura", i)
    ensures "Licenciatura" <= career ==> DegreeLabel(career) == "Licenciado/a"
    ensures "Ingeniería" <= career && !Contains(career, "Licenciatura") ==> DegreeLabel(career) == "Ingeniero/a"
  {
    ContainsIff(career, "Licenciatura");
    if "Licenciatura" <= career {
      ContainsPrefix(career, "Licenciatura");
    }
    if "Ingeniería" <= career {
      ContainsPrefix(career, "Ingeniería");
    }
  }

  /** The coordinator's surname is `np.random.choice` over five names; the
      draw is this index. */
  type SurnameIndex = i: nat | i < 5

  const CoordinatorSurnames: seq<string> := ["González", "Rodríguez", "Pérez", "Martínez", "García"]

  datatype CareerInfo = CareerInfo(description: string, duration: nat, degree: string, modality: string,
                                   coordinator: string)

  /** `durations.get(career, 5)`. */
  function CareerDuration(career: string): nat
  {
    Get(Durations, career, 5)
  }

  /** Every career takes four to six years, five when it is not listed. */
  lemma CareerDurationRange(career: string)
    ensures 4 <= CareerDuration(career) <= 6
    ensures career !in Durations ==> CareerDuration(career) == 5
  {
    if career in Durations {
      assert 4 <= Durations[career] <= 6;
    }
  }

  /** The description used for careers without one of their own. */
  function DefaultDescription(faculty: string, career: string): string
  {
    "Carrera de " + career + " en la facultad de " + faculty
      + ", formando profesionales con excelencia académica y preparación integral."
  }

  /** The default description opens by naming the career and then the faculty. */
  lemma DefaultDescriptionNames(faculty: string, career: string)
    ensures "Carrera de " + career + " en la facultad de " + faculty <= DefaultDescription(faculty, career)
  {
  }

  /** `descriptions.get(career, default_desc)`. */
  function CareerDescription(faculty: string, career: string): string
  {
    Get(Descriptions, career, DefaultDescription(faculty, career))
  }

  /** `"Dr./Dra. " + np.random.choice(surnames)`. */
  function Coordinator(surname: SurnameIndex): string
  {
    "Dr./Dra. " + CoordinatorSurnames[surname]
  }

  /** `get_career_info(faculty, career)`. */
  function GetCareerInfo(faculty: string, career: string, surname: SurnameIndex): CareerInfo
  {
    CareerInfo(CareerDescription(faculty, career), CareerDuration(career), DegreeLabel(career), "Presencial",
               Coordinator(surname))
  }

  /** A career without its own entries gets the defaults: five years and the
      description naming it and its faculty. */
  lemma CareerInfoDefaults(faculty: string, career: string, surname: SurnameIndex)
    ensures 4 <= GetCareerInfo(faculty, career, surname).duration <= 6
    ensures career !in Durations ==> GetCareerInfo(faculty, career, surname).duration == 5
    ensures career !in Descriptions ==>
              "Carrera de " + career + " en la facultad de " + faculty <= GetCareerInfo(faculty, career, surname).description
  {
    CareerDurationRange(career);
    DefaultDescriptionNames(faculty, career);
  }

  /** Of all careers `get_careers` lists, only "Ingeniería en Ciencias
      Aplicadas" has no duration of its own and falls back to five years. */
  lemma ListedCareersHaveDurations()
    ensures forall f, c :: f in CareersByFaculty && c in CareersByFaculty[f] ==>
              c in Durations || c == "Ingeniería en Ciencias Aplicadas"
    ensures "Ingeniería en Ciencias Aplicadas" !in Durations
  {
    forall cs | cs in CareersByFaculty.Values
      ensures forall c :: c in cs ==> c in Durations || c == "Ingeniería en Ciencias Aplicadas"
    {
    }
    forall f | f in CareersByFaculty ensures CareersByFaculty[f] in CareersByFaculty.Values {
    }
  }

  // ---------------------------------------------------------------------------
  // create_metric_card

  /** The colour of a metric card's change line: no line when the change is
      None or zero (both false in Python), green above zero, red below. */
  function ChangeColour(change: Option<real>): (colour: Option<string>)
    ensures colour.None? <==> change.None? || change.value == 0.0
    ensures colour == Some("green") <==> change.Some? && change.value > 0.0
    ensures colour == Some("red") <==> change.Some? && change.value < 0.0
  {
    match change
    case None => None
    case Some(x) => if x == 0.0 then None else if x > 0.0 then Some("green") else Some("red")
  }

  // ---------------------------------------------------------------------------
  // AuthenticationManager

  /** A `USER_DATABASE` record. */
  datatype User = User(password: string, name: string, faculty: string, career: string, role: string)

  const UserDatabase: map<string, User> := map[
    "estudiante1" := User("1234", "Juan Pérez", "MATCOM", "Ciencia de Datos", "estudiante"),
    "estudiante2" := User("1234", "Ana Gómez", "FF", "Física", "estudiante"),
    "admin" := User("admin123", "Administrador", "Todas", "Todas", "administrador")
  ]

  /** `authenticate(username, password)`: the record of a known user whose
      password matches, None (Python's `(False, None)`) otherwise. */
  function Authenticate(username: string, password: string): (r: Option<User>)
    ensures r.Some? <==> username in UserDatabase && UserDatabase[username].password == password
    ensures r.Some? ==> r.value == UserDatabase[username]
  {
    if username in UserDatabase && password == UserDatabase[username].password then
      Some(UserDatabase[username])
    else
      None
  }

  /** Only the admin account with its own password yields the administrator
      role; both student accounts log in with "1234". */
  lemma AdministratorCredentials(username: string, password: string)
    ensures (Authenticate(username, password).Some? &&
             Authenticate(username, password).value.role == "administrador") <==>
            username == "admin" && password == "admin123"
    ensures Authenticate("estudiante1", "1234").Some? && Authenticate("estudiante2", "1234").Some?
  {
    if username in UserDatabase && username != "admin" {
      assert UserDatabase[username].role == "estudiante";
    }
  }

  /** `load_sample_comments()`: the comments a new session starts with. The
      session methods take this list as their `samples` parameter. */
  function SampleComments(): seq<Comment>
  {
    [
      Comment("María González", "INSTEC", "Programación", "Dr. Carlos Méndez",
              "Excelente profesor, explica muy bien los conceptos complejos.", Some(8.2), "2023-12-10", None),
      Comment("Carlos Rodríguez", "FBIOM", "Biología Molecular", "Dra. Ana García",
              "La materia es interesante pero la carga de trabajo es excesiva.", Some(6.0), "2023-12-05", None),
      Comment("Anónimo", "FHS", "Historia", "Dra. Laura Rodríguez",
              "Me gustó la forma en que relaciona los hechos históricos con la actualidad.", Some(8.1),
              "2023-12-08", None)
    ]
  }

  const HomePage: string := "📊 Dashboard Principal"

  /** The session keys this dashboard writes: `logged_in`, `current_user`,
      `user_role`, `user_faculty`, `user_career`, `current_page`, `data` and
      `comments`. */
  datatype Key = LoggedInFlag | CurrentUser | UserRole | UserFaculty | UserCareer | CurrentPage | Data | CommentFeed

  /** `default_state` in `init_session_state`, keys in insertion order. */
  const DefaultKeys: seq<Key> := [
    LoggedInFlag, CurrentUser, UserRole, UserFaculty, UserCareer, CurrentPage, Data, CommentFeed
  ]

  function DefaultState(samples: seq<Comment>): map<Key, Value>
  {
    map[
      LoggedInFlag := VBool(false),
      CurrentUser := VNone,
      UserRole := VNone,
      UserFaculty := VNone,
      UserCareer := VNone,
      CurrentPage := VStr(HomePage),
      Data := VFrames([]),
      CommentFeed := VComments(samples)
    ]
  }

  lemma DefaultKeysListed(samples: seq<Comment>)
    ensures (set k | k in DefaultKeys) == DefaultState(samples).Keys
  {
  }

  // ---------------------------------------------------------------------------
  // The comments view

  /** The comment classes the new-comment form offers. */
  const CommentClasses: seq<string> := ["Visualización de Datos", "Programación", "Matemáticas", "Estadística"]

  /** The comments the view lists for a faculty selection: all of them for
      "Todas", otherwise those of the selected faculty (the loop skips the
      rest with `continue`). */
  function ShownComments(comments: seq<Comment>, selection: string): seq<Comment>
  {
    Filter(comments, (c: Comment) => selection == "Todas" || c.faculty == selection)
  }

  /** The listing keeps the stored order, shows everything for "Todas", and
      otherwise shows exactly the selected faculty's comments. */
  lemma ShownCommentsSpec(comments: seq<Comment>, selection: string)
    ensures IsSubsequence(ShownComments(comments, selection), comments)
    ensures selection == "Todas" ==> ShownComments(comments, selection) == comments
    ensures selection != "Todas" ==>
              forall c :: c in ShownComments(comments, selection) <==> c in comments && c.faculty == selection
  {
    var keep := (c: Comment) => selection == "Todas" || c.faculty == selection;
    FilterIsSubsequence(comments, keep);
    FilterMembers(comments, keep);
    if selection == "Todas" {
      FilterAll(comments, keep);
    }
  }

  /** The rating slider of the new-comment form runs from 1 to 10. */
  type SliderRating = r: int | 1 <= r <= 10 witness 6

  // ---------------------------------------------------------------------------
  // UniversityDashboard

  /** What a run of the app renders. */
  datatype View =
    | LoginView
    | MainDashboard
    | FacultyDashboard
    | SemesterEvaluation
    | ClassEvaluation
    | CommentsView
    | PageNotFound

  /** `self.pages`, keys in insertion order. */
  const PageNames: seq<string> := [HomePage, "🏛️ Dashboard Facultad", "⭐ Evaluar Semestre", "📚 Evaluar Clase", "💬 Comentarios"]

  const Pages: map<string, View> := map[
    HomePage := MainDashboard,
    "🏛️ Dashboard Facultad" := FacultyDashboard,
    "⭐ Evaluar Semestre" := SemesterEvaluation,
    "📚 Evaluar Clase" := ClassEvaluation,
    "💬 Comentarios" := CommentsView
  ]

  /** `self.pages.get(page)`, with the warning in place of a missing view. */
  function PageFor(page: string): View
  {
    Get(Pages, page, PageNotFound)
  }

  /** A page renders a view exactly when it is one of the five names the
      sidebar offers; the default current page is one of them. */
  lemma PageLookup(page: string)
    ensures PageFor(page) != PageNotFound <==> page in PageNames
    ensures (set p | p in PageNames) == Pages.Keys
    ensures forall samples :: DefaultState(samples)[CurrentPage] == VStr(PageNames[0])
  {
  }

  /** A new comment by the signed-in user. */
  function NewComment(user: string, faculty: string, course: string, text: string, rating: SliderRating,
                      date: string): (c: Comment)
  {
    Comment(user, faculty, course, "Por definir", text, Some(rating as real), date, None)
  }

  /** The session state after a sign-in as `name` with the given role,
      faculty and career; every other key keeps its value. */
  function SignedIn(state: map<Key, Value>, name: string, role: string, faculty: string, career: string)
    : (r: map<Key, Value>)
  {
    state[LoggedInFlag := VBool(true)][CurrentUser := VStr(name)][UserRole := VStr(role)]
         [UserFaculty := VStr(faculty)][UserCareer := VStr(career)]
  }

  /** `st.session_state` as this dashboard uses it. */
  class Session {
    var state: map<Key, Value>

    constructor()
      ensures state == map[]
    {
      state := map[];
    }

    predicate LoggedIn()
      reads this
    {
      LoggedInFlag in state && state[LoggedInFlag] == VBool(true)
    }

    /** The user keys a sign-in sets, each holding a string. */
    predicate UserKnown()
      reads this
    {
      && CurrentUser in state && state[CurrentUser].VStr?
      && UserRole in state && state[UserRole].VStr?
      && UserFaculty in state && state[UserFaculty].VStr?
      && UserCareer in state && state[UserCareer].VStr?
    }

    /** The keys the views read hold values of the kind they expect, and a
        signed-in session knows its user. */
    predicate Consistent()
      reads this
    {
      && (LoggedInFlag in state ==> state[LoggedInFlag].VBool?)
      && (CommentFeed in state ==> state[CommentFeed].VComments?)
      && (LoggedIn() ==> UserKnown())
    }

    /** After `init_session_state`: the keys the app reads all exist. */
    predicate Initialized()
      reads this
    {
      && Consistent()
      && LoggedInFlag in state && CommentFeed in state && CurrentPage in state && Data in state
    }

    function Comments(): seq<Comment>
      reads this
      requires CommentFeed in state && state[CommentFeed].VComments?
    {
      state[CommentFeed].comments
    }

    function Role(): string
      reads this
      requires UserKnown()
    {
      state[UserRole].s
    }

    /** The loop of `init_session_state` over `default_state.items()`: a key
        is set only when absent. */
    method FillMissing(defaults: map<Key, Value>, keys: seq<Key>)
      requires (set k | k in keys) == defaults.Keys
      modifies this
      ensures state == defaults + old(state)
    {
      var i := 0;
      while i < |keys|
        invariant 0 <= i <= |keys|
        invariant state.Keys == old(state).Keys + set j | 0 <= j < i :: keys[j]
        invariant forall k :: k in old(state) ==> state[k] == old(state)[k]
        invariant forall k :: k in state && k !in old(state) ==> k in defaults && state[k] == defaults[k]
      {
        var key := keys[i];
        if key !in state {
          state := state[key := defaults[key]];
        }
        assert (set j | 0 <= j < i + 1 :: keys[j]) == (set j | 0 <= j < i :: keys[j]) + {key};
        i := i + 1;
      }
      assert (set j | 0 <= j < |keys| :: keys[j]) == defaults.Keys by {
        forall k | k in defaults ensures k in set j | 0 <= j < |keys| :: keys[j] {
          var j :| 0 <= j < |keys| && keys[j] == k;
        }
      }
    }

    /** `init_session_state`: every default key that is missing is added, and
        every key already present keeps its value. */
    method InitSessionState(samples: seq<Comment>)
      requires Consistent()
      modifies this
      ensures state == DefaultState(samples) + old(state)
      ensures Initialized()
    {
      DefaultKeysListed(samples);
      FillMissing(DefaultState(samples), DefaultKeys);
    }

    /** The login form's submit button: on good credentials the five user
        keys are set from the record; otherwise nothing changes. */
    method Login(username: string, password: string) returns (ok: bool)
      requires Consistent()
      modifies this
      ensures ok <==> Authenticate(username, password).Some?
      ensures ok ==> var u := Authenticate(username, password).value;
                     state == SignedIn(old(state), u.name, u.role, u.faculty, u.career)
      ensures !ok ==> state == old(state)
      ensures Consistent()
    {
      var user := Authenticate(username, password);
      if user.Some? {
        var u := user.value;
        state := state[LoggedInFlag := VBool(true)];
        state := state[CurrentUser := VStr(u.name)];
        state := state[UserRole := VStr(u.role)];
        state := state[UserFaculty := VStr(u.faculty)];
        state := state[UserCareer := VStr(u.career)];
        ok := true;
      } else {
        ok := false;
      }
    }

    /** The guest button: a signed-in "invitado" of faculty and career "General". */
    method EnterAsGuest()
      requires Consistent()
      modifies this
      ensures state == SignedIn(old(state), "Invitado", "invitado", "General", "General")
      ensures Consistent() && LoggedIn() && Role() == "invitado"
    {
      state := state[LoggedInFlag := VBool(true)];
      state := state[CurrentUser := VStr("Invitado")];
      state := state[UserRole := VStr("invitado")];
      state := state[UserFaculty := VStr("General")];
      state := state[UserCareer := VStr("General")];
    }

    /** The logout button: every session key is deleted, one at a time. */
    method Logout()
      modifies this
      ensures state == map[]
    {
      var keys := state.Keys;
      while keys != {}
        invariant state.Keys == keys
        decreases keys
      {
        var key :| key in keys;
        state := state - {key};
        keys := keys - {key};
      }
    }

    /** The new-comment form: a student (any role but "invitado" and
        "administrador") who writes something gets the comment inserted at
        the front of the feed; otherwise nothing changes. */
    method PostComment(course: string, text: string, rating: SliderRating, date: string) returns (posted: bool)
      requires Initialized() && LoggedIn()
      requires course in CommentClasses
      modifies this
      ensures posted <==> old(Role()) != "invitado" && old(Role()) != "administrador" && text != ""
      ensures posted ==>
                state == old(state)[CommentFeed := VComments(
                  [NewComment(old(state[CurrentUser].s), old(state[UserFaculty].s), course, text, rating, date)]
                  + old(Comments()))]
      ensures !posted ==> state == old(state)
      ensures Initialized() && LoggedIn()
    {
      posted := false;
      var role := Role();
      if role != "invitado" && role != "administrador" && text != "" {
        var comment := NewComment(state[CurrentUser].s, state[UserFaculty].s, course, text, rating, date);
        state := state[CommentFeed := VComments([comment] + Comments())];
        posted := true;
      }
    }

    /** `run`: initialise the session, load the data when the stored value is
        empty, then show the login view or, for a signed-in user, record the
        sidebar's `selected` page and render it. */
    method Run(selected: string, samples: seq<Comment>) returns (view: View)
      requires Consistent()
      modifies this
      ensures var init := DefaultState(samples) + old(state);
              var loaded := if Truthy(init[Data]) then init else init[Data := VFrames(DataKeys)];
              state == if loaded[LoggedInFlag] == VBool(true) then loaded[CurrentPage := VStr(selected)] else loaded
      ensures Initialized() && Truthy(state[Data])
      ensures !LoggedIn() ==> view == LoginView
      ensures LoggedIn() ==> view == PageFor(selected)
      ensures old(state) == map[] ==> !LoggedIn() && Comments() == samples
    {
      InitSessionState(samples);
      if !Truthy(state[Data]) {
        state := state[Data := VFrames(DataKeys)];
      }
      if !LoggedIn() {
        view := LoginView;
      } else {
        state := state[CurrentPage := VStr(selected)];
        view := PageFor(state[CurrentPage].s);
      }
    }
  }
}
