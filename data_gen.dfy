/** data.py: the synthetic tables behind the dashboard. Every `np.random` draw
    is a parameter, indexed by the loop position at which the generator makes
    it (faculty, career, student, category, course), so what remains is the
    deterministic shape of the tables. */
module DataGen {
  import opened Common
  import opened Numeric
  import opened Text

  const CurrentSemester: string := "2025-2"

  /** `SEMESTER_CATEGORIES`. */
  const SemesterCategories: seq<string> := [
    "Respeto a los horarios",
    "Disponibilidad de aulas",
    "Facilidad para el E.I.",
    "Bibliografía/Internet",
    "Carga de trabajo",
    "Ocio"
  ]

  /** `SUBJECT_CATEGORIES`. */
  const SubjectCategories: seq<string> := [
    "Calidad del profesor",
    "Recursos didácticos",
    "Carga de trabajo",
    "Justicia en la evaluación",
    "Utilidad de los contenidos impartidos"
  ]

  /** One entry of `FACULTIES_INFO`, with its key. */
  datatype FacultyInfo = FacultyInfo(acronym: string, name: string, careers: nat, students: nat)

  /** `FACULTIES_INFO`, in insertion order. */
  const FacultiesInfo: seq<FacultyInfo> := [
    FacultyInfo("MATCOM", "Matemática y Computación", 3, 320),
    FacultyInfo("FF", "Física", 2, 280),
    FacultyInfo("FQ", "Química", 1, 310),
    FacultyInfo("FBIOM", "Biología", 3, 295),
    FacultyInfo("FHS", "Historia y Sociología", 3, 270),
    FacultyInfo("INSTEC", "Tecnologías Aplicadas", 3, 260),
    FacultyInfo("FTUR", "Turismo", 1, 240),
    FacultyInfo("FCOM", "Comunicación", 2, 230),
    FacultyInfo("LEX", "Derecho", 1, 350),
    FacultyInfo("PSICO", "Psicología", 1, 320),
    FacultyInfo("FAYL", "Artes y Letras", 2, 250),
    FacultyInfo("IFAL", "Farmacia y Alimentos", 2, 265),
    FacultyInfo("ISDI", "Diseño Industrial", 2, 220),
    FacultyInfo("CSGH", "Gestión Habana", 1, 210),
    FacultyInfo("FENHI", "Economía", 2, 290),
    FacultyInfo("CONFIN", "Contabilidad y Finanzas", 1, 275),
    FacultyInfo("EKO", "Economía", 1, 240),
    FacultyInfo("GEO", "Geografía", 1, 190),
    FacultyInfo("FLEX", "Lenguas Extranjeras", 1, 235)
  ]

  /** The keys of `FACULTIES_INFO`, in order. */
  function Acronyms(): (r: seq<string>)
    ensures |r| == |FacultiesInfo|
    ensures forall i :: 0 <= i < |r| ==> r[i] == FacultiesInfo[i].acronym
  {
    seq(|FacultiesInfo|, i requires 0 <= i < |FacultiesInfo| => FacultiesInfo[i].acronym)
  }

  /** `CAREERS_BY_FACULTY`. */
  const CareersByFaculty: map<string, seq<string>> := map[
    "MATCOM" := ["Matemática", "Ciencias de la Computación", "Ciencia de Datos"],
    "FF" := ["Licenciatura en Física", "Ingeniería Física"],
    "FQ" := ["Licenciatura en Química"],
    "FBIOM" := ["Licenciatura en Biología", "Licenciatura en Microbiología", "Bioquímica"],
    "FHS" := ["Licenciatura en Historia", "Licenciatura en Sociología", "Licenciatura en Filosofía"],
    "INSTEC" := ["Ingeniería en Telecomunicaciones", "Ingeniería Eléctrica", "Ingeniería en Ciencias Aplicadas"],
    "FTUR" := ["Licenciatura en Turismo"],
    "FCOM" := ["Comunicación Social", "Periodismo"],
    "LEX" := ["Derecho"],
    "PSICO" := ["Licenciatura en Psicología"],
    "FAYL" := ["Licenciatura en Letras", "Licenciatura en Historia del Arte"],
    "IFAL" := ["Licenciatura en Farmacia", "Licenciatura en Ciencia de los Alimentos"],
    "ISDI" := ["Diseño Industrial", "Diseño de Comunicación Visual"],
    "CSGH" := ["Preservación y Gestión del Patrimonio Cultural"],
    "FENHI" := ["Licenciatura en Economía", "Licenciatura en Administración de Empresas"],
    "CONFIN" := ["Licenciatura en Contabilidad y Finanzas"],
    "EKO" := ["Licenciatura en Economía"],
    "GEO" := ["Licenciatura en Geografía"],
    "FLEX" := ["Licenciatura en Lenguas Extranjeras"]
  ]

  /** The two module-level tables the student generator reads: the faculty
      entries in insertion order and the careers of each faculty. */
  datatype Catalogue = Catalogue(faculties: seq<FacultyInfo>, careers: map<string, seq<string>>)

  /** data.py's own tables. */
  const Tables: Catalogue := Catalogue(FacultiesInfo, CareersByFaculty)

  /** No faculty is listed with an empty career list (an empty list would make
      the generator divide by zero). */
  predicate CareersNonEmpty(cat: Catalogue)
  {
    forall f :: f in cat.careers ==> |cat.careers[f]| >= 1
  }

  /** `CAREERS_BY_FACULTY.get(faculty, ["Carrera Principal"])`. */
  function CareersOf(cat: Catalogue, faculty: string): (r: seq<string>)
    ensures CareersNonEmpty(cat) ==> |r| >= 1
    ensures faculty in cat.careers ==> r == cat.careers[faculty]
    ensures faculty !in cat.careers ==> r == ["Carrera Principal"]
  {
    if faculty in cat.careers then cat.careers[faculty] else ["Carrera Principal"]
  }

  /** Every faculty of data.py has at least one career listed. */
  lemma CareersListed()
    ensures CareersNonEmpty(Tables)
  {
  }

  // ---------------------------------------------------------------------------
  // generate_semester_ratings

  /** A row of the semester table: `Facultad` and one rating per category. */
  datatype SemesterRow = SemesterRow(faculty: string, ratings: seq<real>)

  /** One faculty's rating in one category: `base + variation` rounded to one
      decimal and clamped to [1.0, 10.0]. */
  function SemesterRating(base: real, variation: real): (r: real)
    ensures 1.0 <= r <= 10.0
  {
    ClampReal(Round1(base + variation), 1.0, 10.0)
  }

  /** The draws `uniform(5.0, 7.5)` and `uniform(-0.5, 0.5)` never reach the
      clamp: the rating is just the rounded sum, inside [4.5, 8.0]. */
  lemma SemesterClampInactive(base: real, variation: real)
    requires 5.0 <= base <= 7.5 && -0.5 <= variation <= 0.5
    ensures SemesterRating(base, variation) == Round1(base + variation)
    ensures 4.5 <= SemesterRating(base, variation) <= 8.0
  {
    Round1Between(base + variation, 45, 80);
  }

  /** The row the generator builds for faculty number `f`. */
  function FacultySemesterRow(f: nat, base: (nat, nat) -> real, variation: (nat, nat) -> real): (row: SemesterRow)
    requires f < |FacultiesInfo|
    ensures row.faculty == FacultiesInfo[f].acronym
    ensures |row.ratings| == |SemesterCategories|
  {
    SemesterRow(FacultiesInfo[f].acronym,
      seq(|SemesterCategories|, c requires 0 <= c => SemesterRating(base(f, c), variation(f, c))))
  }

  /** The loop over the categories for faculty number `f`. */
  method NewSemesterRow(f: nat, base: (nat, nat) -> real, variation: (nat, nat) -> real) returns (row: SemesterRow)
    requires f < |FacultiesInfo|
    ensures row == FacultySemesterRow(f, base, variation)
  {
    var ratings := [];
    var c := 0;
    while c < |SemesterCategories|
      invariant 0 <= c <= |SemesterCategories|
      invariant |ratings| == c
      invariant forall k :: 0 <= k < c ==> ratings[k] == SemesterRating(base(f, k), variation(f, k))
    {
      var rating := Round1(base(f, c) + variation(f, c));
      ratings := ratings + [ClampReal(rating, 1.0, 10.0)];
      c := c + 1;
    }
    row := SemesterRow(FacultiesInfo[f].acronym, ratings);
  }

  /** Column `c` of a table whose rows all have that column. */
  function Column(rows: seq<SemesterRow>, c: nat): (col: seq<real>)
    requires forall i :: 0 <= i < |rows| ==> c < |rows[i].ratings|
    ensures |col| == |rows|
    ensures forall i :: 0 <= i < |rows| ==> col[i] == rows[i].ratings[c]
  {
    seq(|rows|, i requires 0 <= i < |rows| => rows[i].ratings[c])
  }

  /** `round(df[category].mean(), 1)`. */
  function ColumnMean(rows: seq<SemesterRow>, c: nat): real
    requires rows != []
    requires forall i :: 0 <= i < |rows| ==> c < |rows[i].ratings|
  {
    Round1(SumReal(Column(rows, c)) / |rows| as real)
  }

  /** `generate_semester_ratings`: one row per `FACULTIES_INFO` entry, in
      order, then a "GENERAL" row holding each column's rounded mean. */
  method GenerateSemesterRatings(base: (nat, nat) -> real, variation: (nat, nat) -> real)
    returns (table: seq<SemesterRow>)
    ensures |table| == |FacultiesInfo| + 1
    ensures forall f :: 0 <= f < |table| ==> |table[f].ratings| == |SemesterCategories|
    ensures forall f :: 0 <= f < |FacultiesInfo| ==> table[f] == FacultySemesterRow(f, base, variation)
    ensures table[|FacultiesInfo|].faculty == "GENERAL"
    ensures |table[|FacultiesInfo|].ratings| == |SemesterCategories|
    ensures forall c :: 0 <= c < |SemesterCategories| ==>
              table[|FacultiesInfo|].ratings[c] == ColumnMean(table[..|FacultiesInfo|], c)
  {
    table := [];
    var f := 0;
    while f < |FacultiesInfo|
      invariant 0 <= f <= |FacultiesInfo|
      invariant |table| == f
      invariant forall g :: 0 <= g < f ==> table[g] == FacultySemesterRow(g, base, variation)
    {
      var row := NewSemesterRow(f, base, variation);
      table := table + [row];
      f := f + 1;
    }
    var general := [];
    var c := 0;
    while c < |SemesterCategories|
      invariant 0 <= c <= |SemesterCategories|
      invariant |general| == c
      invariant forall k :: 0 <= k < c ==> general[k] == ColumnMean(table, k)
    {
      general := general + [ColumnMean(table, c)];
      c := c + 1;
    }
    assert table[..|FacultiesInfo|] == table;
    table := table + [SemesterRow("GENERAL", general)];
  }

  lemma {:induction false} SumRealBounds(s: seq<real>, lo: real, hi: real)
    requires forall i :: 0 <= i < |s| ==> lo <= s[i] <= hi
    ensures (|s| as real) * lo <= SumReal(s) <= (|s| as real) * hi
  {
    if s != [] {
      SumRealBounds(s[..|s| - 1], lo, hi);
    }
  }

  lemma MeanBounds(total: real, n: real, lo: real, hi: real)
    requires 0.0 < n && n * lo <= total <= n * hi
    ensures lo <= total / n <= hi
  {
  }

  /** The "GENERAL" row stays within [1.0, 10.0]: a mean of clamped ratings,
      rounded to one decimal. */
  lemma GeneralMeanInRange(rows: seq<SemesterRow>, c: nat)
    requires rows != []
    requires forall i :: 0 <= i < |rows| ==> c < |rows[i].ratings| && 1.0 <= rows[i].ratings[c] <= 10.0
    ensures 1.0 <= ColumnMean(rows, c) <= 10.0
  {
    var col := Column(rows, c);
    SumRealBounds(col, 1.0, 10.0);
    MeanBounds(SumReal(col), |rows| as real, 1.0, 10.0);
    Round1Between(SumReal(col) / |rows| as real, 10, 100);
  }

  /** The `Facultad` column of a semester table. */
  function FacultyColumn(table: seq<SemesterRow>): (names: seq<string>)
    ensures |names| == |table|
  {
    seq(|table|, i requires 0 <= i < |table| => table[i].faculty)
  }

  /** The semester table's `Facultad` column is the faculty keys in order
      followed by "GENERAL". */
  lemma SemesterFacultyColumn(table: seq<SemesterRow>, base: (nat, nat) -> real, variation: (nat, nat) -> real)
    requires |table| == |FacultiesInfo| + 1
    requires forall f :: 0 <= f < |FacultiesInfo| ==> table[f] == FacultySemesterRow(f, base, variation)
    requires table[|FacultiesInfo|].faculty == "GENERAL"
    ensures FacultyColumn(table) == Acronyms() + ["GENERAL"]
  {
  }

  // ---------------------------------------------------------------------------
  // generate_student_ratings

  /** `np.random.randint(1, 10)`: a digit from 1 to 9. */
  type BrigadeDigit = d: nat | 1 <= d <= 9 witness 1

  /** The draws of `generate_student_ratings`, by faculty position, career
      position and student number (and category, for the ratings). */
  datatype StudentDraws = StudentDraws(
    brigade: (nat, nat, nat) -> BrigadeDigit,
    base: (nat, nat, nat, nat) -> real)

  /** A row of the student table. */
  datatype StudentRow = StudentRow(
    faculty: string, career: string, id: string, brigade: string, semester: string, ratings: seq<int>)

  /** Students of career `i` when `total` are split among `n` careers: the
      quotient, plus one for each of the first `total % n` careers. */
  function CareerShare(total: nat, n: nat, i: nat): nat
    requires 0 < n
  {
    total / n + (if i < total % n then 1 else 0)
  }

  function Shares(total: nat, n: nat, k: nat): (s: seq<int>)
    requires 0 < n
    ensures |s| == k
    ensures forall i :: 0 <= i < k ==> s[i] == CareerShare(total, n, i)
  {
    seq(k, i requires 0 <= i => CareerShare(total, n, i))
  }

  lemma {:induction false} PrefixSharesSum(total: nat, n: nat, k: nat)
    requires 0 < n && k <= n
    ensures Sum(Shares(total, n, k)) == k * (total / n) + Min(k, total % n)
  {
    if k > 0 {
      PrefixSharesSum(total, n, k - 1);
      assert Shares(total, n, k)[..k - 1] == Shares(total, n, k - 1);
    }
  }

  /** The per-career counts of a faculty add up to its student total. */
  lemma CareerSharesSum(total: nat, n: nat)
    requires 0 < n
    ensures Sum(Shares(total, n, n)) == total
  {
    PrefixSharesSum(total, n, n);
  }

  /** The counts differ by at most one, and exactly the first `total % n`
      careers get the extra student. */
  lemma CareerSharesBalanced(total: nat, n: nat, i: nat, j: nat)
    requires 0 < n
    ensures CareerShare(total, n, i) == total / n + 1 <==> i < total % n
    ensures -1 <= CareerShare(total, n, i) - CareerShare(total, n, j) <= 1
  {
  }

  /** No career gets more students than its faculty has. */
  lemma CareerShareAtMostTotal(total: nat, n: nat, i: nat)
    requires 0 < n
    ensures CareerShare(total, n, i) <= total
  {
    var q, r := total / n, total % n;
    assert total == n * q + r;
    MulAtLeast(n, q);
  }

  lemma {:induction false} MulAtLeast(n: nat, q: nat)
    requires 0 < n
    ensures q <= n * q
  {
    if n > 1 {
      MulAtLeast(n - 1, q);
      assert n * q == (n - 1) * q + q;
    }
  }

  /** `f"{faculty}-{career[:3].upper()}-{student_id:04d}"`. */
  function StudentId(faculty: string, career: string, k: nat): string
  {
    faculty + "-" + Upper(Prefix(career, 3)) + "-" + ZeroPad(k, 4)
  }

  /** `f"{faculty[:2]}{np.random.randint(1, 10)}"`. */
  function Brigade(faculty: string, d: BrigadeDigit): string
  {
    Prefix(faculty, 2) + Decimal(d)
  }

  /** A brigade is the faculty's first two letters (fewer for a shorter
      acronym) followed by exactly one digit from 1 to 9. */
  lemma BrigadeFormat(faculty: string, d: BrigadeDigit)
    ensures var b := Brigade(faculty, d);
            |b| == Min(2, |faculty|) + 1 && b[..|b| - 1] == Prefix(faculty, 2) &&
            '1' <= b[|b| - 1] <= '9' && b[|b| - 1] as int - '0' as int == d
  {
    assert Decimal(d) == [DigitChar(d)];
  }

  /** `min(max(int(round(base, 0)), 1), 10)`. */
  function StudentRating(base: real): (r: int)
    ensures 1 <= r <= 10
  {
    ClampInt(RoundHalfEven(base), 1, 10)
  }

  /** For the draw `uniform(4.0, 9.0)` the clamp never acts. */
  lemma StudentClampInactive(base: real)
    requires 4.0 <= base <= 9.0
    ensures StudentRating(base) == RoundHalfEven(base)
    ensures 4 <= StudentRating(base) <= 9
  {
    RoundHalfEvenMonotone(4.0, base);
    RoundHalfEvenMonotone(base, 9.0);
    RoundHalfEvenOfInt(4);
    RoundHalfEvenOfInt(9);
  }

  /** The careers of faculty number `f`. */
  function FacultyCareers(cat: Catalogue, f: nat): (r: seq<string>)
    requires f < |cat.faculties|
  {
    CareersOf(cat, cat.faculties[f].acronym)
  }

  /** How many students career `ci` of faculty `f` gets. */
  function CareerCount(cat: Catalogue, f: nat, ci: nat): nat
    requires CareersNonEmpty(cat) && f < |cat.faculties|
  {
    CareerShare(cat.faculties[f].students, |FacultyCareers(cat, f)|, ci)
  }

  /** The row for student number `k` of career `ci` of faculty `f`. */
  function Student(cat: Catalogue, f: nat, ci: nat, k: nat, draws: StudentDraws): (row: StudentRow)
    requires f < |cat.faculties| && ci < |FacultyCareers(cat, f)|
    ensures row.semester == CurrentSemester
    ensures |row.ratings| == |SemesterCategories|
    ensures forall c :: 0 <= c < |row.ratings| ==> 1 <= row.ratings[c] <= 10
  {
    var faculty := cat.faculties[f].acronym;
    var career := FacultyCareers(cat, f)[ci];
    var ratings := seq(|SemesterCategories|, c requires 0 <= c => StudentRating(draws.base(f, ci, k, c)));
    assert forall c :: 0 <= c < |ratings| ==> 1 <= ratings[c] <= 10 by {
      forall c | 0 <= c < |ratings| ensures 1 <= ratings[c] <= 10 {
        assert ratings[c] == StudentRating(draws.base(f, ci, k, c));
      }
    }
    StudentRow(faculty, career, StudentId(faculty, career, k), Brigade(faculty, draws.brigade(f, ci, k)),
      CurrentSemester, ratings)
  }

  /** The rows of one career: student numbers 1 up to its count. */
  function CareerStudents(cat: Catalogue, f: nat, ci: nat, draws: StudentDraws): (rows: seq<StudentRow>)
    requires CareersNonEmpty(cat) && f < |cat.faculties| && ci < |FacultyCareers(cat, f)|
    ensures |rows| == CareerCount(cat, f, ci)
  {
    seq(CareerCount(cat, f, ci), j requires 0 <= j => Student(cat, f, ci, j + 1, draws))
  }

  /** One faculty's rows, career by career. */
  function CareerBlocks(cat: Catalogue, f: nat, draws: StudentDraws): (blocks: seq<seq<StudentRow>>)
    requires CareersNonEmpty(cat) && f < |cat.faculties|
    ensures |blocks| == |FacultyCareers(cat, f)|
  {
    seq(|FacultyCareers(cat, f)|,
      ci requires 0 <= ci < |FacultyCareers(cat, f)| => CareerStudents(cat, f, ci, draws))
  }

  /** The whole table, faculty by faculty. */
  function FacultyBlocks(cat: Catalogue, draws: StudentDraws): (blocks: seq<seq<StudentRow>>)
    requires CareersNonEmpty(cat)
    ensures |blocks| == |cat.faculties|
    ensures forall f :: 0 <= f < |blocks| ==> blocks[f] == Flatten(CareerBlocks(cat, f, draws))
  {
    seq(|cat.faculties|, f requires 0 <= f < |cat.faculties| => Flatten(CareerBlocks(cat, f, draws)))
  }

  function StudentTable(cat: Catalogue, draws: StudentDraws): seq<StudentRow>
    requires CareersNonEmpty(cat)
  {
    Flatten(FacultyBlocks(cat, draws))
  }

  /** One student's row; the loop fills the category ratings one by one. */
  method NewStudent(cat: Catalogue, f: nat, ci: nat, k: nat, draws: StudentDraws) returns (student: StudentRow)
    requires f < |cat.faculties| && ci < |FacultyCareers(cat, f)|
    ensures student == Student(cat, f, ci, k, draws)
  {
    var faculty := cat.faculties[f].acronym;
    var career := FacultyCareers(cat, f)[ci];
    var ratings := [];
    var c := 0;
    while c < |SemesterCategories|
      invariant 0 <= c <= |SemesterCategories|
      invariant |ratings| == c
      invariant forall x :: 0 <= x < c ==> ratings[x] == StudentRating(draws.base(f, ci, k, x))
    {
      var rating := RoundHalfEven(draws.base(f, ci, k, c));
      ratings := ratings + [ClampInt(rating, 1, 10)];
      c := c + 1;
    }
    student := StudentRow(faculty, career, StudentId(faculty, career, k),
      Brigade(faculty, draws.brigade(f, ci, k)), CurrentSemester, ratings);
  }

  /** The inner loop over student numbers 1 to `count`: appends the rows of
      career `ci` of faculty `f`. */
  method AppendCareer(cat: Catalogue, f: nat, ci: nat, count: nat, draws: StudentDraws, rows: seq<StudentRow>)
    returns (rows': seq<StudentRow>)
    requires CareersNonEmpty(cat) && f < |cat.faculties| && ci < |FacultyCareers(cat, f)|
    requires count == CareerCount(cat, f, ci)
    ensures rows' == rows + CareerStudents(cat, f, ci, draws)
  {
    rows' := rows;
    var k := 1;
    while k <= count
      invariant 1 <= k <= count + 1
      invariant rows' == rows + CareerStudents(cat, f, ci, draws)[..k - 1]
    {
      var student := NewStudent(cat, f, ci, k, draws);
      rows' := rows' + [student];
      k := k + 1;
    }
    assert CareerStudents(cat, f, ci, draws)[..k - 1] == CareerStudents(cat, f, ci, draws);
  }

  /** The loop over one faculty's careers, with the quotient-and-remainder split. */
  method AppendFaculty(cat: Catalogue, f: nat, draws: StudentDraws, rows: seq<StudentRow>)
    returns (rows': seq<StudentRow>)
    requires CareersNonEmpty(cat) && f < |cat.faculties|
    ensures rows' == rows + Flatten(CareerBlocks(cat, f, draws))
  {
    var faculty := cat.faculties[f].acronym;
    var numStudents := cat.faculties[f].students;
    var careers := CareersOf(cat, faculty);
    var perCareer := numStudents / |careers|;
    var remainder := numStudents % |careers|;
    ghost var blocks := CareerBlocks(cat, f, draws);
    rows' := rows;
    var ci := 0;
    while ci < |careers|
      invariant 0 <= ci <= |careers|
      invariant rows' == rows + Flatten(blocks[..ci])
    {
      var careerStudents := perCareer + (if ci < remainder then 1 else 0);
      rows' := AppendCareer(cat, f, ci, careerStudents, draws, rows');
      assert rows' == rows + Flatten(blocks[..ci + 1]) by {
        assert blocks[ci] == CareerStudents(cat, f, ci, draws);
        FlattenSnoc(blocks, ci);
      }
      ci := ci + 1;
    }
    assert blocks[..ci] == blocks;
  }

  /** `generate_student_ratings`, over the tables of `cat` (data.py passes
      its own, `Tables`): for each faculty, split its students among its
      careers and append one row per student, career by career. */
  method GenerateStudentRatings(cat: Catalogue, draws: StudentDraws) returns (rows: seq<StudentRow>)
    requires CareersNonEmpty(cat)
    ensures rows == StudentTable(cat, draws)
  {
    rows := [];
    var f := 0;
    while f < |cat.faculties|
      invariant 0 <= f <= |cat.faculties|
      invariant rows == Flatten(FacultyBlocks(cat, draws)[..f])
    {
      rows := AppendFaculty(cat, f, draws, rows);
      FlattenSnoc(FacultyBlocks(cat, draws), f);
      f := f + 1;
    }
    assert FacultyBlocks(cat, draws)[..f] == FacultyBlocks(cat, draws);
  }

  /** A faculty contributes exactly `info["students"]` rows. */
  lemma FacultyStudentCount(cat: Catalogue, f: nat, draws: StudentDraws)
    requires CareersNonEmpty(cat) && f < |cat.faculties|
    ensures |Flatten(CareerBlocks(cat, f, draws))| == cat.faculties[f].students
  {
    var total := cat.faculties[f].students;
    var n := |FacultyCareers(cat, f)|;
    FlattenLength(CareerBlocks(cat, f, draws));
    assert Lengths(CareerBlocks(cat, f, draws)) == Shares(total, n, n);
    CareerSharesSum(total, n);
  }

  /** The student totals of a list of faculties. */
  function StudentTotals(infos: seq<FacultyInfo>): (r: seq<int>)
    ensures |r| == |infos|
  {
    seq(|infos|, f requires 0 <= f < |infos| => infos[f].students)
  }

  /** The table has one row per student of every faculty. */
  lemma StudentTableSize(cat: Catalogue, draws: StudentDraws)
    requires CareersNonEmpty(cat)
    ensures |StudentTable(cat, draws)| == Sum(StudentTotals(cat.faculties))
  {
    var blocks := FacultyBlocks(cat, draws);
    FlattenLength(blocks);
    forall f | 0 <= f < |blocks| ensures Lengths(blocks)[f] == cat.faculties[f].students {
      FacultyStudentCount(cat, f, draws);
    }
    assert Lengths(blocks) == StudentTotals(cat.faculties);
  }

  /** A row of one faculty's block is the row of some student number between
      1 and its career's count. */
  lemma FacultyRowOrigin(cat: Catalogue, f: nat, draws: StudentDraws, row: StudentRow)
    requires CareersNonEmpty(cat) && f < |cat.faculties|
    requires row in Flatten(CareerBlocks(cat, f, draws))
    ensures exists ci, k :: 0 <= ci < |FacultyCareers(cat, f)| &&
              1 <= k <= CareerCount(cat, f, ci) && row == Student(cat, f, ci, k, draws)
  {
    var careers := CareerBlocks(cat, f, draws);
    FlattenMember(careers, row);
    var ci :| 0 <= ci < |careers| && row in careers[ci];
    assert careers[ci] == CareerStudents(cat, f, ci, draws);
    CareerRowOrigin(cat, f, ci, draws, row);
  }

  /** A row of one career's block is the row of some student number between
      1 and the career's count. */
  lemma CareerRowOrigin(cat: Catalogue, f: nat, ci: nat, draws: StudentDraws, row: StudentRow)
    requires CareersNonEmpty(cat) && f < |cat.faculties| && ci < |FacultyCareers(cat, f)|
    requires row in CareerStudents(cat, f, ci, draws)
    ensures exists k :: 1 <= k <= CareerCount(cat, f, ci) && row == Student(cat, f, ci, k, draws)
  {
    var rows := CareerStudents(cat, f, ci, draws);
    var j :| 0 <= j < |rows| && rows[j] == row;
    assert row == Student(cat, f, ci, j + 1, draws);
  }

  /** Every row of the student table is the row of some student number
      between 1 and its career's count, for a career of one of the faculties. */
  lemma StudentRowOrigin(cat: Catalogue, draws: StudentDraws, row: StudentRow)
    requires CareersNonEmpty(cat) && row in StudentTable(cat, draws)
    ensures exists f, ci, k :: 0 <= f < |cat.faculties| && 0 <= ci < |FacultyCareers(cat, f)| &&
              1 <= k <= CareerCount(cat, f, ci) && row == Student(cat, f, ci, k, draws)
  {
    var blocks := FacultyBlocks(cat, draws);
    FlattenMember(blocks, row);
    var f :| 0 <= f < |blocks| && row in blocks[f];
    FacultyRowOrigin(cat, f, draws, row);
  }

  /** And back: every student number between 1 and its career's count has
      its row in the table. */
  lemma StudentInTable(cat: Catalogue, f: nat, ci: nat, k: nat, draws: StudentDraws)
    requires CareersNonEmpty(cat) && f < |cat.faculties| && ci < |FacultyCareers(cat, f)|
    requires 1 <= k <= CareerCount(cat, f, ci)
    ensures Student(cat, f, ci, k, draws) in StudentTable(cat, draws)
  {
    var student := Student(cat, f, ci, k, draws);
    var careers := CareerBlocks(cat, f, draws);
    assert careers[ci] == CareerStudents(cat, f, ci, draws);
    assert student == careers[ci][k - 1];
    FlattenMember(careers, student);
    FlattenMember(FacultyBlocks(cat, draws), student);
  }

  /** So every row carries the current semester and one rating in [1, 10]
      per category. */
  lemma StudentRowRatings(cat: Catalogue, draws: StudentDraws, row: StudentRow)
    requires CareersNonEmpty(cat) && row in StudentTable(cat, draws)
    ensures row.semester == CurrentSemester
    ensures |row.ratings| == |SemesterCategories|
    ensures forall c :: 0 <= c < |row.ratings| ==> 1 <= row.ratings[c] <= 10
  {
    StudentRowOrigin(cat, draws, row);
  }

  /** A student's ID is built from the faculty key, the career's first three
      letters in upper case and the student number padded to four digits. */
  lemma StudentIdFormat(cat: Catalogue, f: nat, ci: nat, k: nat, draws: StudentDraws)
    requires f < |cat.faculties| && ci < |FacultyCareers(cat, f)| && k < 10000
    ensures var row := Student(cat, f, ci, k, draws);
            && row.faculty == cat.faculties[f].acronym
            && row.career == FacultyCareers(cat, f)[ci]
            && row.id == row.faculty + "-" + Upper(Prefix(row.career, 3)) + "-" + ZeroPad(k, 4)
            && |ZeroPad(k, 4)| == 4
            && ParseDigits(ZeroPad(k, 4)) == k
  {
    assert Pow10(4) == 10000;
    DecimalLength(k, 4);
    ParseZeroPad(k, 4);
  }

  /** Within one career the IDs are distinct: the padded number reads back. */
  lemma StudentIdInjective(faculty: string, career: string, k1: nat, k2: nat)
    requires StudentId(faculty, career, k1) == StudentId(faculty, career, k2)
    ensures k1 == k2
  {
    var p := faculty + "-" + Upper(Prefix(career, 3)) + "-";
    assert ZeroPad(k1, 4) == StudentId(faculty, career, k1)[|p|..];
    assert ZeroPad(k2, 4) == StudentId(faculty, career, k2)[|p|..];
    ZeroPadInjective(k1, k2, 4);
  }

  /** IDs are not unique across careers: FBIOM's first two careers both
      abbreviate to "LIC", so their first students share "FBIOM-LIC-0001"
      in the table built from data.py's own tables. */
  lemma StudentIdsCollide(draws: StudentDraws)
    ensures CareersNonEmpty(Tables)
    ensures Student(Tables, 3, 0, 1, draws) in StudentTable(Tables, draws)
    ensures Student(Tables, 3, 1, 1, draws) in StudentTable(Tables, draws)
    ensures Student(Tables, 3, 0, 1, draws).career != Student(Tables, 3, 1, 1, draws).career
    ensures Student(Tables, 3, 0, 1, draws).id == Student(Tables, 3, 1, 1, draws).id == "FBIOM-LIC-0001"
  {
    BiologyCareers();
    StudentInTable(Tables, 3, 0, 1, draws);
    StudentInTable(Tables, 3, 1, 1, draws);
    LicIds();
  }

  /** FBIOM, the fourth faculty, lists two "Licenciatura" careers first, and
      each gets students. */
  lemma BiologyCareers()
    ensures CareersNonEmpty(Tables)
    ensures 3 < |Tables.faculties| && Tables.faculties[3].acronym == "FBIOM"
    ensures FacultyCareers(Tables, 3) == ["Licenciatura en Biología", "Licenciatura en Microbiología", "Bioquímica"]
    ensures CareerCount(Tables, 3, 0) >= 1 && CareerCount(Tables, 3, 1) >= 1
  {
    CareersListed();
    assert Tables.faculties[3].students == 295;
  }

  lemma LicIds()
    ensures StudentId("FBIOM", "Licenciatura en Biología", 1) == "FBIOM-LIC-0001"
    ensures StudentId("FBIOM", "Licenciatura en Microbiología", 1) == "FBIOM-LIC-0001"
  {
    assert ZeroPad(1, 4) == "0001";
    assert Upper(Prefix("Licenciatura en Biología", 3)) == "LIC";
    assert Upper(Prefix("Licenciatura en Microbiología", 3)) == "LIC";
  }

  // ---------------------------------------------------------------------------
  // generate_classes_data

  /** `common_courses`. */
  const CommonCourses: seq<string> := [
    "Idioma Inglés",
    "Educación Física",
    "Historia de Cuba",
    "Filosofía",
    "Metodología de la Investigación"
  ]

  /** `faculty_courses`. */
  const FacultyCourses: map<string, seq<string>> := map[
    "MATCOM" := ["Cálculo", "Álgebra", "Programación", "Bases de Datos", "Estadística"],
    "FF" := ["Mecánica Clásica", "Electromagnetismo", "Termodinámica", "Física Moderna"],
    "FQ" := ["Química General", "Química Orgánica", "Química Inorgánica", "Fisicoquímica"],
    "LEX" := ["Derecho Civil", "Derecho Penal", "Derecho Constitucional", "Derecho Laboral"],
    "PSICO" := ["Psicología General", "Psicología del Desarrollo", "Psicopatología"]
  ]

  /** The credit values and professor surnames the generator chooses from. */
  const CreditChoices: seq<int> := [2, 3, 4]
  const Surnames: seq<string> := ["González", "Rodríguez", "Pérez", "Martínez", "García"]

  /** `np.random.randint(5, 8)`. */
  type CourseTotal = n: nat | 5 <= n <= 7 witness 5
  /** `np.random.random()`. */
  type Unit = x: real | 0.0 <= x < 1.0 witness 0.0
  /** A position drawn by `np.random.choice` among three or five options. */
  type CreditIndex = i: nat | i < 3 witness 0
  type SurnameIndex = i: nat | i < 5 witness 0

  /** `f"Prof. {surname}"`. */
  function Professor(i: SurnameIndex): (name: string)
    ensures |name| > 6 && name[..6] == "Prof. "
  {
    var surname := Surnames[i];
    assert |surname| > 0;
    "Prof. " + surname
  }

  /** The draws of `generate_classes_data`, by the student's position in the
      student table (and the pick or course position). */
  datatype ClassDraws = ClassDraws(
    numCourses: nat -> CourseTotal,
    specificPick: nat -> nat -> nat,
    commonPick: nat -> nat -> nat,
    grade: (nat, nat) -> Unit,
    credits: (nat, nat) -> CreditIndex,
    surname: (nat, nat) -> SurnameIndex)

  /** `np.random.choice(pool, m, replace=False)`: `m` successive picks, each
      taking the element at position `pick(step) % |pool|` of what is left.
      numpy refuses `m` greater than the pool. */
  function Sample<T>(pool: seq<T>, m: nat, pick: nat -> nat, step: nat): (r: seq<T>)
    requires m <= |pool|
    ensures |r| == m
    ensures forall x :: x in r ==> x in pool
    ensures Distinct(pool) ==> Distinct(r)
    decreases m
  {
    if m == 0 then []
    else
      var k := pick(step) % |pool|;
      RemoveAtMembers(pool, k);
      [pool[k]] + Sample(RemoveAt(pool, k), m - 1, pick, step + 1)
  }

  /** The faculty-specific part of a student's courses. */
  function SpecificCourses(faculty: string, pick: nat -> nat): seq<string>
  {
    if faculty in FacultyCourses then
      var pool := FacultyCourses[faculty];
      Sample(pool, Min(3, |pool|), pick, 0)
    else []
  }

  /** A student's courses: up to three of the faculty's own, then common
      courses up to `num` (never more than the five there are). */
  function CoursesFor(faculty: string, num: nat, specificPick: nat -> nat, commonPick: nat -> nat): seq<string>
  {
    var specific := SpecificCourses(faculty, specificPick);
    var remaining := num - |specific|;
    specific + (if remaining > 0 then Sample(CommonCourses, Min(remaining, |CommonCourses|), commonPick, 0) else [])
  }

  /** Each course list has no repetition, every faculty lists at least three
      courses, and no faculty course is also a common one. */
  lemma CourseListsShape()
    ensures Distinct(CommonCourses)
    ensures forall f :: f in FacultyCourses ==> 3 <= |FacultyCourses[f]| && Distinct(FacultyCourses[f])
    ensures forall f, c :: f in FacultyCourses && c in FacultyCourses[f] ==> c !in CommonCourses
  {
  }

  /** A student of a faculty with its own courses takes exactly `num` courses
      (three of its own), anyone else exactly the five common ones. */
  lemma CourseCount(faculty: string, num: CourseTotal, specificPick: nat -> nat, commonPick: nat -> nat)
    ensures |CoursesFor(faculty, num, specificPick, commonPick)| == if faculty in FacultyCourses then num else 5
    ensures faculty in FacultyCourses ==> |SpecificCourses(faculty, specificPick)| == 3
  {
    CourseListsShape();
  }

  /** A student never takes the same course twice, and every course comes
      from the faculty's list or the common one. */
  lemma CoursesDistinct(faculty: string, num: nat, specificPick: nat -> nat, commonPick: nat -> nat)
    ensures Distinct(CoursesFor(faculty, num, specificPick, commonPick))
    ensures forall c :: c in CoursesFor(faculty, num, specificPick, commonPick) ==>
              c in CommonCourses || (faculty in FacultyCourses && c in FacultyCourses[faculty])
  {
    CourseListsShape();
    var specific := SpecificCourses(faculty, specificPick);
    var remaining := num - |specific|;
    var common := if remaining > 0 then Sample(CommonCourses, Min(remaining, |CommonCourses|), commonPick, 0) else [];
    assert CoursesFor(faculty, num, specificPick, commonPick) == specific + common;
    assert forall c :: c in specific ==> faculty in FacultyCourses && c in FacultyCourses[faculty];
    assert forall c :: c in common ==> c in CommonCourses;
    DistinctAppend(specific, common);
  }

  /** The grade for a uniform draw: 2 below 0.1, 3 below 0.4, 4 below 0.8,
      otherwise 5. */
  function Grade(x: real): (g: int)
    ensures 2 <= g <= 5
  {
    if x < 0.1 then 2 else if x < 0.4 then 3 else if x < 0.8 then 4 else 5
  }

  /** The cumulative shares 10%, 40% and 80% at which the grade steps up. */
  const GradeCutoffs: seq<real> := [0.1, 0.4, 0.8]

  /** How many of the cutoffs lie at or below `x`. */
  function CutoffsPassed(cutoffs: seq<real>, x: real): (n: nat)
    ensures n <= |cutoffs|
  {
    if cutoffs == [] then 0 else (if cutoffs[0] <= x then 1 else 0) + CutoffsPassed(cutoffs[1..], x)
  }

  /** The grade is 2 plus the number of cutoffs the draw has passed. */
  lemma GradeCountsCutoffs(x: real)
    ensures Grade(x) == 2 + CutoffsPassed(GradeCutoffs, x)
  {
    var c := GradeCutoffs;
    assert CutoffsPassed(c[3..], x) == 0;
    assert CutoffsPassed(c[2..], x) == (if 0.8 <= x then 1 else 0) + CutoffsPassed(c[3..], x);
    assert CutoffsPassed(c[1..], x) == (if 0.4 <= x then 1 else 0) + CutoffsPassed(c[1..][1..], x);
    assert c[1..][1..] == c[2..];
    assert CutoffsPassed(c, x) == (if 0.1 <= x then 1 else 0) + CutoffsPassed(c[1..], x);
  }

  /** A higher draw never gives a lower grade. */
  lemma GradeMonotone(x: real, y: real)
    requires x <= y
    ensures Grade(x) <= Grade(y)
  {
  }

  /** One row of the classes table. */
  datatype ClassRecord = ClassRecord(
    faculty: string, career: string, studentId: string, course: string, semester: string,
    grade: int, credits: int, professor: string)

  /** The `class_record` dictionary for one course of student `s`. */
  function ClassRecordOf(s: StudentRow, course: string, grade: int, credit: CreditIndex, surname: SurnameIndex): ClassRecord
  {
    ClassRecord(s.faculty, s.career, s.id, course, CurrentSemester, grade, CreditChoices[credit], Professor(surname))
  }

  /** The courses of the student at position `k`. */
  function StudentCourses(s: StudentRow, k: nat, draws: ClassDraws): seq<string>
  {
    CoursesFor(s.faculty, draws.numCourses(k), draws.specificPick(k), draws.commonPick(k))
  }

  /** The records for the courses `courses` of the student at position `k`,
      one per course, in order. */
  function CourseRecords(s: StudentRow, k: nat, courses: seq<string>, draws: ClassDraws): (records: seq<ClassRecord>)
    ensures |records| == |courses|
  {
    seq(|courses|, j requires 0 <= j < |courses| =>
      ClassRecordOf(s, courses[j], Grade(draws.grade(k, j)), draws.credits(k, j), draws.surname(k, j)))
  }

  /** The records of the student at position `k`. */
  function StudentClasses(s: StudentRow, k: nat, draws: ClassDraws): (records: seq<ClassRecord>)
    ensures |records| == |StudentCourses(s, k, draws)|
  {
    CourseRecords(s, k, StudentCourses(s, k, draws), draws)
  }

  function ClassBlocks(students: seq<StudentRow>, draws: ClassDraws): (blocks: seq<seq<ClassRecord>>)
    ensures |blocks| == |students|
  {
    seq(|students|, k requires 0 <= k < |students| => StudentClasses(students[k], k, draws))
  }

  /** The classes table for a student table: each student's records in turn. */
  function ClassesTable(students: seq<StudentRow>, draws: ClassDraws): seq<ClassRecord>
  {
    Flatten(ClassBlocks(students, draws))
  }

  /** The course selection for one student. */
  method SelectCourses(faculty: string, num: nat, specificPick: nat -> nat, commonPick: nat -> nat)
    returns (courses: seq<string>)
    ensures courses == CoursesFor(faculty, num, specificPick, commonPick)
  {
    courses := [];
    if faculty in FacultyCourses {
      var specific := FacultyCourses[faculty];
      courses := courses + Sample(specific, Min(3, |specific|), specificPick, 0);
    }
    assert courses == SpecificCourses(faculty, specificPick);
    var remaining := num - |courses|;
    if remaining > 0 {
      courses := courses + Sample(CommonCourses, Min(remaining, |CommonCourses|), commonPick, 0);
    }
  }

  /** The loop over a student's courses, appending one record per course. */
  method AppendCourseRecords(s: StudentRow, k: nat, courses: seq<string>, draws: ClassDraws, records: seq<ClassRecord>)
    returns (records': seq<ClassRecord>)
    ensures records' == records + CourseRecords(s, k, courses, draws)
  {
    ghost var expected := CourseRecords(s, k, courses, draws);
    records' := records;
    var j := 0;
    while j < |courses|
      invariant 0 <= j <= |courses|
      invariant records' == records + expected[..j]
    {
      var rand := draws.grade(k, j);
      var grade;
      if rand < 0.1 {
        grade := 2;
      } else if rand < 0.4 {
        grade := 3;
      } else if rand < 0.8 {
        grade := 4;
      } else {
        grade := 5;
      }
      var record := ClassRecordOf(s, courses[j], grade, draws.credits(k, j), draws.surname(k, j));
      assert expected[..j + 1] == expected[..j] + [record];
      records' := records' + [record];
      j := j + 1;
    }
    assert expected[..j] == expected;
  }

  /** The records of one student: select its courses, then one record each. */
  method AppendClasses(s: StudentRow, k: nat, draws: ClassDraws, records: seq<ClassRecord>)
    returns (records': seq<ClassRecord>)
    ensures records' == records + StudentClasses(s, k, draws)
  {
    var courses := SelectCourses(s.faculty, draws.numCourses(k), draws.specificPick(k), draws.commonPick(k));
    records' := AppendCourseRecords(s, k, courses, draws, records);
  }

  /** `generate_classes_data`: builds the student table with data.py's own
      tables, then appends each student's class records in table order. */
  method GenerateClassesData(studentDraws: StudentDraws, draws: ClassDraws) returns (records: seq<ClassRecord>)
    ensures CareersNonEmpty(Tables)
    ensures records == ClassesTable(StudentTable(Tables, studentDraws), draws)
  {
    CareersListed();
    var students := GenerateStudentRatings(Tables, studentDraws);
    ghost var blocks := ClassBlocks(students, draws);
    records := [];
    var k := 0;
    while k < |students|
      invariant 0 <= k <= |students|
      invariant records == Flatten(blocks[..k])
    {
      records := AppendClasses(students[k], k, draws, records);
      FlattenSnoc(blocks, k);
      k := k + 1;
    }
    assert blocks[..k] == blocks;
  }

  /** Every student has between five and seven records, so the classes table
      has between five and seven times as many rows as the student table. */
  lemma ClassesTableSize(students: seq<StudentRow>, draws: ClassDraws)
    ensures 5 * |students| <= |ClassesTable(students, draws)| <= 7 * |students|
  {
    var blocks := ClassBlocks(students, draws);
    forall k | 0 <= k < |blocks| ensures 5 <= |blocks[k]| <= 7 {
      CourseCount(students[k].faculty, draws.numCourses(k), draws.specificPick(k), draws.commonPick(k));
    }
    FlattenLengthBounds(blocks, 5, 7);
  }

  /** Each record repeats its student's faculty, career and ID, names one of
      the student's courses, and has a grade from 2 to 5, a credit value of 2,
      3 or 4 and a professor "Prof. <surname>". */
  lemma ClassRecordShape(s: StudentRow, k: nat, draws: ClassDraws, j: nat)
    requires j < |StudentClasses(s, k, draws)|
    ensures var r := StudentClasses(s, k, draws)[j];
            && r.faculty == s.faculty && r.career == s.career && r.studentId == s.id
            && r.course == StudentCourses(s, k, draws)[j]
            && r.semester == CurrentSemester
            && 2 <= r.grade <= 5
            && r.credits in {2, 3, 4}
            && |r.professor| > 6 && r.professor[..6] == "Prof. "
  {
    CourseRecordShape(s, k, StudentCourses(s, k, draws), draws, j);
  }

  /** The same for any course list. */
  lemma CourseRecordShape(s: StudentRow, k: nat, courses: seq<string>, draws: ClassDraws, j: nat)
    requires j < |courses|
    ensures var r := CourseRecords(s, k, courses, draws)[j];
            && r.faculty == s.faculty && r.career == s.career && r.studentId == s.id
            && r.course == courses[j]
            && r.semester == CurrentSemester
            && 2 <= r.grade <= 5
            && r.credits in {2, 3, 4}
            && |r.professor| > 6 && r.professor[..6] == "Prof. "
  {
  }

  // ---------------------------------------------------------------------------
  // generate_subject_ratings

  /** The courses `generate_subject_ratings` rates. */
  const SubjectCourses: seq<string> := [
    "Visualización de Datos",
    "Programación I",
    "Cálculo I",
    "Química General",
    "Derecho Civil",
    "Psicología General",
    "Historia de Cuba",
    "Inglés I",
    "Educación Física"
  ]

  /** A row of the subject table. */
  datatype SubjectRow = SubjectRow(course: string, category: string, rating: real, semester: string)

  /** The row for course `i` and category `c`, from the draw `uniform(6.0, 9.0)`
      rounded to one decimal. */
  function SubjectRowAt(i: nat, c: nat, draw: (nat, nat) -> real): SubjectRow
    requires i < |SubjectCourses| && c < |SubjectCategories|
  {
    SubjectRow(SubjectCourses[i], SubjectCategories[c], Round1(draw(i, c)), CurrentSemester)
  }

  /** `generate_subject_ratings`: one row per course and category, courses in
      the outer loop. */
  method GenerateSubjectRatings(draw: (nat, nat) -> real) returns (rows: seq<SubjectRow>)
    ensures |rows| == |SubjectCourses| * |SubjectCategories|
    ensures forall i, c :: 0 <= i < |SubjectCourses| && 0 <= c < |SubjectCategories| ==>
              rows[i * |SubjectCategories| + c] == SubjectRowAt(i, c, draw)
    ensures forall n :: 0 <= n < |rows| ==>
              rows[n] == SubjectRowAt(n / |SubjectCategories|, n % |SubjectCategories|, draw)
  {
    rows := [];
    var i := 0;
    while i < |SubjectCourses|
      invariant 0 <= i <= |SubjectCourses|
      invariant |rows| == i * |SubjectCategories|
      invariant forall i', c :: 0 <= i' < i && 0 <= c < |SubjectCategories| ==>
                  rows[i' * |SubjectCategories| + c] == SubjectRowAt(i', c, draw)
    {
      var c := 0;
      while c < |SubjectCategories|
        invariant 0 <= c <= |SubjectCategories|
        invariant |rows| == i * |SubjectCategories| + c
        invariant forall i', c' :: 0 <= i' < i && 0 <= c' < |SubjectCategories| ==>
                    rows[i' * |SubjectCategories| + c'] == SubjectRowAt(i', c', draw)
        invariant forall c' :: 0 <= c' < c ==> rows[i * |SubjectCategories| + c'] == SubjectRowAt(i, c', draw)
      {
        var rating := Round1(draw(i, c));
        rows := rows + [SubjectRow(SubjectCourses[i], SubjectCategories[c], rating, CurrentSemester)];
        c := c + 1;
      }
      i := i + 1;
    }
    forall n | 0 <= n < |rows|
      ensures rows[n] == SubjectRowAt(n / |SubjectCategories|, n % |SubjectCategories|, draw)
    {
      assert n == (n / |SubjectCategories|) * |SubjectCategories| + n % |SubjectCategories|;
    }
  }

  /** The draw `uniform(6.0, 9.0)` rounds to a rating in [6.0, 9.0]. */
  lemma SubjectRatingRange(x: real)
    requires 6.0 <= x <= 9.0
    ensures 6.0 <= Round1(x) <= 9.0
  {
    Round1Between(x, 60, 90);
  }
}
