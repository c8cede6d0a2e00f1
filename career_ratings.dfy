/** ds/data.py: the faculty tables of the second dashboard and the per-career
    ratings derived from a faculty's ratings by a small random variation.
    The variations are a parameter, one vector per (faculty, career). */
module CareerRatings {
  import opened Numeric

  /** `FACULTY_NAMES`. */
  const FacultyNames: map<string, string> := map[
    "CONFIN" := "Facultad de Contabilidad y Finanzas",
    "EKO" := "Facultad de Economía",
    "FTUR" := "Facultad de Turismo",
    "FBIOM" := "Facultad de Biología",
    "FF" := "Facultad de Física",
    "GEO" := "Facultad de Geografía",
    "IFAL" := "Instituto de Farmacia y Alimentos",
    "MATCOM" := "Facultad de Matemática y Computación",
    "FQ" := "Facultad de Química",
    "FAYL" := "Facultad de Artes y Letras",
    "FCOM" := "Facultad de Comunicación",
    "LEX" := "Facultad de Derecho",
    "FHS" := "Facultad de Filosofía e Historia",
    "ISDI" := "Instituto Superior de Diseño",
    "FLEX" := "Facultad de Lenguas Extranjeras",
    "PSICO" := "Facultad de Psicología",
    "CSGH" := "Colegio de San Gerónimo de La Habana",
    "INSTEC" := "Instituto Superior de Tecnologías y Ciencias Aplicadas"
  ]

  /** `FACULTY_CAREERS`. */
  const FacultyCareers: map<string, seq<string>> := map[
    "CONFIN" := ["Licenciatura en Contabilidad y Finanzas"],
    "EKO" := ["Licenciatura en Economía"],
    "FTUR" := ["Licenciatura en Turismo"],
    "FBIOM" := ["Licenciatura en Biología", "Licenciatura en Microbiología", "Licenciatura en Bioquímica"],
    "FF" := ["Ingeniería Física", "Licenciatura en Física"],
    "GEO" := ["Licenciatura en Geografía"],
    "IFAL" := ["Farmacia", "Alimentos"],
    "MATCOM" := ["Matemática", "Ciencias de la Computación", "Ciencia de Datos"],
    "FQ" := ["Licenciatura en Química"],
    "FAYL" := ["Letras", "Historia del Arte"],
    "FCOM" := ["Comunicación Social"],
    "LEX" := ["Derecho"],
    "FHS" := ["Filosofía", "Historia"],
    "ISDI" := ["Diseño Industrial", "Diseño de Comunicación Visual"],
    "FLEX" := ["Lenguas Extranjeras"],
    "PSICO" := ["Psicología"],
    "CSGH" := ["Preservación y Gestión del Patrimonio Cultural"],
    "INSTEC" := ["Ingeniería en Telecomunicaciones", "Ingeniería Eléctrica"]
  ]

  /** Both tables describe the same eighteen faculties. */
  lemma FacultyTablesAgree()
    ensures FacultyNames.Keys == FacultyCareers.Keys
  {
  }

  /** `max(1, min(10, round(rating + var, 1)))`. */
  function CategoryRating(rating: real, variation: real): (r: real)
    ensures 1.0 <= r <= 10.0
  {
    ClampRealUpperFirst(Round1(rating + variation), 1.0, 10.0)
  }

  /** The career's dictionary `{cat: ... for cat, var in zip(categories,
      variation)}`: categories in order, a later duplicate overwriting an
      earlier one. */
  function CareerRating(ratings: map<string, real>, categories: seq<string>, variation: nat -> real)
    : (r: map<string, real>)
    requires forall i :: 0 <= i < |categories| ==> categories[i] in ratings
    ensures r.Keys == set i | 0 <= i < |categories| :: categories[i]
    ensures forall c :: c in r ==> 1.0 <= r[c] <= 10.0
  {
    if categories == [] then map[]
    else
      var n := |categories| - 1;
      CareerRating(ratings, categories[..n], variation)[categories[n] := CategoryRating(ratings[categories[n]], variation(n))]
  }

  /** Each category is paired with the variation at its own position: with
      distinct categories, category `i` gets `ratings[categories[i]]` plus
      `variation(i)`, rounded and clamped. */
  lemma {:induction false} CareerRatingPositional(ratings: map<string, real>, categories: seq<string>,
                                                 variation: nat -> real, i: nat)
    requires forall j :: 0 <= j < |categories| ==> categories[j] in ratings
    requires forall j, k :: 0 <= j < k < |categories| ==> categories[j] != categories[k]
    requires i < |categories|
    ensures CareerRating(ratings, categories, variation)[categories[i]] ==
            CategoryRating(ratings[categories[i]], variation(i))
    decreases |categories|
  {
    var n := |categories| - 1;
    if i < n {
      CareerRatingPositional(ratings, categories[..n], variation, i);
    }
  }

  /** The keys the generator produces for a set of input faculties: one per
      career listed for each faculty the careers table knows. */
  function CareerKeys(careers: map<string, seq<string>>, faculties: set<string>): (keys: set<(string, string)>)
    ensures forall key :: key in keys ==> key.0 in faculties && key.0 in careers
  {
    set f, c | f in faculties && f in careers && c in careers[f] :: (f, c)
  }

  /** The keys of one known faculty. */
  function FacultyKeys(careers: map<string, seq<string>>, faculty: string): set<(string, string)>
    requires faculty in careers
  {
    set c | c in careers[faculty] :: (faculty, c)
  }

  /** Adding one faculty adds exactly its careers' keys. */
  lemma CareerKeysAdd(careers: map<string, seq<string>>, done: set<string>, faculty: string)
    ensures CareerKeys(careers, done + {faculty}) == CareerKeys(careers, done) +
              if faculty in careers then FacultyKeys(careers, faculty) else {}
  {
  }

  /** Every faculty the generator reads holds a rating for every category
      (Python would raise KeyError otherwise). */
  predicate RatingsCover(careers: map<string, seq<string>>, facultyRatings: map<string, map<string, real>>,
                         categories: seq<string>)
  {
    forall f, i :: f in facultyRatings && f in careers && 0 <= i < |categories| ==>
      categories[i] in facultyRatings[f]
  }

  /** `generate_career_ratings`, reading the careers table `careers` (ds/data.py
      reads `FACULTY_CAREERS`): for each input faculty the table knows, one
      entry per listed career holding that career's ratings. The input
      dictionary is unordered here, so faculties are taken in any order. */
  method GenerateCareerRatings(careers: map<string, seq<string>>, facultyRatings: map<string, map<string, real>>,
                               categories: seq<string>, variation: (string, string) -> nat -> real)
    returns (careerRatings: map<(string, string), map<string, real>>)
    requires RatingsCover(careers, facultyRatings, categories)
    ensures careerRatings.Keys == CareerKeys(careers, facultyRatings.Keys)
    ensures forall key :: key in careerRatings ==>
              careerRatings[key] == CareerRating(facultyRatings[key.0], categories, variation(key.0, key.1))
  {
    careerRatings := map[];
    var remaining := facultyRatings.Keys;
    ghost var done: set<string> := {};
    while remaining != {}
      invariant remaining + done == facultyRatings.Keys
      invariant remaining !! done
      invariant careerRatings.Keys == CareerKeys(careers, done)
      invariant forall key :: key in careerRatings ==>
                  key.0 in facultyRatings &&
                  careerRatings[key] == CareerRating(facultyRatings[key.0], categories, variation(key.0, key.1))
      decreases remaining
    {
      var faculty :| faculty in remaining;
      remaining := remaining - {faculty};
      if faculty in careers {
        careerRatings := AddFaculty(careers, facultyRatings, faculty, categories, variation, careerRatings);
      }
      CareerKeysAdd(careers, done, faculty);
      done := done + {faculty};
    }
  }

  /** The loop over one faculty's careers. */
  method AddFaculty(careers: map<string, seq<string>>, facultyRatings: map<string, map<string, real>>,
                    faculty: string, categories: seq<string>, variation: (string, string) -> nat -> real,
                    careerRatings: map<(string, string), map<string, real>>)
    returns (careerRatings': map<(string, string), map<string, real>>)
    requires faculty in facultyRatings && faculty in careers
    requires RatingsCover(careers, facultyRatings, categories)
    requires forall key :: key in careerRatings ==> key.0 != faculty
    ensures careerRatings'.Keys == careerRatings.Keys + FacultyKeys(careers, faculty)
    ensures forall key :: key in careerRatings' && key !in careerRatings ==>
              key.0 == faculty &&
              careerRatings'[key] == CareerRating(facultyRatings[faculty], categories, variation(faculty, key.1))
    ensures forall key :: key in careerRatings ==> careerRatings'[key] == careerRatings[key]
  {
    var ratings := facultyRatings[faculty];
    var list := careers[faculty];
    careerRatings' := careerRatings;
    ghost var added: set<(string, string)> := {};
    var i := 0;
    while i < |list|
      invariant 0 <= i <= |list|
      invariant added == set j | 0 <= j < i :: (faculty, list[j])
      invariant careerRatings'.Keys == careerRatings.Keys + added
      invariant forall key :: key in careerRatings' && key !in careerRatings ==>
                  key.0 == faculty && careerRatings'[key] == CareerRating(ratings, categories, variation(faculty, key.1))
      invariant forall key :: key in careerRatings ==> careerRatings'[key] == careerRatings[key]
    {
      var careerRating := CareerRating(ratings, categories, variation(faculty, list[i]));
      careerRatings' := careerRatings'[(faculty, list[i]) := careerRating];
      assert (set j | 0 <= j < i + 1 :: (faculty, list[j])) == added + {(faculty, list[i])};
      added := added + {(faculty, list[i])};
      i := i + 1;
    }
    assert FacultyKeys(careers, faculty) == set j | 0 <= j < |list| :: (faculty, list[j]);
  }

  /** Faculties the careers table does not list contribute no entry, each
      listed career of a listed faculty exactly one, every entry holds exactly
      the categories, and every category value lies in [1, 10]. */
  lemma CareerRatingsShape(careers: map<string, seq<string>>, facultyRatings: map<string, map<string, real>>,
                           categories: seq<string>, variation: (string, string) -> nat -> real,
                           careerRatings: map<(string, string), map<string, real>>)
    requires RatingsCover(careers, facultyRatings, categories)
    requires careerRatings.Keys == CareerKeys(careers, facultyRatings.Keys)
    requires forall key :: key in careerRatings ==>
               careerRatings[key] == CareerRating(facultyRatings[key.0], categories, variation(key.0, key.1))
    ensures forall f, c :: (f, c) in careerRatings <==> f in facultyRatings && f in careers && c in careers[f]
    ensures forall key :: key in careerRatings ==>
              careerRatings[key].Keys == (set i | 0 <= i < |categories| :: categories[i]) &&
              forall c :: c in careerRatings[key] ==> 1.0 <= careerRatings[key][c] <= 10.0
  {
  }
}
