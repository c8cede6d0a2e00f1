# dashboard-uh: a Dafny model of the dashboards' discrete logic

The repository holds two Streamlit dashboards for rating faculties, careers
and courses at a university, and the scripts that generate their synthetic
CSV data. This project models the logic around the user interface that can
be stated exactly, and proves properties of it:

- **Colour bucketing** (`nplots.py`, module `ColorScale`). `search_color`
  scans the ascending `color_dict` thresholds. It returns the colour of the
  greatest threshold at or below the rating, and nothing from 10.0 upwards.
  The loop is a method proved equal to a band function, and the band
  function's uniqueness and monotonicity are proved.
- **Synthetic data** (`data.py`, module `DataGen`; `ds/data.py`, module
  `CareerRatings`). This covers:
  - the semester table and its GENERAL row of rounded column means;
  - the student table: students split across careers by quotient and
    remainder, IDs `FAC-CAR-0001`, ratings rounded and clamped;
  - the classes table: 5–7 courses, distinct choices without replacement,
    grade buckets 2–5;
  - the subject ratings;
  - the per-career ratings of the second dashboard.

  Every `np.random` draw is a parameter, indexed by the loop position at
  which the generator makes it. Each generator is a method with loops,
  proved equal to a specification function. The table shapes, counts and
  ranges are then proved about that function.
- **Session state** (`main.py`, module `Dashboard`; `ds/main.py`, module
  `DsDashboard`). Streamlit's `st.session_state` is a class holding a map
  from keys to values, with one method per transition:
  - initialisation that only fills missing keys;
  - login, guest entry and logout;
  - posting a comment: appended in `main.py`, inserted at the front in
    `ds/main.py`;
  - one run of the script.

  Pure functions cover:
  - credential lookup;
  - page options and the administrator gate;
  - the order-preserving comment filters and the star rendering;
  - the lookup-with-default tables and the degree label of the second
    dashboard.

Shared pieces live in `Common` (options, filters, flattening, sums),
`Numeric` (Python's `round` with ties to even, clamps) and `Text` (slicing,
upper-casing, `:04d` zero padding and its parser, substring search).
`SessionValues` holds the comment record and the session value type that
both dashboards use.

`plots.py` colours its charts through an interpolating
`LinearSegmentedColormap` (`gb_cmap`, plots.py:8). `nplots.py`'s
`search_color`, which this project models, is a step function.
`main.py` checks for the semester frame under the key `"ratings"` but
stores it under `"rating"`, so every run reloads it. The model keeps that
behaviour (`Dashboard.AfterInit`, `Dashboard.RatingReloaded`).

## Model

| member | source | states |
|---|---|---|
| ColorScale.ColorDictAscending | nplots.py:5-12 | the threshold table has six strictly ascending keys, which the early-return scan relies on |
| ColorScale.Band | nplots.py:13-19 | the band chosen is the greatest key at or below the rating (the first band for ratings below every key) |
| ColorScale.BandUnique | nplots.py:13-19 | at most one position satisfies the band condition, so the lookup is determined by it |
| ColorScale.BandMonotone | nplots.py:13-19 | a larger rating never lands in an earlier band, for any ascending table |
| ColorScale.SearchColor | nplots.py:13-19 | the scan with its early return yields exactly the colour of the rating's band, and None when it runs off the end |
| ColorScale.BelowFirstKey | nplots.py:13-19 | a negative rating gets the first colour, the loop's initial `previous_value` |
| ColorScale.BandColours | nplots.py:5-19 | each interval [k, k+2) below 10 gets the colour stored under k |
| ColorScale.NoColourFromTen | nplots.py:13-19 | no colour is returned exactly when the rating is 10.0 or more |
| ColorScale.PalettePositionMonotone | nplots.py:13-19 | the palette position of `color_dict` never moves back as the rating grows |
| Numeric.ClampInt | data.py:149 | `min(max(x, lo), hi)` lies in [lo, hi], is x inside it and the nearer bound outside |
| Numeric.ClampReal | data.py:104 | the same for reals, clamping the lower bound first |
| Numeric.ClampRealUpperFirst | ds/data.py:66 | `max(lo, min(hi, x))` lies in [lo, hi] and is x inside it |
| Numeric.ClampOrdersAgree | ds/data.py:66 | both clamping orders agree whenever lo <= hi |
| Numeric.RoundHalfEven | data.py:148 | Python's `round` yields the integer within one half, and the even one on a tie |
| Numeric.RoundHalfEvenUnique | data.py:148 | those two conditions determine the rounded value |
| Numeric.RoundHalfEvenMonotone | data.py:148 | rounding preserves order |
| Numeric.RoundHalfEvenOfInt | data.py:148 | rounding an integer gives it back |
| Numeric.Round1 | data.py:273 | `round(x, 1)` is a multiple of 0.1 within 0.05 of x |
| Numeric.Round1Between | data.py:273 | rounding to one decimal stays between two bounds that are tenths |
| Numeric.Round1WithinOneToTen | data.py:113 | a mean of ratings in [1, 10] stays in [1, 10] after rounding |
| Text.Prefix | data.py:139 | `career[:3]` is the first min(3, length) characters |
| Text.Upper | data.py:139 | upper-casing keeps the length, maps each ASCII lower-case letter to its capital and keeps every other character |
| Text.Decimal | data.py:139 | the decimal form is a non-empty digit string |
| Text.Zeros | data.py:139 | the padding is the requested number of '0' |
| Text.ZeroPad | data.py:139 | `:04d` gives a digit string of length max(4, digits) |
| Text.ParseDecimal | data.py:139 | parsing the decimal form gives the number back |
| Text.ParseLeadingZeros | data.py:139 | leading zeros do not change the parsed value |
| Text.ParseZeros | data.py:139 | a string of zeros parses to 0 |
| Text.ParseZeroPad | data.py:139 | the zero-padded counter parses back to the counter |
| Text.ZeroPadInjective | data.py:139 | distinct counters give distinct padded strings |
| Text.DecimalLength | data.py:139 | a number below 10^k has at most k digits, so counters below 10000 fill exactly four places |
| Text.RepeatChar | main.py:522-531 | `"⭐" * n` has max(n, 0) copies of the character |
| Text.ContainsIff | ds/main.py:987-991 | Python's `in` on strings holds exactly when the pattern occurs at some position |
| Text.ContainsPrefix | ds/main.py:987-991 | a string contains each of its prefixes |
| DataGen.Acronyms | data.py:33-53 | the faculty column lists the keys of `FACULTIES_INFO` in insertion order |
| DataGen.CareersOf | data.py:126 | a listed faculty gets its own career list, a faculty missing from `CAREERS_BY_FACULTY` gets `["Carrera Principal"]`, and every lookup is non-empty |
| DataGen.CareersListed | data.py:56-88 | every career list in the table is non-empty, so the split never divides by zero |
| DataGen.SemesterRating | data.py:101-104 | each semester rating lies in [1, 10] |
| DataGen.SemesterClampInactive | data.py:101-104 | with draws in their documented ranges the clamp never acts and ratings lie in [4.5, 8.0] |
| DataGen.FacultySemesterRow | data.py:95-106 | a faculty row carries its acronym and one rating per semester category |
| DataGen.NewSemesterRow | data.py:96-104 | the loop over the categories builds exactly that row |
| DataGen.GenerateSemesterRatings | data.py:91-117 | the loop yields one row per faculty in order, then a GENERAL row whose every entry is the rounded mean of its column |
| DataGen.GeneralMeanInRange | data.py:110-115 | the GENERAL means of ratings in [1, 10] lie in [1, 10] |
| DataGen.SemesterFacultyColumn | data.py:91-117 | the table's faculty column is the acronyms followed by "GENERAL" |
| DataGen.CareerSharesSum | data.py:128-133 | the per-career counts add up to the faculty's student total |
| DataGen.CareerSharesBalanced | data.py:128-133 | the first `remainder` careers get one extra student, and any two counts differ by at most one |
| DataGen.BrigadeFormat | data.py:140 | a brigade is the faculty's first two letters followed by one digit from 1 to 9, the drawn one |
| DataGen.StudentRating | data.py:147-149 | each student rating is an integer in [1, 10] |
| DataGen.StudentClampInactive | data.py:147-149 | with draws in [4, 9] the clamp never acts: ratings are the rounded draw, in [4, 9] |
| DataGen.Student | data.py:136-149 | a student row carries the current semester and one rating in [1, 10] per category |
| DataGen.GenerateStudentRatings | data.py:120-153 | the nested loops yield exactly the student table: faculties in order, careers in order, students 1..count |
| DataGen.FacultyStudentCount | data.py:128-135 | each faculty contributes exactly its `students` rows |
| DataGen.StudentTableSize | data.py:120-153 | the table has the sum of the faculties' student totals as rows |
| DataGen.FacultyRowOrigin | data.py:132-151 | every row of a faculty block is the k-th student of one of its careers |
| DataGen.CareerRowOrigin | data.py:135-151 | every row of a career block is its k-th student for some k in 1..count |
| DataGen.StudentRowOrigin | data.py:120-153 | every row of the table comes from some faculty, career and counter |
| DataGen.StudentInTable | data.py:120-153 | every faculty, career and counter in range produces a row of the table |
| DataGen.StudentRowRatings | data.py:141-149 | every row of the table has the current semester and ratings in [1, 10] |
| DataGen.StudentIdFormat | data.py:137-139 | the ID is faculty, upper-cased first three letters of the career and the four-digit counter, which parses back |
| DataGen.StudentIdInjective | data.py:139 | within one faculty and career, the ID determines the counter |
| DataGen.StudentIdsCollide | data.py:139 | two Biology careers share the prefix "LIC", so two different students both get "FBIOM-LIC-0001" |
| DataGen.BiologyCareers | data.py:56-88 | FBIOM is the fourth faculty and its first two careers get at least one student |
| DataGen.LicIds | data.py:139 | the first student of each of those careers gets ID "FBIOM-LIC-0001" |
| DataGen.Professor | data.py:248 | every professor name starts with "Prof. " |
| DataGen.Sample | data.py:212-224 | choosing m without replacement gives m elements of the pool, distinct if the pool is |
| DataGen.CourseListsShape | data.py:161-197 | the common courses are distinct, each faculty list has at least three distinct courses, and none is a common course |
| DataGen.CourseCount | data.py:205-225 | a student of a listed faculty takes `num_courses` courses, three of them specific; any other takes five |
| DataGen.CoursesDistinct | data.py:208-225 | a student's courses are distinct and drawn from the common list or the faculty's own list |
| DataGen.Grade | data.py:230-238 | the grade is an integer from 2 to 5 |
| DataGen.GradeCountsCutoffs | data.py:230-238 | the grade is 2 plus the number of cutoffs 0.1, 0.4, 0.8 the draw reaches |
| DataGen.GradeMonotone | data.py:230-238 | a larger draw never gives a lower grade |
| DataGen.SelectCourses | data.py:208-225 | the selection code computes the course list of the specification |
| DataGen.AppendCourseRecords | data.py:228-251 | the loop appends one record per selected course, in order |
| DataGen.GenerateClassesData | data.py:156-253 | the table is built from a freshly generated student table, with one block of records per student in order |
| DataGen.ClassesTableSize | data.py:205-251 | the classes table has between 5 and 7 records per student |
| DataGen.ClassRecordShape | data.py:240-249 | each record carries the student's faculty, career and ID, the course, the current semester, a grade 2-5, credits 2, 3 or 4 and a "Prof. " name |
| DataGen.CourseRecordShape | data.py:240-249 | the same for the records of any course list |
| DataGen.GenerateSubjectRatings | data.py:256-283 | row i·5+c holds course i and category c, for every course and category |
| DataGen.SubjectRatingRange | data.py:273 | subject ratings drawn from [6, 9] stay in [6, 9] after rounding |
| CareerRatings.FacultyTablesAgree | ds/data.py:7-52 | `FACULTY_NAMES` and `FACULTY_CAREERS` describe the same faculties |
| CareerRatings.CategoryRating | ds/data.py:66 | each career category rating lies in [1, 10] |
| CareerRatings.CareerRating | ds/data.py:65-68 | a career's ratings have exactly the category keys, each in [1, 10] |
| CareerRatings.CareerRatingPositional | ds/data.py:65-68 | `zip` pairs category i with variation i |
| CareerRatings.CareerKeys | ds/data.py:58-62 | every key belongs to an input faculty the careers table lists |
| CareerRatings.CareerKeysAdd | ds/data.py:58-69 | handling one more faculty adds exactly its careers' keys |
| CareerRatings.GenerateCareerRatings | ds/data.py:55-70 | one entry per listed career of each known input faculty, holding that career's varied ratings; unknown faculties are skipped |
| CareerRatings.AddFaculty | ds/data.py:61-69 | the inner loop adds one entry per career of the faculty and leaves the other entries alone |
| CareerRatings.CareerRatingsShape | ds/data.py:55-70 | (f, c) is a key exactly when f is an input faculty listed with career c, and each entry's values lie in [1, 10] |
| DsDashboard.GetFaculties | ds/main.py:58-79 | the faculty list is the Facultad column without "GENERAL", in order, or the default list when reading Semester_Rating.csv fails |
| DsDashboard.SemesterTableFaculties | ds/main.py:58-79 | on a semester table ending in GENERAL the list is exactly the faculties before it |
| DsDashboard.GeneratedFaculties | ds/main.py:58-79 | on the generated semester table the list is the acronyms of `FACULTIES_INFO` |
| DsDashboard.CareersLookup | ds/main.py:82-125 | the career list is never empty, and the default list is returned exactly for unknown faculties |
| DsDashboard.FacultyTablesAgree | ds/main.py:857-917 | the founding-year, dean and student-count tables cover the same faculties, all with careers |
| DsDashboard.FacultyDefaults | ds/main.py:857-917 | each lookup returns its default ("1960", "Por definir", "300") exactly for faculties it does not list |
| DsDashboard.DegreeLabel | ds/main.py:987-991 | "Licenciado/a" when the name contains "Licenciatura", else "Ingeniero/a" when it contains "Ingeniería", else "Profesional" |
| DsDashboard.DegreeByOccurrence | ds/main.py:987-991 | the label is "Licenciado/a" exactly when "Licenciatura" occurs somewhere in the name |
| DsDashboard.CareerDurationRange | ds/main.py:930-986 | durations lie in 4..6 years, 5 for careers not in the table |
| DsDashboard.DefaultDescriptionNames | ds/main.py:982 | the default description names the career and the faculty |
| DsDashboard.CareerInfoDefaults | ds/main.py:930-994 | the career record has a duration in 4..6 (5 by default) and a description naming career and faculty when none is listed |
| DsDashboard.ListedCareersHaveDurations | ds/main.py:930-986 | every career listed under a faculty has a duration entry except "Ingeniería en Ciencias Aplicadas" |
| DsDashboard.ChangeColour | ds/main.py:244-249 | a metric card shows no colour for a missing or zero change, green for a rise and red for a fall |
| DsDashboard.Authenticate | ds/main.py:161-167 | a user is returned exactly when the name is known and the password matches, and it is that user |
| DsDashboard.AdministratorCredentials | ds/main.py:136-167 | only admin/admin123 signs in as an administrator; the sample students can sign in |
| DsDashboard.DefaultKeysListed | ds/main.py:170-185 | the keys the initialiser walks are exactly the keys it has defaults for |
| DsDashboard.ShownCommentsSpec | ds/main.py:1273-1276 | the feed shows a subsequence of the comments: all of them for "Todas", otherwise exactly those of the chosen faculty |
| DsDashboard.PageLookup | ds/main.py:1333-1411 | a page renders exactly when its name is a key of the page table; the first page is the default |
| DsDashboard.Session.constructor | ds/main.py:170-185 | a new session starts with an empty state |
| DsDashboard.Session.FillMissing | ds/main.py:170-185 | filling defaults over a key list keeps every existing value and adds the missing defaults |
| DsDashboard.Session.InitSessionState | ds/main.py:170-185 | initialisation keeps existing values, adds every missing default and leaves the state initialised |
| DsDashboard.Session.Login | ds/main.py:321-334 | login succeeds exactly on valid credentials, records that user's name, role, faculty and career, and otherwise changes nothing |
| DsDashboard.Session.EnterAsGuest | ds/main.py:335-343 | guest entry signs in as "Invitado" with role "invitado" |
| DsDashboard.Session.Logout | ds/main.py:1384-1389 | logging out deletes every key |
| DsDashboard.Session.PostComment | ds/main.py:1293-1319 | a comment is posted exactly when the role is neither guest nor administrator and the text is non-empty; it goes to the front of the feed |
| DsDashboard.Session.Run | ds/main.py:1391-1411 | a run initialises, loads the data if missing, shows the login view when signed out and otherwise the selected page, recording it as current |
| Dashboard.AuthenticateUser | main.py:34-41 | a user is returned exactly when the name is known and the password matches, and it is that user |
| Dashboard.AdministratorCredentials | main.py:120-146 | only admin/admin123 signs in as an administrator; a wrong password never signs in |
| Dashboard.FillStep | main.py:44-65 | filling one default commutes with keeping the existing values on top |
| Dashboard.FillReloadStep | main.py:52-54 | filling another default commutes with the semester-frame reload |
| Dashboard.HeadStepsUnion | main.py:46-51 | the first three defaulting steps give defaults overlaid by the existing state |
| Dashboard.TailStepsUnion | main.py:55-65 | the last five defaulting steps commute with the reload and the existing state |
| Dashboard.DefaultsByFill | main.py:44-65 | the defaulting steps on an empty state give exactly the default table |
| Dashboard.InitStepsAfterInit | main.py:44-65 | the initialiser's sequence of steps computes defaults overlaid by the state, with the semester frame reloaded unless "ratings" exists |
| Dashboard.RatingReloaded | main.py:52-54 | because the guard reads "ratings" and the write goes to "rating", every run resets "rating" to the semester frame; other keys keep their values |
| Dashboard.AfterInitIdempotent | main.py:44-65 | initialising twice is the same as once |
| Dashboard.AfterInitInitialized | main.py:44-65 | initialisation leaves every key in place and does not change whether the user is signed in |
| Dashboard.RouteSpec | main.py:218-257 | the admin page is offered exactly to administrators, routes there only for them, and a page renders exactly when it is one of the offered options |
| Dashboard.AdminGateAgrees | main.py:717-728 | whenever routing reaches the admin panel, the panel's own role check shows its tabs |
| Dashboard.IndexOf | main.py:473 | `list.index` finds the first occurrence, and fails exactly when the item is missing |
| Dashboard.FacultyOptions | main.py:472-473 | building the faculty options fails exactly when the index has no "GENERAL" entry |
| Dashboard.SemesterFacultyOptions | main.py:472-491 | on a semester index the options are "Todas" followed by the faculties in reverse |
| Dashboard.ClassOptions | main.py:474-496 | the class options are "Todas" followed by the labelled courses in reverse |
| Dashboard.StageIsFilter | main.py:505-516 | each filter stage keeps the comments that pass it, in order, or all of them when inactive |
| Dashboard.ShownCommentsStages | main.py:503-516 | the shown list is the three filter stages in order |
| Dashboard.StagesMatch | main.py:503-516 | passing the three stages is the same as matching all active filters |
| Dashboard.ShownCommentsConjunction | main.py:503-516 | the three stages equal one filter by the conjunction of the active conditions |
| Dashboard.ShownCommentsSpec | main.py:503-516 | the shown comments are a subsequence of the feed holding exactly the comments that match every active filter |
| Dashboard.StarsShape | main.py:522-531 | for ratings 0-10 the star string has five characters, full stars first then empty ones |
| Dashboard.StarsMonotone | main.py:522-531 | a higher rating never shows fewer full stars |
| Dashboard.StarLineCases | main.py:522-536 | a comment without a rating reads "Sin calificacion"; one with a rating shows its stars followed by " (rating/10)" |
| Dashboard.StarsRoundHalfEven | main.py:523 | the half-way ratings round to even: 9 and 7 show four stars, 5 and 3 two, 1 none |
| Dashboard.Session.constructor | main.py:44-65 | a new session starts with an empty state |
| Dashboard.Session.InitSessionState | main.py:44-65 | the initialiser's eight steps give defaults overlaid by the state, with the typo's reload, and leave the state initialised |
| Dashboard.Session.SetDefault | main.py:44-65 | one `if key not in st.session_state` step adds the default only when the key is missing |
| Dashboard.Session.Login | main.py:166-180 | login succeeds exactly on valid credentials, records that user's name, role, faculty and semester, and otherwise changes nothing |
| Dashboard.Session.EnterAsGuest | main.py:182-191 | guest entry signs in as "Invitado", role "invitado", faculty "General", semester "2023-2" |
| Dashboard.Session.Logout | main.py:234-237 | logging out clears the flag, user and role and leaves every other key as it was |
| Dashboard.Session.PostComment | main.py:564-593 | a comment is posted exactly when the role is neither guest nor administrator and the text is non-empty; it is appended to the feed |
| Dashboard.Session.Render | main.py:786-795 | a run initialises, shows the login section when signed out, and otherwise routes the page; the admin panel appears only for a signed-in administrator |

## Left out

- Streamlit rendering, the plots, CSS and HTML (including the metric card's markup and the comment cards) are not modelled. Only the values they display and the decisions they take are modelled.
- Reading and writing CSV files (`create_dataframes`, `generate_all_data`, `load_data`) is not modelled. A loaded data frame is the value `VFrame(file)` naming its file, and the dictionary of frames is its key list.
- Every `np.random` draw, and the date of a posted comment, is a parameter. The sample comments are a parameter of initialisation, and the literal lists exist as `SampleComments`.
- `set(st.session_state.classes["Asignatura"])` has no defined order in Python. `Dashboard.ClassOptions` takes the course list as a parameter.
- Floating point is modelled as exact reals. `round(x, 1)` is rounding of the exact value to tenths, with ties to even, so binary representation effects on ties are not captured.
- Dictionary iteration order matters in `search_color` and in the generators. It is modelled by insertion-ordered sequences. `CareerRatings.GenerateCareerRatings` takes the faculties of its input dictionary in any order, which does not change the result.
- The descriptive texts of `get_career_info` (descriptions, coordinators) are tables passed through unchanged. Only their defaults are reasoned about, and `DsDashboard.GetCareerInfo` has no contract of its own beyond the lemma about it.
- `ds/main.py`'s statistics, subjects and graduate-profile helpers, the evaluation forms and the statistics pages of `main.py` are not modelled. They only shape data for display.
- `Text.Upper` maps ASCII letters only. Python's `str.upper()` also maps other Unicode letters and can change the length ("ß" becomes "SS"). The careers of data.py all begin with three ASCII letters, so the student IDs are unaffected, but that is not proved.
- `CareerRatings.GenerateCareerRatings` (with `AddFaculty` and `CareerRatingsShape`) requires every faculty it reads to hold a rating for every category. The source raises `KeyError` at `ratings[cat]` otherwise, and that error path is not modelled.
- `Dashboard.Session.Logout`: the model does not capture that Streamlit re-runs the script afterwards, which `Session.Render` models as a separate call.
- `DsDashboard.Session.PostComment` requires the chosen class to be one of the four the form offers, because the select box cannot return anything else.
- `DataGen.StudentTableSize` states the total as the sum of the faculties' student counts rather than the number 5050, because evaluating the sum over the nineteen-entry table is not done in the proof.
