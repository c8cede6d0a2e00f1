/** The values both dashboards keep in Streamlit's session state, and the
    comment records of their comment feeds. */
module SessionValues {
  import opened Common

  /** A comment as the feeds store it: `estudiante`, `facultad`, `clase`,
      `profesor`, `comentario`, `calificacion` (None when absent),
      `fecha` and, for comments main.py posts, `semestre`. */
  datatype Comment = Comment(
    student: string,
    faculty: string,
    course: string,
    professor: string,
    text: string,
    rating: Option<real>,
    date: string,
    semester: Option<string>)

  /** A session-state value. Data frames are identified by the CSV file they
      were read from; a dictionary of data frames by its keys. */
  datatype Value =
    | VBool(b: bool)
    | VStr(s: string)
    | VNone
    | VComments(comments: seq<Comment>)
    | VFrame(file: string)
    | VFrames(keys: seq<string>)

  /** Python's truth value of a session value. */
  predicate Truthy(v: Value)
  {
    match v
    case VBool(b) => b
    case VStr(s) => s != ""
    case VNone => false
    case VComments(cs) => cs != []
    case VFrame(_) => true
    case VFrames(keys) => keys != []
  }
}
