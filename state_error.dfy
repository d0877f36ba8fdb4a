/**
 * The reason why a cached slot holds no value: still loading, a database
 * failure, or a failure reported by one of the foreign libraries (URL parser,
 * HTTP client, standard I/O, XML deserialiser).
 */
module StateErrors {
  import opened Wrappers

  /** A foreign library error, reduced to the kind of library and its message. */
  datatype ForeignError =
    | ParseError(message: string)
    | SurfError(message: string)
    | StdIoError(message: string)
    | SerdeXmlError(message: string)

  datatype StateError =
    | Loading
    | DbError
    | UrlParseError(parseError: string)
    | NetError(surfError: string)
    | IoError(ioError: string)
    | XmlError(xmlError: string)

  /** `impl Default`: a slot that has not been fetched yet is loading. */
  function Default(): (e: StateError)
    ensures e.Loading? && Source(e).None?
  {
    Loading
  }

  /** `impl PartialEq`: two errors are equal when they are the same variant. */
  predicate SameError(a: StateError, b: StateError) {
    match (a, b)
    case (Loading, Loading) => true
    case (DbError, DbError) => true
    case (UrlParseError(_), UrlParseError(_)) => true
    case (NetError(_), NetError(_)) => true
    case (IoError(_), IoError(_)) => true
    case (XmlError(_), XmlError(_)) => true
    case _ => false
  }

  /** `impl From<…> for StateError`: each foreign error becomes its own variant. */
  function From(f: ForeignError): (e: StateError)
    ensures Source(e) == Some(f)
    ensures !e.Loading? && !e.DbError?
  {
    match f
    case ParseError(m) => UrlParseError(m)
    case SurfError(m) => NetError(m)
    case StdIoError(m) => IoError(m)
    case SerdeXmlError(m) => XmlError(m)
  }

  /** `Error::source`: the wrapped foreign error, none for Loading and DbError. */
  function Source(e: StateError): Option<ForeignError> {
    match e
    case Loading => None
    case DbError => None
    case UrlParseError(m) => Some(ParseError(m))
    case NetError(m) => Some(SurfError(m))
    case IoError(m) => Some(StdIoError(m))
    case XmlError(m) => Some(SerdeXmlError(m))
  }

  /** `impl Display`: the human-readable message shown in place of a value. */
  function Display(e: StateError): string {
    match e
    case Loading => "Loading..."
    case DbError => "Database error..."
    case UrlParseError(m) => "Could not parse URL: " + m
    case NetError(m) => "Network error: " + m
    case IoError(m) => "IO Error: " + m
    case XmlError(m) => "Xml Error: " + m
  }

  /** Only Loading and DbError carry no foreign source. */
  lemma SourceMissingExactlyForOwnErrors(e: StateError)
    ensures Source(e).None? <==> (e.Loading? || e.DbError?)
    ensures Source(e).Some? ==> From(Source(e).value) == e
  {
  }

  /** Equality ignores payloads: errors converted from two foreign errors of the
      same library are equal whatever their messages. */
  lemma SameErrorIgnoresPayload(f: ForeignError, g: ForeignError)
    ensures SameError(From(f), From(g)) <==> f.ParseError? == g.ParseError? && f.SurfError? == g.SurfError? && f.StdIoError? == g.StdIoError?
  {
  }

  /** The error equality is an equivalence relation. */
  lemma SameErrorIsEquivalence(a: StateError, b: StateError, c: StateError)
    ensures SameError(a, a)
    ensures SameError(a, b) ==> SameError(b, a)
    ensures SameError(a, b) && SameError(b, c) ==> SameError(a, c)
  {
  }

  /** A converted error is displayed as a fixed prefix followed by its
      foreign error's own message; Loading and DbError have fixed messages. */
  lemma DisplayEndsWithSourceMessage(e: StateError)
    ensures Source(e).Some? ==>
      var m := Source(e).value.message;
      var d := Display(e);
      |d| > |m| && d[|d| - |m|..] == m
    ensures e.Loading? ==> Display(e) == "Loading..."
    ensures e.DbError? ==> Display(e) == "Database error..."
  {
  }
}
