/**
 * The token file `tokens.json` as the login flow sees it: what reading it yields, and the
 * default document used when it is missing or unusable.
 */
module TokenStore {
  import opened Wrappers

  /** A JSON member value, as far as the login flow distinguishes values. */
  datatype Value = Str(s: string) | Num(n: int) | OtherValue

  /**
   * A parsed token document. `tokens` is the `"tokens"` member when it is a JSON object
   * (None when it is absent or not an object); `rest` holds every other top-level member,
   * such as `"version"`, which the flow carries along untouched.
   */
  datatype Config = Config(tokens: Option<map<string, Value>>, rest: map<string, Value>)

  /** The outcome of looking for and reading the token file. */
  datatype TokenFile =
    | Missing             // the file does not exist
    | ReadFailure         // reading it raised an IOException
    | ParseFailure        // its text is not a JSON object (this includes an empty file)
    | Parsed(doc: Config) // it held this JSON object

  /** The document created when no usable file exists: `{tokens: {}, version: 1}`. */
  function DefaultConfig(): (c: Config)
    ensures c.tokens == Some(map[])
    ensures c.rest.Keys == {"version"} && c.rest["version"] == Num(1)
  {
    Config(Some(map[]), map["version" := Num(1)])
  }

  /** The document the login flow starts from: the file's, or the default one. */
  function ReadConfig(file: TokenFile): (c: Config)
    ensures file.Parsed? ==> c == file.doc
    ensures !file.Parsed? ==> c.tokens == Some(map[]) && c.rest == map["version" := Num(1)]
    ensures c.tokens.None? <==> file.Parsed? && file.doc.tokens.None?
  {
    match file
    case Parsed(doc) => doc
    case _ => DefaultConfig()
  }
}
