/**
 * The values the pipeline passes around: optional fields, the JSON values a
 * scoring response decodes to, articles, analyses and subscribers.
 */
module Records {

  /** A value that may be absent (Python's `None`, or a missing key). */
  datatype Option<T> = None | Some(value: T) {
    /** The value, or `default` when absent (Python's `d.get(key, default)`). */
    function GetOr(default: T): T {
      match this
      case Some(v) => v
      case None => default
    }
  }

  /** The outcome of a computation that may raise an exception. */
  datatype Result<T> = Ok(value: T) | Raised

  /**
   * A JSON value as `json.loads` hands it to Python. `Absent` stands for a key
   * the decoded object does not have; `Container` is a list or an object,
   * kept only as its number of entries (enough for truthiness), and `Number`
   * does not tell an int from a float of the same value.
   */
  datatype Value =
    | Absent
    | Null
    | Bool(b: bool)
    | Number(x: real)
    | Text(s: string)
    | Container(size: nat)

  /**
   * Python truthiness. A missing key reads as false: the pipeline looks keys
   * up with falsy defaults (`False` for "relevante", `''` for "resumo").
   */
  predicate Truthy(v: Value) {
    match v
    case Absent => false
    case Null => false
    case Bool(b) => b
    case Number(x) => x != 0.0
    case Text(s) => s != ""
    case Container(n) => n > 0
  }

  /** The three keys of a decoded scoring response that the pipeline reads. */
  datatype Scoring = Scoring(relevante: Value, resumo: Value, sentimento: Value)

  /** A news article as the news service returns it. */
  datatype Article = Article(title: Option<string>, body: Option<string>)

  /** A scoring response tagged with the article's title and the ticker. */
  datatype Analysis = Analysis(
    relevante: Value,
    resumo: Value,
    sentimento: Value,
    titulo: string,
    ticker: string)

  /**
   * One row of the subscriber sheet. `None` is an empty (NaN) cell; a missing
   * column reads as its default, "N/A" for the name and "" for the others.
   */
  datatype User = User(name: Option<string>, email: Option<string>, tickers: Option<string>)

  /**
   * What an attempt to render and send one email comes to: sent, refused by
   * the mail server (the sender returns false), or an exception.
   */
  datatype Delivery = Delivered | Refused | Crashed
}
