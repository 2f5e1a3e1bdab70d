/** The document/query value type shared by every ranking strategy, and the
    error outcomes the strategies can raise. */
module Records {

  datatype Option<+T> = None | Some(value: T)

  /** A record identifier is an integer or a string. */
  datatype RecordId = IntId(n: int) | StrId(s: string)

  /** A point in time, in whole seconds; only the time-decay formula reads it. */
  type Timestamp = int

  /** One record serves both as a query and as a candidate document. Every
      field but `text` has a default. `titleBm25`, `contentBm25`, `titleSim`
      and `vectorSim` are read by the boost strategies but are not declared
      by the record type itself; here they are explicit fields with the
      neutral default 1.0. `boost` keeps the declared default 0, which zeroes
      every boost score unless the caller sets it. */
  datatype Record = Record(
    id: RecordId := IntId(0),
    text: string,
    title: Option<string> := None,
    summary: Option<string> := None,
    vector: Option<seq<real>> := None,
    score: real := 1.0,
    updatedAt: Option<Timestamp> := None,
    author: Option<string> := None,
    tags: Option<seq<string>> := None,
    hidden: bool := false,
    boost: real := 0.0,
    titleBm25: real := 1.0,
    contentBm25: real := 1.0,
    titleSim: real := 1.0,
    vectorSim: real := 1.0
  )

  /** Why a ranking call can fail; a failure aborts the call without output. */
  datatype Error =
    | MissingVector        // the first document has no embedding vector (or there are no documents)
    | MissingTimestamp     // the first document has no update time (or there are no documents)
    | UndefinedOperand     // a later document, or the query, lacks the signal a formula reads
    | KeyNotAnIndex        // a sort key indexes a list with a Record, not an integer
    | SliceOfNone          // a slice is taken of None
    | ScoreIndexOutOfRange // a score list shorter than the document list
    | ServiceFailure       // a remote scoring backend failed
    | NoSteps              // a pipeline was built without stages

  datatype Result<+T> = Success(value: T) | Failure(error: Error)

  /** The record the plain-text interface builds for a string: the given id,
      the text, and every other field at its default. */
  function TextRecord(i: int, s: string): (r: Record)
    ensures r.text == s && r.id == IntId(i)
    ensures r.vector.None? && r.updatedAt.None? && r.title.None? && r.summary.None?
    ensures r.author.None? && r.tags.None? && !r.hidden
    ensures r.score == 1.0 && r.boost == 0.0
  {
    Record(id := IntId(i), text := s)
  }

  /** The defaults of a record built from its text alone. */
  lemma RecordDefaults(s: string)
    ensures var r := Record(text := s);
      && r.id == IntId(0) && r.text == s
      && r.title.None? && r.summary.None? && r.vector.None? && r.updatedAt.None?
      && r.author.None? && r.tags.None? && !r.hidden
      && r.score == 1.0 && r.boost == 0.0
      && r.titleBm25 == 1.0 && r.contentBm25 == 1.0 && r.titleSim == 1.0 && r.vectorSim == 1.0
  {
  }
}
