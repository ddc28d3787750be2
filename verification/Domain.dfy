/** The values shared by every layer of the pipeline (internal/domain/domain.go). */
module Domain {

  type DocId = string
  type TokenId = int
  type RowId = int
  type Time = int

  datatype Option<+T> = None | Some(value: T)

  datatype DocStatus = Pending | Extracting | Classifying | Completed | Failed

  datatype TokenStatus = TokenPending | TokenClassified

  datatype Category = Company | Person | Address | Date | Unknown

  datatype RerunMode = RerunPartial | RerunFull

  datatype Position = Position(page: int, sentence: int, charOffset: int)

  datatype Entity = Entity(text: string, context: string, position: Position)

  datatype Classification = Classification(category: Category, confidence: real, reasoning: string)

  /** The four stage stamps are None until the stage boundary is reached. */
  datatype Document = Document(
    text: string,
    status: DocStatus,
    runVersion: int,
    totalTokens: int,
    classifiedCount: int,
    extractionStarted: Option<Time>,
    extractionCompleted: Option<Time>,
    classificationStarted: Option<Time>,
    classificationCompleted: Option<Time>)

  datatype Token = Token(
    docId: DocId,
    runVersion: int,
    entity: Entity,
    status: TokenStatus,
    result: Option<Classification>)

  /** The two message kinds; the constructor determines the stream the job travels on. */
  datatype Job =
    | ExtractJob(docId: DocId, runVersion: int)
    | ClassifyJob(tokenId: TokenId, docId: DocId, runVersion: int)

  /** What a transaction body returns: a value, or one of the two errors that make a job droppable. */
  datatype Outcome<+T> = Ok(value: T) | NotFound | StaleWrite

  /** Time spent in each stage; zero when a bound is missing. */
  function Durations(d: Document): (r: (Time, Time)) {
    (if d.extractionStarted.Some? && d.extractionCompleted.Some?
     then d.extractionCompleted.value - d.extractionStarted.value else 0,
     if d.classificationStarted.Some? && d.classificationCompleted.Some?
     then d.classificationCompleted.value - d.classificationStarted.value else 0)
  }
}
