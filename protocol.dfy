/**
 * The messages of the `/model` socket namespace between a client and the
 * server. Timing fields (`client_time`, `al_time`, `io_time_start`) are not
 * part of this model.
 */
module Protocol {
  import opened Common

  /** Precision, recall and F1 of the classifier on the test split. */
  datatype Scores = Scores(precision: real, recall: real, f1: real)

  /** What a client emits. */
  datatype ClientMessage =
    | Register(projectName: string, modelName: string, count: int)
    | Utterance(utterance: string, poolLabel: Option<int>, count: int)
    | ScoresReport(scores: Scores, count: int)

  /** What the server emits to a client. */
  datatype ServerMessage =
    | NextUtterance
    | Annotation(utterance: string, annotation: int)
    | Finished(cause: string)
}
