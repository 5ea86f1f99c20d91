/** Failure-carrying results shared by the whole model. Python exceptions that the
    indexing core raises or propagates become `Failure` values. */
module Outcomes {

  datatype Option<+T> = None | Some(value: T)

  /** The exceptions that the indexing core can raise, by Python class. */
  datatype PyError =
    | ValueError(message: string)     // explicit `raise ValueError`, or numpy on ragged embeddings
    | RuntimeError(message: string)   // `search` before any index exists
    | IndexError                      // a list or shape index out of range
    | EmbeddingError                  // the embedding service failed (propagated unchanged)

  /** The message of the `ValueError` raised when a rebuild finds no chunks at all. */
  const NoChunksMessage: string := "No text chunks found in PDFs."

  datatype Result<+T> = Success(value: T) | Failure(error: PyError)

  /** A call that returns `None` in Python but may raise. */
  datatype Outcome = Pass | Fail(error: PyError)
}
