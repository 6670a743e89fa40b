/**
 * The boundary to the external collaborators of the pipeline: the PostgreSQL
 * catalog and query execution, and the Python `exec` of generated code.
 */
module Executors {

  /**
   * What an external call hands back: its value, or the text of the exception
   * it raised (`str(e)` in the caller's `except` block).
   */
  datatype ExecResult<T> = Ok(value: T) | Raised(message: string)
}
