/** Operation failures as the outcomes of both pipelines record them. */
module Failures {

  datatype Option<+T> = None | Some(value: T)

  datatype Failure = Failure(category: string, detail: string)
}
