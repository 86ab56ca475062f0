/** Small value wrappers shared by every module of the model: an optional value, the
    outcome of an HTTP fetch once its body has been parsed, and the way an async call
    settles (it returns a value or it rejects). */
module Wrappers {

  /** `null` / `undefined` versus a present value. */
  datatype Option<+T> = None | Some(value: T)

  /** What a `fetch` followed by `response.json()` gives the caller: the parsed body, or
      a failure (network error, a non-OK status, a body that is not the expected JSON).
      All of these end in the same `catch` in the source, so they are one case here. */
  datatype Fetched<+T> = Parsed(body: T) | FetchFailed

  /** How an awaited call settles: it returns a value, or its promise rejects. */
  datatype Completion<+T> = Returned(value: T) | Threw
}
