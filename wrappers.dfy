/** Small value types shared by every page of the client. */
module Wrappers {

  /** A value that may be missing: `null`/`undefined` in the client. */
  datatype Option<+T> = None | Some(value: T)

  /** How one HTTP request made through axios ends: with the response's `data`,
      or with an error whose `error.response?.data?.message` is `message`
      (None when the server sent no message or there was no response at all). */
  datatype Outcome<+T> = Ok(data: T) | Failed(message: Option<string>)
}
