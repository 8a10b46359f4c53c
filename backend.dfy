/**
 * What the REST backend hands back to the pages. The backend itself is not
 * modelled: every awaited call becomes a parameter saying how it ended.
 */
module Backend {
  import opened Wrappers

  /**
   * What a `catch` block sees: `err.message` and, for an axios error that
   * carries a response, `err.response.data.error`.
   */
  datatype JsError = JsError(message: string, responseError: Option<string>)

  /** How one awaited call ends: it resolves with a value or it throws. */
  datatype Outcome<T> = Ok(value: T) | Threw(error: JsError)

  /**
   * An announcement as `/announcements/get` lists it. Dates are the ISO-8601
   * strings the server stores; `priority` and the dates may be absent.
   */
  datatype Announcement = Announcement(
    id: string,
    title: string,
    content: string,
    publishDate: Option<string>,
    expiryDate: Option<string>,
    priority: Option<int>,
    isActive: bool)
}
