/** Types shared by the server routes, the donation schema and the two client pages. */
module Common {

  datatype Option<+T> = None | Some(value: T) {
    function GetOr(default: T): T {
      match this
      case Some(v) => v
      case None => default
    }
  }

  datatype Result<+T, +E> = Ok(value: T) | Err(error: E)

  /** A user's `_id`, as the string `toString()` renders it. */
  type UserId = string

  /** An opaque, totally ordered instant (`Date.now()` in milliseconds). */
  type Time = int

  /** JavaScript truthiness of an optional string: absent and "" are falsy. */
  predicate Truthy(s: Option<string>) {
    s.Some? && s.value != ""
  }

  /** JavaScript `a || b` on optional strings. */
  function OrElse(a: Option<string>, b: Option<string>): Option<string> {
    if Truthy(a) then a else b
  }

  /** A reference to a file held by the media store: `{public_id, url}`. */
  datatype MediaRef = MediaRef(publicId: Option<string>, url: Option<string>)

  /** A file picked in the browser (`e.target.files[0]`). */
  datatype BrowserFile = BrowserFile(name: string, mimeType: string, size: nat)

  /**
   * One item of a clothes donation as it travels in the JSON-encoded `items`
   * field: the form item with its photo stripped.
   */
  datatype WireItem = WireItem(category: Option<string>, quantity: Option<string>, description: Option<string>)

  /** The value of one field of a JSON object sent back to the client. */
  datatype Field = Str(s: string) | Photo(ref: MediaRef)

  /** A handler's answer: an HTTP status code with either a value or a message. */
  datatype Response<+T> = Success(code: int, value: T) | Failure(code: int, message: string)
}
