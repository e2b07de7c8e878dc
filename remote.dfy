/**
 * The replies of the three remote services (AssemblyAI, Gemini, Murf) as
 * abstract values. No request is performed; a service is a parameter that
 * maps what is sent to what comes back.
 */
module Remote {
  import opened Wrappers

  /** A field of a decoded JSON object: absent, present with `null`, or present with a value. */
  datatype Field<+T> = Missing | Null | Present(value: T) {
    /** Python's `data.get(key)`: an absent key and a JSON null both read as None. */
    function Get(): (r: Option<T>)
      ensures r.Some? <==> Present?
      ensures Present? ==> r.value == value
    {
      match this
      case Present(v) => Some(v)
      case _ => None
    }
  }

  /**
   * The outcome of one HTTP request made with `requests`: the call raised
   * (a connection error, a timeout), with the exception's message; or a
   * response whose `ok` is false, with its status code and body text; or an
   * ok response whose JSON body has been decoded to `json`.
   */
  datatype HttpReply<+B> = Exception(message: string) | NotOk(status: int, body: string) | Okay(json: B)

  /**
   * The outcome of `GenerativeModel.generate_content(prompt)` followed by
   * reading `response.text`: an exception (with its message), or a reply whose
   * `text` is None or a string.
   */
  datatype ModelReply = Raised(message: string) | Replied(text: Option<string>)
}
