/** Values the two screens exchange with the outside world: alerts shown to the
    user, the HTTP request a handler would send, and what the awaited response
    turned out to be. `fetch`, `Alert.alert` and the router are not modelled as
    calls; they are these values. */
module Ui {

  datatype Option<+T> = None | Some(value: T)

  /** One `Alert.alert(title, message)` call. */
  datatype Alert = Alert(title: string, message: string)

  /** A `fetch(url, { method: "POST", headers })` call. */
  datatype Request = Post(url: string, headers: map<string, string>)

  /** What an awaited `fetch` followed by `await response.json()` delivered:
      `Threw` when `fetch` itself rejected, otherwise the response's `ok` flag
      and `status`, and the decoded body (`None` when `response.json()` rejected). */
  datatype HttpResult<+T> = Threw | Completed(ok: bool, status: int, body: Option<T>)
  {
    /** The response was ok and its body decoded; anything else makes both
        handlers take their `catch` branch. */
    predicate Delivered() {
      Completed? && ok && body.Some?
    }
  }
}
