/** The shape of one HTTP exchange as the app's `fetch` calls see it. */
module Http {
  import opened Wrappers

  datatype Method = Get | Post | Put | Delete

  datatype Header = Header(name: string, value: string)

  /**
   * What a `fetch` call produced: a response with its status code and its JSON body once
   * decoded (None when `response.json()` rejects), or a rejection before any response arrived.
   */
  datatype Reply<T> = Response(status: nat, body: Option<T>) | NetworkFailure

  /** `Response.ok`. */
  predicate IsOk(status: nat) {
    200 <= status <= 299
  }
}
