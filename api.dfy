/** The shape in which every screen receives a backend reply: the JSON body
    `{success, data}` of an answered request, or the exception the request
    raised (a network failure or an error status). */
module Api {
  datatype Reply<T> = Answered(success: bool, data: T) | Threw {
    /** The reply carries data the screen takes over. */
    predicate Succeeded() {
      Answered? && success
    }
  }
}
