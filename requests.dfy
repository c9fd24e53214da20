/** The save request both editing forms send: a form opened with the id of
    an existing entity updates it, and a form opened without one (or with an
    empty one) creates a new entity. */
module Requests {
  import opened Wrappers

  datatype Request<B> = Create(body: B) | Update(id: string, body: B)

  /** A non-empty id updates that entity; an absent or empty one creates a
      new entity. Either way the request carries the given body. */
  function RequestFor<B>(id: Option<string>, body: B): (r: Request<B>)
    ensures r.body == body
    ensures r.Update? <==> id.Some? && id.value != ""
    ensures r.Update? ==> r.id == id.value
  {
    if id.Some? && id.value != "" then Update(id.value, body) else Create(body)
  }
}
