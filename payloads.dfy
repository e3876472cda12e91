/** The duck-typed JSON objects that arrive from the socket and the REST
    backend, and JavaScript's truthiness on their fields. One datatype holds
    every field any screen reads; an absent (undefined or null) field is
    `None`. */
module Payloads {
  import opened Wrappers

  /** `if (s)` for a string field: present and non-empty. */
  predicate Truthy(s: Option<string>) {
    s.Some? && s.value != ""
  }

  /** `s || d` for a string field. */
  function OrElse(s: Option<string>, d: string): (r: string)
    ensures Truthy(s) ==> r == s.value
    ensures !Truthy(s) ==> r == d
  {
    if Truthy(s) then s.value else d
  }

  /** `if (x)` for a numeric field: present and non-zero. */
  predicate NumTruthy(x: Option<real>) {
    x.Some? && x.value != 0.0
  }

  predicate IntTruthy(x: Option<int>) {
    x.Some? && x.value != 0
  }

  /** `a === cur` where `cur` is the session's user id (`null` until the
      profile has loaded) and `a` a payload field (`undefined` when absent):
      only two present, equal ids match. */
  predicate SameId(a: Option<string>, cur: Option<string>) {
    a.Some? && cur.Some? && a.value == cur.value
  }

  /** A position as the backend and the socket send it: either `lat`/`lng`
      or `latitude`/`longitude` may be set. */
  datatype RawLocation = RawLocation(
    lat: Option<real>, lng: Option<real>,
    latitude: Option<real>, longitude: Option<real>)

  /** An emergency record or event payload. */
  datatype Payload = Payload(
    id: Option<string>,
    emergencyId: Option<string>,
    status: Option<string>,
    userId: Option<string>,
    residentId: Option<string>,
    createdBy: Option<string>,
    userRefId: Option<string>,                 // user?.id
    resolvedFor: Option<string>,
    responderId: Option<string>,
    location: Option<RawLocation>,
    responderLocation: Option<RawLocation>,
    responderUserLocation: Option<RawLocation>, // User_Emergency_responderIdToUser?.responderLocation
    eventType: Option<string>,
    arrivedAt: Option<string>,
    ts: Option<int>)

  /** `{}`: a payload with no fields. */
  function EmptyPayload(): Payload {
    Payload(None, None, None, None, None, None, None, None, None, None, None, None, None, None, None)
  }

  /** The outcome of one awaited request: it threw, or it resolved with a
      body that may be falsy (`None`). */
  datatype Response<T> = Failed | Ok(data: Option<T>) {
    predicate HasData() { Ok? && data.Some? }
  }
}
