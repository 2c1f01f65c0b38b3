/**
 The call feed's response handling: the HTTP outcome and parsed body as inputs, the
 normalisation of the body to the value the call list is set to, and the failure paths
 that empty the list.
 */
module Feed {
  import opened Wrappers
  import opened Json

  /** What `fetch` yields: a thrown network error, or an HTTP response with its `ok`
      flag and its body parsed as JSON (`None` when the body is not JSON, so that
      `response.json()` throws). */
  datatype Response = NetworkError | Http(ok: bool, body: Option<Value>)

  const Empty: Value := Arr([])

  /** `Array.isArray(data) ? data : data.calls || []`. A bare array is kept, an object
      whose `calls` property is truthy yields that property, and every other body
      (including `null`, whose property access throws and is caught) yields `[]`. The
      result is always truthy and is taken from the body or is the empty list. */
  function Normalise(body: Value): (r: Value)
    ensures Truthy(r)
    ensures body.Arr? ==> r == body
    ensures !body.Arr? && body.Obj? && "calls" in body.fields && Truthy(body.fields["calls"]) ==>
              r == body.fields["calls"]
    ensures !body.Arr? && !(body.Obj? && "calls" in body.fields && Truthy(body.fields["calls"])) ==>
              r == Empty
  {
    match body
    case Arr(_) => body
    case Obj(fields) =>
      if "calls" in fields && Truthy(fields["calls"]) then fields["calls"] else Empty
    case _ => Empty
  }

  /** The value the call list holds after one fetch: a thrown error, a non-ok status
      and a body that is not JSON all give the empty list; otherwise the normalised body. */
  function FeedOutcome(response: Response): (r: Value)
    ensures Truthy(r)
    ensures response.NetworkError? || (response.Http? && !response.ok) ==> r == Empty
    ensures response.Http? && response.body.None? ==> r == Empty
    ensures response.Http? && response.ok && response.body.Some? ==> r == Normalise(response.body.value)
  {
    match response
    case NetworkError => Empty
    case Http(ok, body) =>
      if !ok then Empty
      else match body
        case None => Empty
        case Some(data) => Normalise(data)
  }

  /** A list sent bare and the same list sent in an envelope's `calls` property (beside
      any other properties) give the same call list, which is that list. */
  lemma BareAndEnvelopeAgree(items: seq<Value>, fields: map<string, Value>)
    requires "calls" in fields && fields["calls"] == Arr(items)
    ensures FeedOutcome(Http(true, Some(Arr(items)))) == Arr(items)
    ensures FeedOutcome(Http(true, Some(Obj(fields)))) == Arr(items)
  {
  }

  /** An envelope whose `calls` is a truthy value that is not a list makes the call list
      that value, not the empty list. */
  lemma NonListEnvelopeKept(fields: map<string, Value>)
    requires "calls" in fields && Truthy(fields["calls"]) && !fields["calls"].Arr?
    ensures FeedOutcome(Http(true, Some(Obj(fields)))) == fields["calls"] != Empty
  {
  }
}
