/** The request/response vocabulary shared by the token manager, the flow
    iterator and the deployments API: the SDK's exception hierarchy as one
    error datatype, HTTP responses, and the authenticated request that
    `Prophet._request` sends. */
module Http {
  import opened Json

  /** The exceptions the core raises (src/prophet/sdk/exceptions.py), plus the
      two Python built-in failures the core can run into. Messages are not
      modelled, except the one of `ValidationError`, which is what tells the
      argument checks of the deployments API apart. The `code` of an
      `AuthenticationError` is `JNull` for Python's `None`, so an absent code
      and a JSON `null` code are the same value, as they are in Python. */
  datatype Error =
    | AuthenticationError(code: Json)
    | ValidationError(message: Json)
    | APIError(status: int, errorType: Option<string>)
    | ConnectionError
    | ValueError
      /** `AttributeError`: `.get` called on a JSON value that is not an object. */
    | MalformedBody
      /** `IndexError`: the iterator was built with an empty instance list. */
    | IndexError

  datatype Result<+T> = Ok(value: T) | Err(error: Error)

  /** Outcome of an operation that returns nothing or raises. */
  datatype Outcome = Pass | Fail(error: Error)

  datatype HttpMethod = GET | POST | DELETE

  /** What `Prophet._request(method, path, json=payload)` sends. */
  datatype ApiRequest = ApiRequest(verb: HttpMethod, path: string, payload: map<string, Json>)

  /** A received response: status code and decoded JSON body. */
  datatype Response = Response(status: int, body: Json)

  /** Python's `response.json().get(key)`, where a body that is not a JSON
      object makes `.get` raise `AttributeError`. */
  function BodyGet(body: Json, key: string): (r: Result<Option<Json>>)
    ensures r.Err? <==> !body.JObject?
    ensures r.Err? ==> r.error == MalformedBody
    ensures r.Ok? ==> r.value == Get(body.fields, key)
  {
    if body.JObject? then Ok(Get(body.fields, key)) else Err(MalformedBody)
  }
}
