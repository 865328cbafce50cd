/** Managing sub-deployments under a parent MSP
    (src/prophet/sdk/deployments/api.py): the argument checks and payloads of
    `list`, `create` and `delete`, the status mapping of `_handle_errors`,
    and the first-match search of `get`. The authenticated client request
    is the oracle `request`; the typed list response built from a body is
    the oracle `parseList`. */
module Deployments {
  import opened Json
  import opened Http
  import Flows

  const DeploymentsPath := "/deployments/1.0"

  /** A listed sub-deployment; `get` looks only at `customerId`. */
  datatype Deployment = Deployment(customerId: string, name: string, handle: string)

  /** Python truthiness of an optional string argument. */
  predicate Given(s: Option<string>) {
    s.Some? && s.value != ""
  }

  /** `_handle_errors`: the error a response raises, if any. The messages of
      401, 403 and 404 are read with `data.get`, which raises on a body that
      is not an object even when only the status matters. */
  function HandleErrors(resp: Response): (r: Option<Error>)
    ensures r.None? <==> resp.status in {200, 201}
    ensures resp.status in {400, 401, 403, 404} && !resp.body.JObject? ==> r == Some(MalformedBody)
    ensures resp.status == 401 && resp.body.JObject? ==> r == Some(AuthenticationError(GetOrDefault(resp.body.fields, "code", JNull)))
    ensures resp.status == 400 && resp.body.JObject? ==>
      r == Some(ValidationError(GetOrDefault(resp.body.fields, "error", JStr("Validation failed"))))
    ensures resp.status == 403 && resp.body.JObject? ==> r == Some(APIError(403, Some("authorization_error")))
    ensures resp.status == 404 && resp.body.JObject? ==> r == Some(APIError(404, Some("not_found")))
    ensures resp.status !in {200, 201, 400, 401, 403, 404} ==> r == Some(APIError(resp.status, None))
  {
    if resp.status == 401 then
      match BodyGet(resp.body, "error")
      case Err(e) => Some(e)
      case Ok(_) => Some(AuthenticationError(GetOrDefault(resp.body.fields, "code", JNull)))
    else if resp.status == 400 then
      match BodyGet(resp.body, "error")
      case Err(e) => Some(e)
      case Ok(message) => Some(ValidationError(message.GetOr(JStr("Validation failed"))))
    else if resp.status == 403 then
      match BodyGet(resp.body, "error")
      case Err(e) => Some(e)
      case Ok(_) => Some(APIError(403, Some("authorization_error")))
    else if resp.status == 404 then
      match BodyGet(resp.body, "error")
      case Err(e) => Some(e)
      case Ok(_) => Some(APIError(404, Some("not_found")))
    else if resp.status !in {200, 201} then Some(APIError(resp.status, None))
    else None
  }

  /** The deployments API and the flow search map statuses alike except on
      201 (accepted here only) and 400, 403 and 404: a 400 is a
      `ValidationError` here and an `APIError` in the search. */
  lemma HandleErrorsVersusSearch(resp: Response)
    ensures resp.status !in {200, 201, 400, 403, 404} ==> HandleErrors(resp) == Flows.SearchError(resp)
    ensures resp.status == 201 ==> HandleErrors(resp).None? && Flows.SearchError(resp) == Some(APIError(201, None))
    ensures resp.status == 400 && resp.body.JObject? ==>
      HandleErrors(resp).value.ValidationError? && Flows.SearchError(resp) != HandleErrors(resp)
  {
  }

  /** The outcome of a request: the client's own failure, the error the
      response maps to, or the body of an accepted response. */
  function Reply(sent: Result<Response>): (r: Result<Json>)
    ensures r.Ok? <==> sent.Ok? && sent.value.status in {200, 201}
    ensures r.Ok? ==> r.value == sent.value.body
    ensures sent.Err? ==> r == Err(sent.error)
    ensures sent.Ok? && r.Err? ==> Some(r.error) == HandleErrors(sent.value)
  {
    match sent
    case Err(e) => Err(e)
    case Ok(resp) =>
      match HandleErrors(resp)
      case Some(e) => Err(e)
      case None => Ok(resp.body)
  }

  /** The `list` payload: `parent_id` when one is given, nothing otherwise. */
  function ListPayload(parentId: Option<string>): (r: map<string, Json>)
    ensures r.Keys <= {"parent_id"}
    ensures "parent_id" in r <==> Given(parentId)
    ensures "parent_id" in r ==> r["parent_id"] == JStr(parentId.value)
  {
    if Given(parentId) then map["parent_id" := JStr(parentId.value)] else map[]
  }

  /** The `create` checks, in order, and its payload: the three required
      fields, and `subdomain` only when one is given. */
  function CreatePayload(name: string, handle: string, parentId: string, subdomain: Option<string>): (r: Result<map<string, Json>>)
    ensures r.Ok? <==> name != "" && handle != "" && parentId != ""
    ensures name == "" ==> r == Err(ValidationError(JStr("name is required")))
    ensures name != "" && handle == "" ==> r == Err(ValidationError(JStr("handle is required")))
    ensures name != "" && handle != "" && parentId == "" ==> r == Err(ValidationError(JStr("parent_id is required")))
  {
    if name == "" then Err(ValidationError(JStr("name is required")))
    else if handle == "" then Err(ValidationError(JStr("handle is required")))
    else if parentId == "" then Err(ValidationError(JStr("parent_id is required")))
    else
      var base := map["name" := JStr(name), "handle" := JStr(handle), "parent_id" := JStr(parentId)];
      Ok(if Given(subdomain) then base["subdomain" := JStr(subdomain.value)] else base)
  }

  /** An accepted `create` sends exactly the required fields, with the given
      values, and `subdomain` exactly when one is given. */
  lemma CreatePayloadKeys(name: string, handle: string, parentId: string, subdomain: Option<string>)
    requires name != "" && handle != "" && parentId != ""
    ensures var p := CreatePayload(name, handle, parentId, subdomain).value;
      && p.Keys == {"name", "handle", "parent_id"} + (if Given(subdomain) then {"subdomain"} else {})
      && p["name"] == JStr(name) && p["handle"] == JStr(handle) && p["parent_id"] == JStr(parentId)
      && (Given(subdomain) ==> p["subdomain"] == JStr(subdomain.value))
  {
    assert |"name"| == 4 && |"handle"| == 6 && |"parent_id"| == 9 && |"subdomain"| == 9;
    assert "parent_id"[0] == 'p' && "subdomain"[0] == 's';
  }

  /** The `delete` checks, in order, and its payload. */
  function DeletePayload(customerId: string, parentId: string): (r: Result<map<string, Json>>)
    ensures r.Ok? <==> customerId != "" && parentId != ""
    ensures customerId == "" ==> r == Err(ValidationError(JStr("customer_id is required")))
    ensures customerId != "" && parentId == "" ==> r == Err(ValidationError(JStr("parent_id is required")))
    ensures r.Ok? ==> r.value.Keys == {"customer_id", "parent_id"}
                      && r.value["customer_id"] == JStr(customerId) && r.value["parent_id"] == JStr(parentId)
  {
    if customerId == "" then Err(ValidationError(JStr("customer_id is required")))
    else if parentId == "" then Err(ValidationError(JStr("parent_id is required")))
    else Ok(map["customer_id" := JStr(customerId), "parent_id" := JStr(parentId)])
  }

  /** The first deployment of `ds` whose customer id is `id`, if any. */
  function FirstMatch(ds: seq<Deployment>, id: string): (r: Option<Deployment>)
    ensures r.None? <==> forall i :: 0 <= i < |ds| ==> ds[i].customerId != id
    ensures r.Some? ==> r.value.customerId == id
    ensures r.Some? ==>
      exists i :: 0 <= i < |ds| && ds[i] == r.value && forall j :: 0 <= j < i ==> ds[j].customerId != id
  {
    if ds == [] then None
    else if ds[0].customerId == id then Some(ds[0])
    else
      var r := FirstMatch(ds[1..], id);
      assert forall i :: 1 <= i < |ds| ==> ds[i] == ds[1..][i - 1];
      r
  }

  /** `DeploymentsAPI`, over the client's request oracle. */
  class DeploymentsAPI {
    const request: ApiRequest -> Result<Response>
    const parseList: Json -> seq<Deployment>
    /** Every request sent, oldest first. */
    ghost var sent: seq<ApiRequest>

    constructor(request: ApiRequest -> Result<Response>, parseList: Json -> seq<Deployment>)
      ensures this.request == request && this.parseList == parseList && sent == []
    {
      this.request := request;
      this.parseList := parseList;
      sent := [];
    }

    /** What `list(parent_id)` returns. */
    function Listed(parentId: Option<string>): Result<seq<Deployment>> {
      match Reply(request(ApiRequest(GET, DeploymentsPath, ListPayload(parentId))))
      case Err(e) => Err(e)
      case Ok(body) => Ok(parseList(body))
    }

    /** `list`: one GET carrying the parent when one is given. */
    method List(parentId: Option<string>) returns (r: Result<seq<Deployment>>)
      modifies this`sent
      ensures sent == old(sent) + [ApiRequest(GET, DeploymentsPath, ListPayload(parentId))]
      ensures r == Listed(parentId)
    {
      var payload := map[];
      if parentId.Some? && parentId.value != "" {
        payload := payload["parent_id" := JStr(parentId.value)];
      }
      var req := ApiRequest(GET, DeploymentsPath, payload);
      sent := sent + [req];
      var body := Send(req);
      if body.Err? {
        return Err(body.error);
      }
      r := Ok(parseList(body.value));
    }

    /** `create`: the checks first, and a POST only when they all pass. */
    method Create(name: string, handle: string, parentId: string, subdomain: Option<string>) returns (r: Result<Json>)
      modifies this`sent
      ensures CreatePayload(name, handle, parentId, subdomain).Err? ==>
        r == Err(CreatePayload(name, handle, parentId, subdomain).error) && sent == old(sent)
      ensures CreatePayload(name, handle, parentId, subdomain).Ok? ==>
        var req := ApiRequest(POST, DeploymentsPath, CreatePayload(name, handle, parentId, subdomain).value);
        sent == old(sent) + [req] && r == Reply(request(req))
    {
      if name == "" {
        return Err(ValidationError(JStr("name is required")));
      }
      if handle == "" {
        return Err(ValidationError(JStr("handle is required")));
      }
      if parentId == "" {
        return Err(ValidationError(JStr("parent_id is required")));
      }
      var payload := map["name" := JStr(name), "handle" := JStr(handle), "parent_id" := JStr(parentId)];
      if subdomain.Some? && subdomain.value != "" {
        payload := payload["subdomain" := JStr(subdomain.value)];
      }
      var req := ApiRequest(POST, DeploymentsPath, payload);
      sent := sent + [req];
      r := Send(req);
    }

    /** `delete`: the checks first, and a DELETE only when they both pass. */
    method Delete(customerId: string, parentId: string) returns (r: Result<Json>)
      modifies this`sent
      ensures DeletePayload(customerId, parentId).Err? ==>
        r == Err(DeletePayload(customerId, parentId).error) && sent == old(sent)
      ensures DeletePayload(customerId, parentId).Ok? ==>
        var req := ApiRequest(DELETE, DeploymentsPath, DeletePayload(customerId, parentId).value);
        sent == old(sent) + [req] && r == Reply(request(req))
    {
      if customerId == "" {
        return Err(ValidationError(JStr("customer_id is required")));
      }
      if parentId == "" {
        return Err(ValidationError(JStr("parent_id is required")));
      }
      var req := ApiRequest(DELETE, DeploymentsPath, map["customer_id" := JStr(customerId), "parent_id" := JStr(parentId)]);
      sent := sent + [req];
      r := Send(req);
    }

    /** The request itself, then `_handle_errors`, then the body. */
    method Send(req: ApiRequest) returns (r: Result<Json>)
      ensures r == Reply(request(req))
    {
      var resp := request(req);
      if resp.Err? {
        return Err(resp.error);
      }
      var error := HandleErrors(resp.value);
      if error.Some? {
        return Err(error.value);
      }
      r := Ok(resp.value.body);
    }

    /** `get`: lists, then returns the first deployment with the id. */
    method Get(customerId: string, parentId: Option<string>) returns (r: Result<Option<Deployment>>)
      modifies this`sent
      ensures sent == old(sent) + [ApiRequest(GET, DeploymentsPath, ListPayload(parentId))]
      ensures Listed(parentId).Err? ==> r == Err(Listed(parentId).error)
      ensures Listed(parentId).Ok? ==> r == Ok(FirstMatch(Listed(parentId).value, customerId))
    {
      var listed := List(parentId);
      if listed.Err? {
        return Err(listed.error);
      }
      var ds := listed.value;
      var i := 0;
      while i < |ds|
        invariant 0 <= i <= |ds|
        invariant FirstMatch(ds, customerId) == FirstMatch(ds[i..], customerId)
      {
        if ds[i].customerId == customerId {
          return Ok(Some(ds[i]));
        }
        assert ds[i..][1..] == ds[i + 1..];
        i := i + 1;
      }
      r := Ok(None);
    }
  }
}
