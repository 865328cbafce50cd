/** `FlowIterator` (src/prophet/sdk/flows.py): a lazy iterator over the
    flow records of a search, fetching page after page of
    `POST /search/records/1.0` while the server reports more data.

    The client's `_request` (token, headers, transport) is the oracle
    `request`, and pydantic's `Flow.model_validate` the oracle `validate`. */
module Flows {
  import opened Json
  import opened Http
  import opened Models
  import opened FlowModels
  import Query

  const SearchPath := "/search/records/1.0"

  /** The constructor arguments that shape every request: instance ids, the
      query text (a `Q` is built first), time range, sort, fields, page size. */
  datatype SearchSpec = SearchSpec(
    instances: seq<string>,
    query: string,
    start: Option<TimeFilter>,
    end: Option<TimeFilter>,
    sort: Option<seq<Sort>>,
    fields: Option<seq<string>>,
    size: int)

  /** `[s.to_dict() for s in sorts]`. */
  function SortDicts(sorts: seq<Sort>): (r: seq<Json>)
    ensures |r| == |sorts|
    ensures forall i :: 0 <= i < |sorts| ==> r[i] == sorts[i].ToDict()
  {
    if sorts == [] then [] else [sorts[0].ToDict()] + SortDicts(sorts[1..])
  }

  /** `m` with `key` set to `value` when `present`, unchanged otherwise. */
  function PutIf(m: map<string, Json>, present: bool, key: string, value: Json): (r: map<string, Json>)
    ensures present ==> r == m[key := value]
    ensures !present ==> r == m
  {
    if present then m[key := value] else m
  }

  /** The payload `_fetch_page(page)` sends: the four fixed keys, then each
      optional key only when its argument is truthy (query, sort, fields) or
      given (start, end). */
  function SearchPayload(spec: SearchSpec, page: int): map<string, Json> {
    WithOptionalKeys(spec, map["instance_ids" := JArray(StrArray(spec.instances)), "module" := JStr("flows"),
                               "size" := JInt(spec.size), "page" := JInt(page)])
  }

  /** The optional keys of a search payload added to `base`. */
  function WithOptionalKeys(spec: SearchSpec, base: map<string, Json>): map<string, Json> {
    var withQuery := PutIf(base, spec.query != "", "sentence", JStr(spec.query));
    var withStart := PutIf(withQuery, spec.start.Some?, "start", if spec.start.Some? then spec.start.value.ToDict() else JNull);
    var withEnd := PutIf(withStart, spec.end.Some?, "end", if spec.end.Some? then spec.end.value.ToDict() else JNull);
    var withSort := PutIf(withEnd, spec.sort.Some? && spec.sort.value != [], "sort", JArray(SortDicts(spec.sort.GetOr([]))));
    PutIf(withSort, spec.fields.Some? && spec.fields.value != [], "fields", JArray(StrArray(spec.fields.GetOr([]))))
  }

  /** Adding the optional keys leaves every other key of `base` as it was. */
  lemma OptionalKeysKeepOthers(spec: SearchSpec, base: map<string, Json>, k: string)
    requires k in base
    requires k != "sentence" && k != "start" && k != "end" && k != "sort" && k != "fields"
    ensures k in WithOptionalKeys(spec, base) && WithOptionalKeys(spec, base)[k] == base[k]
  {
  }

  /** The four keys every request carries. */
  lemma SearchPayloadFixedKeys(spec: SearchSpec, page: int)
    ensures var r := SearchPayload(spec, page);
      && r["instance_ids"] == JArray(StrArray(spec.instances)) && r["module"] == JStr("flows")
      && r["size"] == JInt(spec.size) && r["page"] == JInt(page)
  {
    var base := map["instance_ids" := JArray(StrArray(spec.instances)), "module" := JStr("flows"),
                    "size" := JInt(spec.size), "page" := JInt(page)];
    assert |"instance_ids"| == 12 && |"sentence"| == 8 && |"start"| == 5 && |"end"| == 3;
    assert "module"[0] == 'm' && "fields"[0] == 'f' && "sort"[1] == 'o' && "size"[1] == 'i' && "page"[1] == 'a';
    assert "size"[0] == 's' && "page"[0] == 'p';
    assert base["instance_ids"] == JArray(StrArray(spec.instances)) && base["module"] == JStr("flows");
    assert base["size"] == JInt(spec.size) && base["page"] == JInt(page);
    OptionalKeysKeepOthers(spec, base, "instance_ids");
    OptionalKeysKeepOthers(spec, base, "module");
    OptionalKeysKeepOthers(spec, base, "size");
    OptionalKeysKeepOthers(spec, base, "page");
  }

  /** The query and the time bounds are sent exactly when the query is
      non-empty or the bound is given, with the argument's encoding. */
  lemma SearchPayloadFilterKeys(spec: SearchSpec, page: int)
    ensures var r := SearchPayload(spec, page);
      && ("sentence" in r <==> spec.query != "") && ("sentence" in r ==> r["sentence"] == JStr(spec.query))
      && ("start" in r <==> spec.start.Some?) && ("start" in r ==> r["start"] == spec.start.value.ToDict())
      && ("end" in r <==> spec.end.Some?) && ("end" in r ==> r["end"] == spec.end.value.ToDict())
  {
  }

  /** Sort orders and the field projection are sent exactly when given and
      non-empty; no key beyond the nine named ones is ever sent. */
  lemma SearchPayloadShapeKeys(spec: SearchSpec, page: int)
    ensures var r := SearchPayload(spec, page);
      && ("sort" in r <==> spec.sort.Some? && spec.sort.value != [])
      && ("sort" in r ==> r["sort"] == JArray(SortDicts(spec.sort.value)))
      && ("fields" in r <==> spec.fields.Some? && spec.fields.value != [])
      && ("fields" in r ==> r["fields"] == JArray(StrArray(spec.fields.value)))
      && r.Keys <= {"instance_ids", "module", "size", "page", "sentence", "start", "end", "sort", "fields"}
  {
  }

  /** Setting `page` commutes with putting any other key. */
  lemma PutIfKeepsPage(m: map<string, Json>, present: bool, key: string, value: Json, page: Json)
    requires key != "page"
    ensures PutIf(m["page" := page], present, key, value) == PutIf(m, present, key, value)["page" := page]
  {
    if present {
      var a := m["page" := page][key := value];
      var b := m[key := value]["page" := page];
      assert a.Keys == b.Keys;
      assert forall k :: k in a ==> a[k] == b[k];
    }
  }

  /** Setting `page` commutes with adding the optional keys. */
  lemma OptionalKeysKeepPage(spec: SearchSpec, base: map<string, Json>, page: Json)
    ensures WithOptionalKeys(spec, base["page" := page]) == WithOptionalKeys(spec, base)["page" := page]
  {
    assert |"sentence"| == 8 && |"start"| == 5 && |"end"| == 3 && |"fields"| == 6 && "sort"[0] == 's';
    PutIfKeepsPage(base, spec.query != "", "sentence", JStr(spec.query), page);
    var c1 := PutIf(base, spec.query != "", "sentence", JStr(spec.query));
    var v2 := if spec.start.Some? then spec.start.value.ToDict() else JNull;
    PutIfKeepsPage(c1, spec.start.Some?, "start", v2, page);
    var c2 := PutIf(c1, spec.start.Some?, "start", v2);
    var v3 := if spec.end.Some? then spec.end.value.ToDict() else JNull;
    PutIfKeepsPage(c2, spec.end.Some?, "end", v3, page);
    var c3 := PutIf(c2, spec.end.Some?, "end", v3);
    var v4 := JArray(SortDicts(spec.sort.GetOr([])));
    PutIfKeepsPage(c3, spec.sort.Some? && spec.sort.value != [], "sort", v4, page);
    var c4 := PutIf(c3, spec.sort.Some? && spec.sort.value != [], "sort", v4);
    PutIfKeepsPage(c4, spec.fields.Some? && spec.fields.value != [], "fields", JArray(StrArray(spec.fields.GetOr([]))), page);
  }

  /** Requests for two pages of the same search differ in the page number
      and nothing else. */
  lemma PayloadsDifferOnlyInPage(spec: SearchSpec, p: int, q: int)
    ensures SearchPayload(spec, q) == SearchPayload(spec, p)["page" := JInt(q)]
  {
    var common := map["instance_ids" := JArray(StrArray(spec.instances)), "module" := JStr("flows"),
                      "size" := JInt(spec.size)];
    OptionalKeysKeepPage(spec, common, JInt(p));
    OptionalKeysKeepPage(spec, common, JInt(q));
    var all := WithOptionalKeys(spec, common);
    assert all["page" := JInt(p)]["page" := JInt(q)] == all["page" := JInt(q)];
  }

  /** The exception `_fetch_page` raises for a response, if any. */
  function SearchError(resp: Response): (r: Option<Error>)
    ensures r.None? <==> resp.status == 200
    ensures resp.status == 401 && resp.body.JObject? ==> r == Some(AuthenticationError(GetOrDefault(resp.body.fields, "code", JNull)))
    ensures resp.status == 401 && !resp.body.JObject? ==> r == Some(MalformedBody)
    ensures resp.status == 400 ==>
      r == Some(if resp.body.JObject? && ("error" !in resp.body.fields || resp.body.fields["error"].JObject?)
                then APIError(400, Some("validation_error")) else MalformedBody)
    ensures resp.status !in {200, 400, 401} ==> r == Some(APIError(resp.status, None))
  {
    if resp.status == 401 then
      match BodyGet(resp.body, "code")
      case Err(e) => Some(e)
      case Ok(code) => Some(AuthenticationError(code.GetOr(JNull)))
    else if resp.status == 400 then
      match BodyGet(resp.body, "error")
      case Err(e) => Some(e)
      case Ok(error) =>
        if error.None? || error.value.JObject? then Some(APIError(400, Some("validation_error")))
        else Some(MalformedBody)
    else if resp.status != 200 then Some(APIError(resp.status, None))
    else None
  }

  /** The page a successful response carries: the slice of the first
      instance (an empty one when absent). */
  function ParsePage(spec: SearchSpec, body: Json, validate: Json -> Flow): (r: Result<FlowPage>)
    ensures spec.instances == [] ==> r == Err(IndexError)
    ensures spec.instances != [] && !body.JObject? ==> r == Err(MalformedBody)
    ensures spec.instances != [] && body.JObject? && spec.instances[0] !in body.fields ==>
      r == Ok(FromResponse(map[], spec.instances[0], validate))
    ensures r.Ok? ==> r.value.instanceId == spec.instances[0]
  {
    if spec.instances == [] then Err(IndexError)
    else if !body.JObject? then Err(MalformedBody)
    else
      var slice := GetOrDefault(body.fields, spec.instances[0], JObject(map[]));
      if slice.JObject? then Ok(FromResponse(slice.fields, spec.instances[0], validate))
      else Err(MalformedBody)
  }

  /** The request for `page` and what `_fetch_page(page)` makes of its
      reply: the page, or the exception it raises. */
  function FetchResult(spec: SearchSpec, request: ApiRequest -> Result<Response>, validate: Json -> Flow, page: int): (r: Result<FlowPage>)
    ensures request(ApiRequest(POST, SearchPath, SearchPayload(spec, page))).Err? ==>
      r == Err(request(ApiRequest(POST, SearchPath, SearchPayload(spec, page))).error)
    ensures r.Ok? ==> request(ApiRequest(POST, SearchPath, SearchPayload(spec, page))).Ok?
                      && request(ApiRequest(POST, SearchPath, SearchPayload(spec, page))).value.status == 200
  {
    match request(ApiRequest(POST, SearchPath, SearchPayload(spec, page)))
    case Err(e) => Err(e)
    case Ok(resp) =>
      match SearchError(resp)
      case Some(e) => Err(e)
      case None => ParsePage(spec, resp.body, validate)
  }

  /** A fetch after which iteration goes no further: it failed, or the page
      says no more data is available. */
  predicate Terminal(r: Result<FlowPage>) {
    r.Err? || !r.value.hasMore
  }

  /** The fetch of every page of one search. */
  function SearchPages(spec: SearchSpec, request: ApiRequest -> Result<Response>, validate: Json -> Flow): (pages: int -> Result<FlowPage>)
    ensures forall p :: pages(p) == FetchResult(spec, request, validate, p)
  {
    p => FetchResult(spec, request, validate, p)
  }

  /** Every page from `horizon` on is terminal: the server stops reporting
      more data eventually. */
  ghost predicate HorizonBounds(pages: int -> Result<FlowPage>, horizon: nat) {
    forall p: nat :: p >= horizon ==> Terminal(pages(p))
  }

  /** `flows` followed by the flows of `rest`, or the error of `rest`. */
  function PrependFlows(flows: seq<Flow>, rest: Result<seq<Flow>>): (r: Result<seq<Flow>>)
    ensures r.Ok? <==> rest.Ok?
    ensures r.Ok? ==> r.value == flows + rest.value
    ensures r.Err? ==> r == rest
  {
    if rest.Ok? then Ok(flows + rest.value) else rest
  }

  lemma PrependNothing(rest: Result<seq<Flow>>)
    ensures PrependFlows([], rest) == rest
  {
    if rest.Ok? {
      assert [] + rest.value == rest.value;
    }
  }

  lemma PrependTwice(a: seq<Flow>, b: seq<Flow>, rest: Result<seq<Flow>>)
    ensures PrependFlows(a + b, rest) == PrependFlows(a, PrependFlows(b, rest))
  {
    if rest.Ok? {
      assert (a + b) + rest.value == a + (b + rest.value);
    }
  }

  /** One more flow collected: the accumulated flows, put in front of
      what is still pending, stay what was pending at the start. */
  lemma AppendYielded(start: seq<Flow>, acc: seq<Flow>, flow: Flow, rest: Result<seq<Flow>>)
    ensures PrependFlows(acc, PrependFlows([flow], rest)) == PrependFlows(acc + [flow], rest)
    ensures start + acc + [flow] == start + (acc + [flow])
  {
    PrependTwice(acc, [flow], rest);
  }

  /** The flows iteration yields from page `p` on: each page's flows in
      order, moving on while a page has more data, or the first error. */
  ghost function AllFlowsFrom(pages: int -> Result<FlowPage>, horizon: nat, p: nat): Result<seq<Flow>>
    decreases if p <= horizon then horizon - p else 0
  {
    match pages(p)
    case Err(e) => Err(e)
    case Ok(page) =>
      if page.hasMore && p < horizon then PrependFlows(page.flows, AllFlowsFrom(pages, horizon, p + 1))
      else Ok(page.flows)
  }

  /** An error of the whole iteration is the error of one of its pages. */
  lemma {:induction false} AllFlowsErrorFromSomePage(pages: int -> Result<FlowPage>, horizon: nat, p: nat)
    requires AllFlowsFrom(pages, horizon, p).Err?
    ensures exists q: nat :: p <= q && pages(q) == Err(AllFlowsFrom(pages, horizon, p).error)
    decreases if p <= horizon then horizon - p else 0
  {
    var e := AllFlowsFrom(pages, horizon, p).error;
    if pages(p).Ok? {
      AllFlowsErrorFromSomePage(pages, horizon, p + 1);
      var q: nat :| p + 1 <= q && pages(q) == Err(AllFlowsFrom(pages, horizon, p + 1).error);
      assert pages(q) == Err(e);
    } else {
      assert pages(p) == Err(e);
    }
  }

  /** Under the horizon bound, iteration from page `p` is page `p`'s flows
      followed, when it announces more data, by iteration from `p + 1`,
      with no cut-off at the horizon. */
  lemma AllFlowsUnfold(pages: int -> Result<FlowPage>, horizon: nat, p: nat)
    requires HorizonBounds(pages, horizon)
    requires pages(p).Ok?
    ensures AllFlowsFrom(pages, horizon, p)
        == PrependFlows(pages(p).value.flows, if pages(p).value.hasMore then AllFlowsFrom(pages, horizon, p + 1) else Ok([]))
  {
    if p >= horizon {
      assert Terminal(pages(p));
    }
    assert pages(p).value.flows + [] == pages(p).value.flows;
  }

  /** The page numbers `lo`, `lo + 1`, ..., `hi - 1`, in order. */
  function Span(lo: nat, hi: nat): (r: seq<nat>)
    ensures lo <= hi ==> |r| == hi - lo
    ensures hi <= lo ==> r == []
  {
    seq(if hi <= lo then 0 else hi - lo, i => lo + i)
  }

  /** A log extended by the next page number is the log with the span
      extended by one. */
  lemma SpanGrows(log: seq<nat>, lo: nat, hi: nat)
    requires lo <= hi
    ensures log + Span(lo, hi) + [hi] == log + Span(lo, hi + 1)
  {
    assert Span(lo, hi + 1) == Span(lo, hi) + [hi];
  }

  /** What `__next__` returns: the next flow, `StopIteration`, or the
      exception a fetch raised. */
  datatype Step = Yielded(flow: Flow) | Stopped | Failed(error: Error)

  class FlowIterator {
    const spec: SearchSpec
    const request: ApiRequest -> Result<Response>
    const validate: Json -> Flow
    /** What fetching each page gives, named so that proofs about the
        iteration need not look inside a fetch. */
    ghost const pages: int -> Result<FlowPage>
    /** A page number from which on every fetch is terminal. */
    ghost const horizon: nat

    var currentPage: Option<FlowPage>
    var pageNum: nat
    var flowIndex: nat
    var totalYielded: nat
    var limit: Option<int>
    var exhausted: bool

    /** The pages `__next__` has fetched and kept, in order. */
    ghost var flatPages: seq<nat>
    /** Every flow `__next__` has returned, in order. */
    ghost var yielded: seq<Flow>
    /** The page numbers of every search request sent, in order. */
    ghost var fetched: seq<nat>

    /** `pages` is the search: a fact used only where a fetch is made. */
    ghost predicate PagesAreSearch() {
      forall p {:trigger FetchResult(spec, request, validate, p)} :: pages(p) == FetchResult(spec, request, validate, p)
    }

    /** All the flows of the given fetched pages, in order. */
    ghost function FlowsOf(nums: seq<nat>): seq<Flow>
      decreases |nums|
    {
      if nums == [] then []
      else
        var last := pages(nums[|nums| - 1]);
        FlowsOf(nums[..|nums| - 1]) + (if last.Ok? then last.value.flows else [])
    }

    ghost predicate Valid()
      reads this
    {
      && PagesAreSearch()
      && HorizonBounds(pages, horizon)
      && (currentPage.None? ==> flatPages == [] && flowIndex == 0 && yielded == [])
      && (currentPage.Some? ==>
            && flatPages != [] && flatPages[0] == 0
            && pages(flatPages[|flatPages| - 1]) == Ok(currentPage.value)
            && flatPages[|flatPages| - 1] < pageNum
            && flowIndex <= |currentPage.value.flows|
            && yielded == FlowsOf(flatPages[..|flatPages| - 1]) + currentPage.value.flows[..flowIndex])
      && (forall i :: 0 <= i < |flatPages| - 1 ==> pages(flatPages[i]).Ok? && pages(flatPages[i]).value.hasMore)
      && (forall i, j :: 0 <= i < j < |flatPages| ==> flatPages[i] < flatPages[j])
      && totalYielded == |yielded|
    }

    /** The flows still to come, or the error iteration runs into. */
    ghost function Pending(): Result<seq<Flow>>
      reads this
    {
      if currentPage.None? then AllFlowsFrom(pages, horizon, 0)
      else
        var page := currentPage.value;
        PrependFlows(if flowIndex <= |page.flows| then page.flows[flowIndex..] else [],
          if page.hasMore then AllFlowsFrom(pages, horizon, pageNum) else Ok([]))
    }

    /** The current page still holds a flow to return. */
    predicate FlowBuffered()
      reads this
    {
      currentPage.Some? && flowIndex < |currentPage.value.flows|
    }

    /** The current page is used up and announced no more data. */
    predicate LastPageUsedUp()
      reads this
    {
      currentPage.Some? && flowIndex >= |currentPage.value.flows| && !currentPage.value.hasMore
    }

    /** `take(n)` has been reached. */
    predicate LimitReached()
      reads this
    {
      limit.Some? && totalYielded >= limit.value
    }

    // Progress measure of `__next__`, in lexicographic order.
    function Unstarted(): nat
      reads this
    {
      if currentPage.None? then 1 else 0
    }

    ghost function PagesLeft(): nat
      reads this
    {
      if pageNum <= horizon then horizon - pageNum else 0
    }

    function MoreAnnounced(): nat
      reads this
    {
      if currentPage.Some? && currentPage.value.hasMore then 1 else 0
    }

    function FlowsLeft(): nat
      reads this
    {
      if currentPage.Some? && flowIndex <= |currentPage.value.flows| then |currentPage.value.flows| - flowIndex else 0
    }

    /** The progress measure went down. */
    twostate predicate Progressed()
      reads this
    {
      || Unstarted() < old(Unstarted())
      || (Unstarted() == old(Unstarted()) && PagesLeft() < old(PagesLeft()))
      || (Unstarted() == old(Unstarted()) && PagesLeft() == old(PagesLeft()) && MoreAnnounced() < old(MoreAnnounced()))
      || (Unstarted() == old(Unstarted()) && PagesLeft() == old(PagesLeft()) && MoreAnnounced() == old(MoreAnnounced())
          && FlowsLeft() < old(FlowsLeft()))
    }

    /** `FlowIterator(client, instances, query, start, end, sort, fields, size)`
        with a query string. */
    constructor (spec: SearchSpec, request: ApiRequest -> Result<Response>, validate: Json -> Flow, ghost horizon: nat)
      requires HorizonBounds(SearchPages(spec, request, validate), horizon)
      ensures this.spec == spec && this.request == request && this.validate == validate
      ensures pages == SearchPages(spec, request, validate) && this.horizon == horizon
      ensures Valid()
      ensures currentPage.None? && pageNum == 0 && flowIndex == 0 && totalYielded == 0
      ensures limit.None? && !exhausted && fetched == []
      ensures Pending() == AllFlowsFrom(pages, horizon, 0)
    {
      this.spec := spec;
      this.request := request;
      this.validate := validate;
      this.pages := SearchPages(spec, request, validate);
      this.horizon := horizon;
      currentPage := None;
      pageNum := 0;
      flowIndex := 0;
      totalYielded := 0;
      limit := None;
      exhausted := false;
      flatPages := [];
      yielded := [];
      fetched := [];
    }

    /** The same constructor given a `Q`: the query is built once, here. */
    constructor FromQuery(spec: SearchSpec, query: Query.Q, request: ApiRequest -> Result<Response>, validate: Json -> Flow, ghost horizon: nat)
      requires HorizonBounds(SearchPages(spec.(query := query.Build()), request, validate), horizon)
      ensures this.spec == spec.(query := query.Build())
      ensures this.request == request && this.validate == validate && this.horizon == horizon
      ensures pages == SearchPages(this.spec, request, validate)
      ensures Valid()
      ensures currentPage.None? && pageNum == 0 && flowIndex == 0 && totalYielded == 0
      ensures limit.None? && !exhausted && fetched == []
    {
      this.spec := spec.(query := query.Build());
      this.request := request;
      this.validate := validate;
      this.pages := SearchPages(spec.(query := query.Build()), request, validate);
      this.horizon := horizon;
      currentPage := None;
      pageNum := 0;
      flowIndex := 0;
      totalYielded := 0;
      limit := None;
      exhausted := false;
      flatPages := [];
      yielded := [];
      fetched := [];
    }

    /** `take(n)`: limit the flows returned across all pages. */
    method Take(n: int) returns (r: FlowIterator)
      requires Valid()
      modifies this
      ensures Valid() && r == this
      ensures limit == Some(n)
      ensures currentPage == old(currentPage) && pageNum == old(pageNum) && flowIndex == old(flowIndex)
      ensures totalYielded == old(totalYielded) && exhausted == old(exhausted)
      ensures flatPages == old(flatPages) && yielded == old(yielded) && fetched == old(fetched)
    {
      limit := Some(n);
      r := this;
    }

    /** `_fetch_page(page)`: the payload is built key by key, then sent. */
    method FetchPage(page: nat) returns (r: Result<FlowPage>)
      requires PagesAreSearch()
      modifies this`fetched
      ensures r == pages(page)
      ensures fetched == old(fetched) + [page]
    {
      var payload := map["instance_ids" := JArray(StrArray(spec.instances)), "module" := JStr("flows"),
                         "size" := JInt(spec.size), "page" := JInt(page)];
      if spec.query != "" {
        payload := payload["sentence" := JStr(spec.query)];
      }
      if spec.start.Some? {
        payload := payload["start" := spec.start.value.ToDict()];
      }
      if spec.end.Some? {
        payload := payload["end" := spec.end.value.ToDict()];
      }
      if spec.sort.Some? && spec.sort.value != [] {
        payload := payload["sort" := JArray(SortDicts(spec.sort.value))];
      }
      if spec.fields.Some? && spec.fields.value != [] {
        payload := payload["fields" := JArray(StrArray(spec.fields.value))];
      }
      assert payload == SearchPayload(spec, page);
      var response := request(ApiRequest(POST, SearchPath, payload));
      fetched := fetched + [page];
      if response.Err? {
        r := Err(response.error);
      } else {
        var error := SearchError(response.value);
        if error.Some? {
          r := Err(error.value);
        } else {
          r := ParsePage(spec, response.value.body, validate);
        }
      }
      assert r == FetchResult(spec, request, validate, page);
    }

    /** `first()`: page 0, leaving the iteration state alone. */
    method First() returns (r: Result<FlowPage>)
      requires Valid()
      modifies this`fetched
      ensures Valid()
      ensures r == pages(0) && fetched == old(fetched) + [0]
    {
      r := FetchPage(0);
    }

    /** `next_page()`: manual pagination, independent of `__next__`'s page;
        `None` once a page without more data has been returned. */
    method NextPage() returns (r: Result<Option<FlowPage>>)
      requires Valid()
      modifies this`pageNum, this`exhausted, this`fetched
      ensures Valid()
      ensures old(exhausted) ==> r == Ok(None) && pageNum == old(pageNum) && exhausted && fetched == old(fetched)
      ensures !old(exhausted) ==> fetched == old(fetched) + [old(pageNum)]
      ensures !old(exhausted) && pages(old(pageNum)).Err? ==>
                r == Err(pages(old(pageNum)).error) && pageNum == old(pageNum) && !exhausted
      ensures !old(exhausted) && pages(old(pageNum)).Ok? ==>
                && r == Ok(Some(pages(old(pageNum)).value))
                && pageNum == old(pageNum) + 1
                && exhausted == !pages(old(pageNum)).value.hasMore
    {
      if exhausted {
        return Ok(None);
      }
      var page := FetchPage(pageNum);
      if page.Err? {
        return Err(page.error);
      }
      pageNum := pageNum + 1;
      if !page.value.hasMore {
        exhausted := true;
      }
      r := Ok(Some(page.value));
    }

    /** `total_found`: the `found` count of the page `__next__` holds, once
        it has fetched one. */
    function TotalFound(): (r: Option<int>)
      reads this
      requires Valid()
      ensures r.Some? <==> flatPages != []
      ensures r.Some? ==> pages(flatPages[|flatPages| - 1]).Ok? && r.value == pages(flatPages[|flatPages| - 1]).value.found
    {
      if currentPage.None? then None else Some(currentPage.value.found)
    }

    /** `__next__`. Unless the limit is reached, a returned flow is the head
        of what was pending, `StopIteration` means nothing was pending, and a
        raised error is the one iteration was bound to run into. */
    method Next() returns (r: Step)
      requires Valid()
      modifies this`currentPage, this`pageNum, this`flowIndex, this`totalYielded, this`flatPages, this`yielded, this`fetched
      ensures Valid()
      ensures old(LimitReached()) ==> r == Stopped && unchanged(this)
      ensures !old(LimitReached()) && r.Yielded? ==> old(Pending()) == PrependFlows([r.flow], Pending())
      ensures !old(LimitReached()) && r.Stopped? ==> old(Pending()) == Ok([])
      ensures !old(LimitReached()) && r.Failed? ==> old(Pending()) == Err(r.error)
      ensures r.Yielded? ==> !old(LimitReached()) && yielded == old(yielded) + [r.flow] && Progressed()
      ensures !r.Yielded? ==> yielded == old(yielded) && Pending() == old(Pending())
      ensures totalYielded == if r.Yielded? then old(totalYielded) + 1 else old(totalYielded)
      ensures old(FlowBuffered()) ==> fetched == old(fetched)
      ensures old(LastPageUsedUp()) ==> r == Stopped && fetched == old(fetched)
      ensures old(currentPage.Some?) ==>
                && flatPages == old(flatPages) + Span(old(pageNum), pageNum)
                && fetched == old(fetched) + Span(old(pageNum), pageNum) + (if r.Failed? then [pageNum] else [])
      ensures !old(LimitReached()) && old(currentPage.None?) && currentPage.None? ==>
                r.Failed? && pages(0).Err? && fetched == old(fetched) + [0] && flatPages == old(flatPages) == []
      ensures !old(LimitReached()) && old(currentPage.None?) && currentPage.Some? ==>
                && old(flatPages) == [] && flatPages == [0] + Span(1, pageNum)
                && fetched == old(fetched) + [0] + Span(1, pageNum) + (if r.Failed? then [pageNum] else [])
    {
      if limit.Some? && totalYielded >= limit.value {
        return Stopped;
      }
      if currentPage.None? {
        var failure := Start();
        if failure.Some? {
          return Failed(failure.value);
        }
      }
      r := NextOnPage();
    }

    /** `__next__` once a current page is held: move past used-up pages,
        then return the flow at `_flow_index`. */
    method NextOnPage() returns (r: Step)
      requires Valid() && currentPage.Some?
      modifies this`currentPage, this`pageNum, this`flowIndex, this`totalYielded, this`flatPages, this`yielded, this`fetched
      ensures Valid()
      ensures r.Yielded? ==> old(Pending()) == PrependFlows([r.flow], Pending())
      ensures r.Stopped? ==> old(Pending()) == Ok([])
      ensures r.Failed? ==> old(Pending()) == Err(r.error)
      ensures r.Yielded? ==> yielded == old(yielded) + [r.flow] && Progressed()
      ensures !r.Yielded? ==> yielded == old(yielded) && Pending() == old(Pending())
      ensures totalYielded == if r.Yielded? then old(totalYielded) + 1 else old(totalYielded)
      ensures old(FlowBuffered()) ==> fetched == old(fetched)
      ensures old(LastPageUsedUp()) ==> r == Stopped && fetched == old(fetched)
      ensures flatPages == old(flatPages) + Span(old(pageNum), pageNum)
      ensures fetched == old(fetched) + Span(old(pageNum), pageNum) + (if r.Failed? then [pageNum] else [])
    {
      var stop := SkipUsedPages();
      if stop.Some? {
        return stop.value;
      }
      var flow := YieldCurrent();
      r := Yielded(flow);
    }

    /** The end of `__next__`: return the flow at `_flow_index` and count it. */
    method YieldCurrent() returns (flow: Flow)
      requires Valid() && currentPage.Some? && flowIndex < |currentPage.value.flows|
      modifies this`flowIndex, this`totalYielded, this`yielded
      ensures Valid()
      ensures old(Pending()) == PrependFlows([flow], Pending())
      ensures yielded == old(yielded) + [flow] && totalYielded == old(totalYielded) + 1
      ensures Unstarted() == old(Unstarted()) && PagesLeft() == old(PagesLeft()) && MoreAnnounced() == old(MoreAnnounced())
      ensures FlowsLeft() < old(FlowsLeft())
    {
      flow := currentPage.value.flows[flowIndex];
      assert currentPage.value.flows[..flowIndex + 1] == currentPage.value.flows[..flowIndex] + [flow];
      assert currentPage.value.flows[flowIndex..] == [flow] + currentPage.value.flows[flowIndex + 1..];
      PrependTwice([flow], currentPage.value.flows[flowIndex + 1..],
        if currentPage.value.hasMore then AllFlowsFrom(pages, horizon, pageNum) else Ok([]));
      flowIndex := flowIndex + 1;
      totalYielded := totalYielded + 1;
      yielded := yielded + [flow];
    }

    /** The first fetch of `__next__`: page 0 becomes the current page and
        `_page_num` 1. */
    method Start() returns (failure: Option<Error>)
      requires Valid() && currentPage.None?
      modifies this`currentPage, this`pageNum, this`flatPages, this`fetched
      ensures Valid() && yielded == old(yielded) && fetched == old(fetched) + [0]
      ensures failure.None? ==> currentPage.Some? && Pending() == old(Pending())
      ensures failure.Some? ==> old(Pending()) == Err(failure.value) && Pending() == old(Pending())
      ensures failure.None? ==> pages(0).Ok? && currentPage == Some(pages(0).value) && pageNum == 1 && flatPages == [0]
      ensures failure.Some? ==> pages(0) == Err(failure.value) && currentPage.None? && pageNum == old(pageNum)
    {
      var first := FetchPage(0);
      if first.Err? {
        return Some(first.error);
      }
      AllFlowsUnfold(pages, horizon, 0);
      currentPage := Some(first.value);
      pageNum := 1;
      flatPages := [0];
      assert flatPages[..0] == [];
      assert first.value.flows[0..] == first.value.flows;
      failure := None;
    }

    /** The loop of `__next__` that moves past used-up pages while they
        announce more data. It stops with a flow left on the current page,
        or with what `__next__` then returns. */
    method SkipUsedPages() returns (stop: Option<Step>)
      requires Valid() && currentPage.Some?
      modifies this`currentPage, this`pageNum, this`flowIndex, this`flatPages, this`fetched
      ensures Valid() && currentPage.Some? && yielded == old(yielded) && Pending() == old(Pending())
      ensures stop.None? ==> flowIndex < |currentPage.value.flows|
      ensures stop.None? ==>
        || PagesLeft() < old(PagesLeft())
        || (PagesLeft() == old(PagesLeft()) && MoreAnnounced() < old(MoreAnnounced()))
        || (currentPage == old(currentPage) && flowIndex == old(flowIndex) && pageNum == old(pageNum))
      ensures stop.Some? ==> stop.value.Stopped? || stop.value.Failed?
      ensures stop == Some(Stopped) ==> old(Pending()) == Ok([])
      ensures stop.Some? && stop.value.Failed? ==> old(Pending()) == Err(stop.value.error)
      ensures old(FlowBuffered()) ==> stop.None? && pageNum == old(pageNum)
      ensures old(LastPageUsedUp()) ==> stop == Some(Stopped) && pageNum == old(pageNum)
      ensures flatPages == old(flatPages) + Span(old(pageNum), pageNum)
      ensures fetched == old(fetched) + Span(old(pageNum), pageNum)
                         + (if stop.Some? && stop.value.Failed? then [pageNum] else [])
    {
      ghost var num0, kept0, log0 := pageNum, flatPages, fetched;
      while flowIndex >= |currentPage.value.flows|
        invariant Valid() && currentPage.Some?
        invariant old(Pending()) == Pending()
        invariant yielded == old(yielded)
        invariant num0 <= pageNum
        invariant flatPages == kept0 + Span(num0, pageNum)
        invariant fetched == log0 + Span(num0, pageNum)
        invariant pageNum == old(pageNum) ==> currentPage == old(currentPage) && flowIndex == old(flowIndex)
        invariant old(FlowBuffered()) || old(!currentPage.value.hasMore) ==> pageNum == old(pageNum)
        invariant || PagesLeft() < old(PagesLeft())
                  || (PagesLeft() == old(PagesLeft()) && MoreAnnounced() < old(MoreAnnounced()))
                  || (currentPage == old(currentPage) && flowIndex == old(flowIndex) && pageNum == old(pageNum))
        decreases PagesLeft(), MoreAnnounced()
      {
        ghost var num := pageNum;
        stop := PassUsedPage();
        if stop.Some? {
          return;
        }
        SpanGrows(log0, num0, num);
        SpanGrows(kept0, num0, num);
      }
      stop := None;
    }

    /** `StopIteration` is final: a `__next__` after one stops again. */
    method NextAfterStop() returns (first: Step, second: Step)
      requires Valid()
      modifies this`currentPage, this`pageNum, this`flowIndex, this`totalYielded, this`flatPages, this`yielded, this`fetched
      ensures Valid()
      ensures first == Stopped ==> second == Stopped
    {
      first := Next();
      second := Next();
      if first == Stopped && !LimitReached() {
        assert Pending() == Ok([]);
      }
    }

    /** `next_page()` and `__next__` share `_page_num`, but `__next__`
        without a current page starts over at page 0: after a `next_page()`
        on a fresh iterator, the first flow returned is still the first flow
        of the whole search, and page 0 is requested twice. */
    method NextPageThenNext() returns (manual: Result<Option<FlowPage>>, r: Step)
      requires Valid() && currentPage.None? && pageNum == 0 && !exhausted
      modifies this`currentPage, this`pageNum, this`flowIndex, this`totalYielded, this`flatPages, this`yielded, this`fetched, this`exhausted
      ensures Valid()
      ensures pages(0).Ok? ==> manual == Ok(Some(pages(0).value))
      ensures pages(0).Err? ==> manual == Err(pages(0).error)
      ensures old(LimitReached()) ==> r == Stopped
      ensures !old(LimitReached()) && r.Yielded? ==> AllFlowsFrom(pages, horizon, 0) == PrependFlows([r.flow], Pending())
      ensures !old(LimitReached()) && r.Stopped? ==> AllFlowsFrom(pages, horizon, 0) == Ok([])
      ensures !old(LimitReached()) && r.Failed? ==> AllFlowsFrom(pages, horizon, 0) == Err(r.error)
      ensures !old(LimitReached()) ==>
                |fetched| >= |old(fetched)| + 2 && fetched[|old(fetched)|] == 0 && fetched[|old(fetched)| + 1] == 0
    {
      manual := NextPage();
      r := Next();
    }

    /** One pass of that loop over a used-up current page: stop when it
        announced no more data, otherwise fetch the page at `_page_num` and
        turn to it. */
    method PassUsedPage() returns (stop: Option<Step>)
      requires Valid() && currentPage.Some? && flowIndex >= |currentPage.value.flows|
      modifies this`currentPage, this`pageNum, this`flowIndex, this`flatPages, this`fetched
      ensures Valid() && currentPage.Some? && yielded == old(yielded) && Pending() == old(Pending())
      ensures stop == Some(Stopped) ==>
                !old(currentPage.value.hasMore) && Pending() == Ok([]) && unchanged(this)
      ensures stop.Some? && stop.value.Failed? ==>
                && Pending() == Err(stop.value.error)
                && currentPage == old(currentPage) && flowIndex == old(flowIndex) && pageNum == old(pageNum)
                && flatPages == old(flatPages) && fetched == old(fetched) + [pageNum]
      ensures stop.Some? ==> stop.value.Stopped? || stop.value.Failed?
      ensures stop.None? ==>
                && old(currentPage.value.hasMore)
                && pageNum == old(pageNum) + 1
                && flatPages == old(flatPages) + [old(pageNum)] && fetched == old(fetched) + [old(pageNum)]
                && (PagesLeft() < old(PagesLeft()) || (PagesLeft() == old(PagesLeft()) && MoreAnnounced() < old(MoreAnnounced())))
    {
      ExhaustedPagePending();
      if !currentPage.value.hasMore {
        return Some(Stopped);
      }
      var next := FetchPage(pageNum);
      if next.Err? {
        return Some(Failed(next.error));
      }
      TurnPage(next.value);
      stop := None;
    }

    /** One turn of that loop: the page just fetched at `_page_num` becomes
        the current page, read from its start. */
    method TurnPage(next: FlowPage)
      requires Valid() && currentPage.Some?
      requires flowIndex >= |currentPage.value.flows| && currentPage.value.hasMore
      requires pages(pageNum) == Ok(next)
      modifies this`currentPage, this`pageNum, this`flowIndex, this`flatPages
      ensures Valid() && yielded == old(yielded)
      ensures currentPage == Some(next) && pageNum == old(pageNum) + 1 && flowIndex == 0
      ensures flatPages == old(flatPages) + [old(pageNum)]
      ensures Pending() == old(Pending())
      ensures PagesLeft() < old(PagesLeft()) || (PagesLeft() == old(PagesLeft()) && MoreAnnounced() < old(MoreAnnounced()))
    {
      ExhaustedPagePending();
      AllFlowsUnfold(pages, horizon, pageNum);
      NextPageKeepsYielded(next);
      KeptPagesExtend();
      flatPages := flatPages + [pageNum];
      currentPage := Some(next);
      pageNum := pageNum + 1;
      flowIndex := 0;
      assert next.flows[0..] == next.flows;
    }

    /** Appending the page counter's page keeps the kept pages increasing,
        each but the last announcing more data. */
    lemma KeptPagesExtend()
      requires Valid() && currentPage.Some? && currentPage.value.hasMore
      ensures var fp := flatPages + [pageNum];
        && (forall i :: 0 <= i < |fp| - 1 ==> pages(fp[i]).Ok? && pages(fp[i]).value.hasMore)
        && (forall i, j :: 0 <= i < j < |fp| ==> fp[i] < fp[j])
    {
      var fp := flatPages + [pageNum];
      var last := |flatPages| - 1;
      forall i | 0 <= i < |fp| - 1
        ensures pages(fp[i]).Ok? && pages(fp[i]).value.hasMore
      {
        assert fp[i] == flatPages[i];
      }
      forall i, j | 0 <= i < j < |fp|
        ensures fp[i] < fp[j]
      {
        if j == |flatPages| && i < last {
          assert flatPages[i] < flatPages[last];
        }
      }
    }

    /** With the current page used up, what is pending is what the pages
        from `pageNum` on hold, if the page announced more. */
    lemma ExhaustedPagePending()
      requires Valid() && currentPage.Some? && flowIndex >= |currentPage.value.flows|
      ensures Pending() == if currentPage.value.hasMore then AllFlowsFrom(pages, horizon, pageNum) else Ok([])
    {
      assert currentPage.value.flows[flowIndex..] == [];
      PrependNothing(if currentPage.value.hasMore then AllFlowsFrom(pages, horizon, pageNum) else Ok([]));
    }

    /** Moving from a used-up current page to the fetched page `pageNum`
        keeps the yielded flows those of all earlier pages. */
    lemma NextPageKeepsYielded(next: FlowPage)
      requires Valid() && currentPage.Some?
      requires flowIndex >= |currentPage.value.flows| && currentPage.value.hasMore
      requires pages(pageNum) == Ok(next)
      ensures FlowsOf((flatPages + [pageNum])[..|flatPages|]) + next.flows[..0] == yielded
    {
      assert (flatPages + [pageNum])[..|flatPages|] == flatPages;
      assert flatPages[..|flatPages|] == flatPages;
      assert currentPage.value.flows[..flowIndex] == currentPage.value.flows;
    }

    /** `collect()`, that is `list(self)`: call `__next__` until it stops.
        Without a limit the result is exactly what was pending. */
    method Collect() returns (r: Result<seq<Flow>>)
      requires Valid()
      modifies this`currentPage, this`pageNum, this`flowIndex, this`totalYielded, this`flatPages, this`yielded, this`fetched
      ensures Valid()
      ensures limit.None? ==> r == old(Pending())
      ensures r.Ok? ==> old(Pending()) == PrependFlows(r.value, Pending())
      ensures r.Ok? ==> LimitReached() || Pending() == Ok([])
      ensures r.Err? ==> old(Pending()) == Err(r.error)
      ensures r.Ok? ==> yielded == old(yielded) + r.value
      ensures limit.Some? && old(totalYielded) <= limit.value ==> totalYielded <= limit.value
    {
      var acc: seq<Flow> := [];
      ghost var before, earlier, counted := Pending(), yielded, totalYielded;
      PrependNothing(before);
      while true
        invariant Valid()
        invariant yielded == earlier + acc
        invariant before == PrependFlows(acc, Pending())
        invariant limit.Some? && counted <= limit.value ==> totalYielded <= limit.value
        decreases Unstarted(), PagesLeft(), MoreAnnounced(), FlowsLeft()
      {
        var step := Next();
        match step
        case Yielded(flow) =>
          AppendYielded(earlier, acc, flow, Pending());
          acc := acc + [flow];
        case Stopped =>
          assert acc + [] == acc;
          return Ok(acc);
        case Failed(e) =>
          return Err(e);
      }
    }
  }
}
