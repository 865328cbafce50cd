/** The parts of the flow record model that carry logic
    (src/prophet/sdk/flows/models.py): the `Flow` convenience properties,
    which are fallback chains over optional sub-records, and
    `FlowPage.from_response`, a default-filling lookup over one instance's
    slice of a search response. Only the sub-records those properties read
    are represented; every metric is an integer here. */
module FlowModels {
  import opened Json

  /** `DirectionFields` (the `src` and `dst` endpoints). */
  datatype Direction = Direction(ip: Option<string>, port: Option<int>)
  /** `Transport`. */
  datatype Transport = Transport(proto: Option<string>)
  /** `Meta`. */
  datatype Meta = Meta(customerId: Option<string>)
  /** `DirectionalStats` (byte volume). */
  datatype DirectionalStats = DirectionalStats(total: Option<int>)
  /** `DirectionalValues` (packet volume). */
  datatype DirectionalValues = DirectionalValues(total: Option<int>)
  /** `VolumeMetrics`. */
  datatype VolumeMetrics = VolumeMetrics(bytes: Option<DirectionalStats>, packets: Option<DirectionalValues>)
  /** `SessionMetrics` (the `stats` field). */
  datatype SessionMetrics = SessionMetrics(volume: Option<VolumeMetrics>)
  /** `SimpleMetrics` (the `metric` field). */
  datatype SimpleMetrics = SimpleMetrics(totalBytes: Option<int>)

  /** The first present candidate, or `default` when none is present: the
      reference shape of a fallback chain. */
  function FirstPresent(candidates: seq<Option<int>>, default: int): (r: int)
    ensures (forall i :: 0 <= i < |candidates| ==> candidates[i].None?) ==> r == default
  {
    if candidates == [] then default
    else if candidates[0].Some? then candidates[0].value
    else FirstPresent(candidates[1..], default)
  }

  /** Python's `x or 0` on an optional number. */
  function OrZero(x: Option<int>): (r: int)
    ensures r == x.GetOr(0)
  {
    if x.Some? && x.value != 0 then x.value else 0
  }

  /** A flow record, reduced to the fields the convenience properties read. */
  datatype Flow = Flow(
    id: Option<string>,
    src: Option<Direction>,
    dst: Option<Direction>,
    transport: Option<Transport>,
    meta: Option<Meta>,
    stats: Option<SessionMetrics>,
    metric: Option<SimpleMetrics>)
  {
    /** `metric.total_bytes`, absent when any link is missing. */
    function MetricTotalBytes(): Option<int> {
      if metric.Some? then metric.value.totalBytes else None
    }

    /** `stats.volume.bytes.total`, absent when any link is missing. */
    function StatsBytesTotal(): Option<int> {
      if stats.Some? && stats.value.volume.Some? && stats.value.volume.value.bytes.Some?
      then stats.value.volume.value.bytes.value.total else None
    }

    /** `stats.volume.packets.total`, absent when any link is missing. */
    function StatsPacketsTotal(): Option<int> {
      if stats.Some? && stats.value.volume.Some? && stats.value.volume.value.packets.Some?
      then stats.value.volume.value.packets.value.total else None
    }

    /** The `bytes` property: `metric.total_bytes` whenever present, even when
        it is 0, else `stats.volume.bytes.total`, else 0. */
    function Bytes(): (r: int)
      ensures r == FirstPresent([MetricTotalBytes(), StatsBytesTotal()], 0)
      ensures MetricTotalBytes().Some? ==> r == MetricTotalBytes().value
    {
      if metric.Some? && metric.value.totalBytes.Some? then metric.value.totalBytes.value
      else if stats.Some? && stats.value.volume.Some? && stats.value.volume.value.bytes.Some?
      then OrZero(stats.value.volume.value.bytes.value.total)
      else 0
    }

    /** The `packets` property: `stats.volume.packets.total`, or 0. */
    function Packets(): (r: int)
      ensures r == FirstPresent([StatsPacketsTotal()], 0)
    {
      if stats.Some? && stats.value.volume.Some? && stats.value.volume.value.packets.Some?
      then OrZero(stats.value.volume.value.packets.value.total)
      else 0
    }

    /** The `src_ip` property. The source returns `src.ip` as it is, so a
        present endpoint without an address gives Python's `None`. */
    function SrcIp(): (r: Option<string>)
      ensures src.None? ==> r == Some("")
      ensures src.Some? ==> r == src.value.ip
    {
      if src.Some? then src.value.ip else Some("")
    }

    /** The `dst_ip` property. */
    function DstIp(): (r: Option<string>)
      ensures dst.None? ==> r == Some("")
      ensures dst.Some? ==> r == dst.value.ip
    {
      if dst.Some? then dst.value.ip else Some("")
    }

    /** The `src_port` property: 0 when the endpoint or its port is absent. */
    function SrcPort(): (r: int)
      ensures r == FirstPresent([if src.Some? then src.value.port else None], 0)
      ensures r != 0 ==> src.Some? && src.value.port == Some(r)
    {
      if src.Some? && src.value.port.Some? && src.value.port.value != 0 then src.value.port.value else 0
    }

    /** The `dst_port` property. */
    function DstPort(): (r: int)
      ensures r == FirstPresent([if dst.Some? then dst.value.port else None], 0)
      ensures r != 0 ==> dst.Some? && dst.value.port == Some(r)
    {
      if dst.Some? && dst.value.port.Some? && dst.value.port.value != 0 then dst.value.port.value else 0
    }

    /** The `protocol` property: `transport.proto`, or `""` without transport. */
    function Protocol(): (r: Option<string>)
      ensures transport.None? ==> r == Some("")
      ensures transport.Some? ==> r == transport.value.proto
    {
      if transport.Some? then transport.value.proto else Some("")
    }

    /** The `instance_id` property: `meta.customer_id`, or `""` without meta. */
    function InstanceId(): (r: Option<string>)
      ensures meta.None? ==> r == Some("")
      ensures meta.Some? ==> r == meta.value.customerId
    {
      if meta.Some? then meta.value.customerId else Some("")
    }
  }

  /** A flow with no field set: what `Flow.model_validate({})` produces. */
  const EmptyFlow: Flow := Flow(None, None, None, None, None, None, None)

  /** Every convenience property of an empty record falls back to its default. */
  lemma EmptyFlowDefaults()
    ensures EmptyFlow.Bytes() == 0 && EmptyFlow.Packets() == 0
    ensures EmptyFlow.SrcIp() == Some("") && EmptyFlow.DstIp() == Some("")
    ensures EmptyFlow.SrcPort() == 0 && EmptyFlow.DstPort() == 0
    ensures EmptyFlow.Protocol() == Some("") && EmptyFlow.InstanceId() == Some("")
  {
  }

  /** A page of search results for one instance. */
  datatype FlowPage = FlowPage(
    flows: seq<Flow>,
    found: int,
    total: int,
    returned: int,
    currentPage: int,
    pageCount: int,
    hasMore: bool,
    took: int,
    instanceId: string)

  /** The raw flow list of a response slice: the `flows` array, or none. */
  function RawFlows(data: map<string, Json>): seq<Json> {
    if "flows" in data && data["flows"].JArray? then data["flows"].items else []
  }

  /** `data.get(key, default)` read as an integer. */
  function IntField(data: map<string, Json>, key: string, default: int): (r: int)
    ensures key !in data ==> r == default
    ensures key in data && data[key].JInt? ==> r == data[key].i
  {
    if key in data && data[key].JInt? then data[key].i else default
  }

  /** `FlowPage.from_response(data, instance_id)`, with `validate` standing for
      pydantic's `Flow.model_validate`. */
  function FromResponse(data: map<string, Json>, instanceId: string, validate: Json -> Flow): (p: FlowPage)
    ensures |p.flows| == |RawFlows(data)|
    ensures forall i :: 0 <= i < |p.flows| ==> p.flows[i] == validate(RawFlows(data)[i])
    ensures "flows" !in data ==> p.flows == []
    ensures "found" !in data ==> p.found == 0
    ensures "total" !in data ==> p.total == 0
    ensures "returned" !in data ==> p.returned == |p.flows|
    ensures "current_page" !in data ==> p.currentPage == 0
    ensures "pages" !in data ==> p.pageCount == 1
    ensures "more_data_available" !in data ==> !p.hasMore
    ensures "took" !in data ==> p.took == 0
    ensures p.instanceId == instanceId
  {
    var raw := RawFlows(data);
    var flows := seq(|raw|, i requires 0 <= i < |raw| => validate(raw[i]));
    FlowPage(
      flows,
      IntField(data, "found", 0),
      IntField(data, "total", 0),
      IntField(data, "returned", |flows|),
      IntField(data, "current_page", 0),
      IntField(data, "pages", 1),
      Truthy(GetOrDefault(data, "more_data_available", JBool(false))),
      IntField(data, "took", 0),
      instanceId)
  }

  /** The response slice a server would send for `p`, given the raw records
      its flows were validated from. */
  function PageResponse(p: FlowPage, raw: seq<Json>): map<string, Json> {
    map[
      "flows" := JArray(raw),
      "found" := JInt(p.found),
      "total" := JInt(p.total),
      "returned" := JInt(p.returned),
      "current_page" := JInt(p.currentPage),
      "pages" := JInt(p.pageCount),
      "more_data_available" := JBool(p.hasMore),
      "took" := JInt(p.took),
      "instance_id" := JStr("ignored")]
  }

  /** Every page field is read from its own key (`page_count` from `pages`,
      `has_more` from `more_data_available`), each raw record becomes one
      flow in order, and the page's `instance_id` is the argument, never a
      value from the data. */
  lemma FromResponseRoundTrip(p: FlowPage, raw: seq<Json>, validate: Json -> Flow)
    requires |raw| == |p.flows|
    requires forall i :: 0 <= i < |raw| ==> validate(raw[i]) == p.flows[i]
    ensures FromResponse(PageResponse(p, raw), p.instanceId, validate) == p
  {
    var q := FromResponse(PageResponse(p, raw), p.instanceId, validate);
    assert q.flows == p.flows;
  }
}
