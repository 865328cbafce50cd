/** Time-filter and sort value objects of the search request
    (src/prophet/sdk/models.py): their construction-time validation and
    their fixed-shape serialisation into JSON. */
module Models {
  import opened Json
  import opened Http

  /** The unit of a relative filter; one per class `MinutesAgo`, `HoursAgo`,
      `DaysAgo`, `WeeksAgo`. */
  datatype TimeUnit = Minutes | Hours | Days | Weeks {
    /** The `unit` string the class writes into its dictionary. */
    function Name(): string {
      match this
      case Minutes => "minutes"
      case Hours => "hours"
      case Days => "days"
      case Weeks => "weeks"
    }
  }

  /** Reads a unit name back; the inverse of `TimeUnit.Name`. */
  function UnitFromName(s: string): Option<TimeUnit> {
    if s == "minutes" then Some(Minutes)
    else if s == "hours" then Some(Hours)
    else if s == "days" then Some(Days)
    else if s == "weeks" then Some(Weeks)
    else None
  }

  /** A time filter: `Now()`, one of the four relative filters, or `At` built
      from a string. */
  datatype TimeFilter = Now | Ago(value: int, unit: TimeUnit) | At(time: string) {

    /** `to_dict()`: `{"now": true}`, `{"relative": {"value": v, "unit": u}}`
        or `{"absolute": {"date": s}}`. */
    function ToDict(): (r: Json)
      ensures r.JObject? && |r.fields| == 1
      ensures Now? ==> r.fields.Keys == {"now"} && r.fields["now"] == JBool(true)
      ensures Ago? ==> r.fields.Keys == {"relative"} && r.fields["relative"].JObject?
                       && r.fields["relative"].fields.Keys == {"value", "unit"}
                       && r.fields["relative"].fields["value"] == JInt(value)
                       && r.fields["relative"].fields["unit"] == JStr(unit.Name())
      ensures At? ==> r.fields.Keys == {"absolute"} && r.fields["absolute"].JObject?
                      && r.fields["absolute"].fields == map["date" := JStr(time)]
    {
      match this
      case Now => JObject(map["now" := JBool(true)])
      case Ago(v, u) => JObject(map["relative" := JObject(map["value" := JInt(v), "unit" := JStr(u.Name())])])
      case At(s) => JObject(map["absolute" := JObject(map["date" := JStr(s)])])
    }
  }

  /** Construction of `MinutesAgo(v)`, `HoursAgo(v)`, `DaysAgo(v)` or
      `WeeksAgo(v)`: `__post_init__` rejects a value that is not positive. */
  function NewAgo(value: int, unit: TimeUnit): (r: Result<TimeFilter>)
    ensures r.Ok? <==> value > 0
    ensures r.Ok? ==> r.value.Ago? && r.value.value == value && r.value.unit == unit
    ensures r.Err? ==> r.error == ValueError
  {
    if value <= 0 then Err(ValueError) else Ok(Ago(value, unit))
  }

  /** Reads a serialised time filter back; used to show `ToDict` loses nothing. */
  function TimeFilterFromDict(j: Json): Option<TimeFilter> {
    if !j.JObject? then None
    else
      var m := j.fields;
      if m == map["now" := JBool(true)] then Some(Now)
      else if m.Keys == {"relative"} && m["relative"].JObject? then
        var rel := m["relative"].fields;
        if rel.Keys == {"value", "unit"} && rel["value"].JInt? && rel["unit"].JStr?
           && UnitFromName(rel["unit"].s).Some?
        then Some(Ago(rel["value"].i, UnitFromName(rel["unit"].s).value))
        else None
      else if m.Keys == {"absolute"} && m["absolute"].JObject? then
        var abs := m["absolute"].fields;
        if abs.Keys == {"date"} && abs["date"].JStr? then Some(At(abs["date"].s)) else None
      else None
  }

  /** Serialising a time filter is lossless: the value, the unit and the date
      string come back unchanged. */
  lemma {:induction false} TimeFilterRoundTrip(t: TimeFilter)
    ensures TimeFilterFromDict(t.ToDict()) == Some(t)
  {
    match t
    case Now =>
    case Ago(v, u) =>
      var m := t.ToDict().fields;
      assert m != map["now" := JBool(true)] by { assert "now" !in m; }
      assert UnitFromName(u.Name()) == Some(u);
    case At(s) =>
      var m := t.ToDict().fields;
      assert m != map["now" := JBool(true)] by { assert "now" !in m; }
  }

  /** Two time filters with the same dictionary are the same filter. */
  lemma TimeFilterToDictInjective(a: TimeFilter, b: TimeFilter)
    requires a.ToDict() == b.ToDict()
    ensures a == b
  {
    TimeFilterRoundTrip(a);
    TimeFilterRoundTrip(b);
  }

  /** A sort specification; `order` is `"asc"` or `"desc"` once built. */
  datatype Sort = Sort(field: string, order: string) {
    /** `to_dict()`: `{"field": field, "order": order}`. */
    function ToDict(): (r: Json)
      ensures r.JObject? && r.fields.Keys == {"field", "order"}
      ensures r.fields["field"] == JStr(field) && r.fields["order"] == JStr(order)
    {
      JObject(map["field" := JStr(field), "order" := JStr(order)])
    }
  }

  /** The default of `Sort.order`. */
  const DefaultOrder: string := "desc"

  /** `Sort(field, order)`: `__post_init__` accepts only `"asc"` and `"desc"`. */
  function NewSort(field: string, order: string): (r: Result<Sort>)
    ensures r.Ok? <==> order == "asc" || order == "desc"
    ensures r.Ok? ==> r.value.field == field && r.value.order == order
    ensures r.Err? ==> r.error == ValueError
  {
    if order != "asc" && order != "desc" then Err(ValueError) else Ok(Sort(field, order))
  }

  /** `Sort(field)` with the default order always succeeds and sorts descending. */
  lemma DefaultSortIsDescending(field: string)
    ensures NewSort(field, DefaultOrder) == Ok(Sort(field, "desc"))
  {
  }

  /** Reads a serialised sort back. */
  function SortFromDict(j: Json): Option<Sort> {
    if j.JObject? && j.fields.Keys == {"field", "order"}
       && j.fields["field"].JStr? && j.fields["order"].JStr?
    then Some(Sort(j.fields["field"].s, j.fields["order"].s))
    else None
  }

  /** `Sort.to_dict` returns exactly the field and the order it was built with. */
  lemma SortRoundTrip(s: Sort)
    ensures SortFromDict(s.ToDict()) == Some(s)
  {
  }
}
