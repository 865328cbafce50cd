/** The queries the builder's tests build (tests/test_query.py), derived from
    the contracts of `Query.Q` alone. Each scenario states the parts the
    calls leave behind, which `build()` joins with single spaces. */
module QueryExamples {
  import opened Json
  import opened Http
  import opened Query

  lemma DstPortEq443()
    ensures FormatCondition("dst.port", Operator.Eq, One(Int(443))) == "dst.port eq 443"
  {
    assert NatToDecimal(4) == "4";
    assert NatToDecimal(44) == NatToDecimal(4) + "4";
    assert NatToDecimal(443) == NatToDecimal(44) + "3";
  }

  lemma DstPortEq80()
    ensures FormatCondition("dst.port", Operator.Eq, One(Int(80))) == "dst.port eq 80"
  {
    assert NatToDecimal(80) == NatToDecimal(8) + "0";
  }

  lemma BytesGt0()
    ensures FormatCondition("bytes", Operator.Gt, One(Int(0))) == "bytes gt 0"
  {
  }

  lemma BytesGt1000()
    ensures FormatCondition("bytes", Operator.Gt, One(Int(1000))) == "bytes gt 1000"
  {
    assert NatToDecimal(10) == NatToDecimal(1) + "0";
    assert NatToDecimal(100) == NatToDecimal(10) + "0";
    assert NatToDecimal(1000) == NatToDecimal(100) + "0";
  }

  lemma ProtocolEq()
    ensures FormatCondition("protocol", Operator.Eq, One(Str("tcp"))) == "protocol eq tcp"
    ensures FormatCondition("protocol", Operator.Eq, One(Str("udp"))) == "protocol eq udp"
  {
  }

  /** `Q("dst.port").eq(443).and_("bytes").gt(1000)`. */
  method AndExample() returns (parts: seq<string>)
    ensures parts == ["dst.port eq 443", "and", "bytes gt 1000"]
  {
    DstPortEq443();
    BytesGt1000();
    var q := new Q(Some("dst.port"));
    var r := q.Eq(Int(443));
    assert q.parts == ["dst.port eq 443"] && q.pendingField.None?;
    q.And(Some("bytes"));
    r := q.Gt(Int(1000));
    parts := q.parts;
  }

  /** `Q("dst.port").eq(443).or_("dst.port").eq(80)`. */
  method EitherPort() returns (q: Q)
    ensures fresh(q)
    ensures q.parts == ["dst.port eq 443", "or", "dst.port eq 80"]
    ensures q.pendingConjunction.None? && q.pendingField.None?
  {
    DstPortEq443();
    DstPortEq80();
    q := new Q(Some("dst.port"));
    var r := q.Eq(Int(443));
    assert q.parts == ["dst.port eq 443"] && q.pendingField.None?;
    q.Or(Some("dst.port"));
    r := q.Eq(Int(80));
  }

  /** `Q("dst.port").eq(443).or_("dst.port").eq(80).and_("bytes").gt(0)`:
      parts keep call order, with no precedence regrouping. */
  method MixedAndOrExample() returns (parts: seq<string>)
    ensures parts == ["dst.port eq 443", "or", "dst.port eq 80", "and", "bytes gt 0"]
  {
    var q := EitherPort();
    q.And(Some("bytes"));
    var r := q.Gt(Int(0));
    BytesGt0();
    parts := q.parts;
  }

  /** `Q("protocol").in_(["tcp", "udp"])`. */
  method InListExample() returns (s: string)
    ensures s == "protocol in [tcp, udp]"
  {
    var q := new Q(Some("protocol"));
    var r := q.InList([Str("tcp"), Str("udp")]);
    assert FormatValues([Str("tcp"), Str("udp")]) == ["tcp", "udp"];
    s := q.Build();
  }

  /** `Q("app_name").exists()` and `Q("hostname").not_wildcard("*test*")`. */
  method UnaryAndWildcardExample() returns (s: string, t: string)
    ensures s == "app_name ex"
    ensures t == "hostname nwi *test*"
  {
    var q := new Q(Some("app_name"));
    var r := q.Exists();
    s := q.Build();
    var w := new Q(Some("hostname"));
    r := w.NotWildcard("*test*");
    t := w.Build();
  }

  /** `inner = Q("protocol").eq("tcp").or_("protocol").eq("udp")`. */
  method Inner() returns (inner: Q)
    ensures fresh(inner)
    ensures inner.parts == ["protocol eq tcp", "or", "protocol eq udp"]
  {
    inner := new Q(Some("protocol"));
    var r := inner.Eq(Str("tcp"));
    ProtocolEq();
    inner.Or(Some("protocol"));
    assert inner.parts == ["protocol eq tcp"];
    r := inner.Eq(Str("udp"));
  }

  /** `Q.group(inner).and_("dst.port").eq(443)`: the inner query becomes one
      parenthesised part. */
  method GroupExample() returns (parts: seq<string>)
    ensures parts == ["(" + Join(["protocol eq tcp", "or", "protocol eq udp"], " ") + ")", "and", "dst.port eq 443"]
  {
    var inner := Inner();
    var g := Group(inner);
    g.And(Some("dst.port"));
    var r := g.Eq(Int(443));
    DstPortEq443();
    parts := g.parts;
  }

  /** `Q("dst.port").eq(443).and_().add_group(inner)`. */
  method AddGroupExample() returns (parts: seq<string>)
    ensures parts == ["dst.port eq 443", "and", "(" + Join(["protocol eq tcp", "or", "protocol eq udp"], " ") + ")"]
  {
    var inner := Inner();
    var h := new Q(Some("dst.port"));
    var r := h.Eq(Int(443));
    DstPortEq443();
    h.And(None);
    assert h.parts == ["dst.port eq 443"] && h.pendingConjunction == Some(Conjunction.And);
    h.AddGroup(inner);
    parts := h.parts;
  }

  /** `Q().eq(443)` raises `ValueError` and leaves the query empty. */
  method NoFieldExample() returns (r: Outcome, empty: bool)
    ensures r == Fail(ValueError) && empty
  {
    var q := new Q(None);
    r := q.Eq(Int(443));
    empty := q.IsEmpty();
  }

  /** A conjunction given before the first part stays pending and is emitted
      before the next part that follows a non-empty list:
      `Q().and_("a").eq(1).add_group(Q.raw("b ex"))`. */
  method LateConjunctionExample() returns (parts: seq<string>)
    ensures parts == ["a eq 1", "and", "(b ex)"]
  {
    var q := new Q(None);
    q.And(Some("a"));
    var r := q.Eq(Int(1));
    assert FormatCondition("a", Operator.Eq, One(Int(1))) == "a eq 1";
    assert q.parts == ["a eq 1"] && q.pendingConjunction == Some(Conjunction.And);
    var b := Raw("b ex");
    q.AddGroup(b);
    assert "(" + "b ex" + ")" == "(b ex)";
    parts := q.parts;
  }
}
