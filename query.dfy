/** The fluent PQL query builder (src/prophet/sdk/query.py). A `Q` keeps an
    ordered list of already rendered parts, a pending conjunction and a
    pending field; its output is the parts joined by single spaces. */
module Query {
  import opened Json
  import opened Http

  /** The closed set of PQL operators. */
  datatype Operator = Eq | Ne | Gt | Lt | Gte | Lte | Ex | Nex | In | Wi | Nwi {
    /** The operator's wire text (`Operator.value`). */
    function Text(): string {
      match this
      case Eq => "eq"
      case Ne => "ne"
      case Gt => "gt"
      case Lt => "lt"
      case Gte => "gte"
      case Lte => "lte"
      case Ex => "ex"
      case Nex => "nex"
      case In => "in"
      case Wi => "wi"
      case Nwi => "nwi"
    }
  }

  /** Reads an operator's wire text back. */
  function OperatorFromText(s: string): Option<Operator> {
    if s == "eq" then Some(Eq) else if s == "ne" then Some(Ne)
    else if s == "gt" then Some(Gt) else if s == "lt" then Some(Lt)
    else if s == "gte" then Some(Gte) else if s == "lte" then Some(Lte)
    else if s == "ex" then Some(Ex) else if s == "nex" then Some(Nex)
    else if s == "in" then Some(In) else if s == "wi" then Some(Wi)
    else if s == "nwi" then Some(Nwi) else None
  }

  /** Every operator has its own wire text. */
  lemma OperatorTextRoundTrip(op: Operator)
    ensures OperatorFromText(op.Text()) == Some(op)
  {
  }

  /** The two conjunctions `and_` and `or_` leave pending. */
  datatype Conjunction = And | Or {
    function Text(): string {
      match this
      case And => "and"
      case Or => "or"
    }
  }

  /** A condition value: a string or an integer. */
  datatype Value = Str(s: string) | Int(i: int)

  /** The argument an operator method passes on: none (`ex`, `nex`), a list
      (`in`), or one value (every other operator). */
  datatype Arg = NoArg | One(value: Value) | Many(values: seq<Value>)

  /** Whether `arg` has the shape the operator methods give `op`. */
  predicate Fits(op: Operator, arg: Arg) {
    match op
    case Ex => arg.NoArg?
    case Nex => arg.NoArg?
    case In => arg.Many?
    case _ => arg.One?
  }

  // ---------------------------------------------------------------------
  // Python's `str(int)`: decimal digits with a leading minus sign.
  // ---------------------------------------------------------------------

  function DigitChar(d: nat): (c: char)
    requires d < 10
    ensures '0' <= c <= '9'
    ensures (c as int) - ('0' as int) == d
  {
    (('0' as int) + d) as char
  }

  function NatToDecimal(n: nat): (r: string)
    ensures |r| >= 1
    ensures forall k :: 0 <= k < |r| ==> '0' <= r[k] <= '9'
  {
    if n < 10 then [DigitChar(n)] else NatToDecimal(n / 10) + [DigitChar(n % 10)]
  }

  function IntToDecimal(i: int): (r: string)
    ensures |r| >= 1
  {
    if i < 0 then "-" + NatToDecimal(-i) else NatToDecimal(i)
  }

  /** Reads a string of decimal digits back. */
  function DecimalToNat(s: string): nat
    requires forall k :: 0 <= k < |s| ==> '0' <= s[k] <= '9'
  {
    if s == [] then 0 else DecimalToNat(s[..|s| - 1]) * 10 + ((s[|s| - 1] as int) - ('0' as int))
  }

  /** Reads the output of `IntToDecimal` back. */
  function ParseInt(s: string): int {
    if |s| >= 1 && s[0] == '-' && (forall k :: 1 <= k < |s| ==> '0' <= s[k] <= '9')
    then 0 - (DecimalToNat(s[1..]) as int)
    else if forall k :: 0 <= k < |s| ==> '0' <= s[k] <= '9' then DecimalToNat(s)
    else 0
  }

  lemma {:induction false} NatDecimalRoundTrip(n: nat)
    ensures DecimalToNat(NatToDecimal(n)) == n
  {
    var r := NatToDecimal(n);
    if n >= 10 {
      NatDecimalRoundTrip(n / 10);
      assert r[..|r| - 1] == NatToDecimal(n / 10);
    }
  }

  lemma ParseNegative(d: string)
    requires forall k :: 0 <= k < |d| ==> '0' <= d[k] <= '9'
    ensures ParseInt("-" + d) == 0 - (DecimalToNat(d) as int)
  {
    var s := "-" + d;
    assert s[1..] == d;
    assert forall k :: 1 <= k < |s| ==> s[k] == d[k - 1];
  }

  lemma ParseDigits(d: string)
    requires |d| >= 1
    requires forall k :: 0 <= k < |d| ==> '0' <= d[k] <= '9'
    ensures ParseInt(d) == DecimalToNat(d)
  {
    assert d[0] != '-';
  }

  /** Decimal digits as `str` prints them: at least one, and no leading
      zero unless the number is zero. */
  predicate CanonicalDigits(d: string) {
    && |d| >= 1
    && (forall k :: 0 <= k < |d| ==> '0' <= d[k] <= '9')
    && (d[0] == '0' ==> |d| == 1)
  }

  /** The digits of a natural number are canonical, and start with '0'
      only for zero. */
  lemma {:induction false} NatDecimalCanonical(n: nat)
    ensures CanonicalDigits(NatToDecimal(n))
    ensures NatToDecimal(n)[0] == '0' <==> n == 0
  {
    if n >= 10 {
      NatDecimalCanonical(n / 10);
      assert NatToDecimal(n)[0] == NatToDecimal(n / 10)[0];
    }
  }

  /** Digits that do not start with '0' denote a positive number. */
  lemma {:induction false} LeadingDigitPositive(d: string)
    requires |d| >= 1 && d[0] != '0'
    requires forall k :: 0 <= k < |d| ==> '0' <= d[k] <= '9'
    ensures DecimalToNat(d) >= 1
  {
    var init := d[..|d| - 1];
    if |d| >= 2 {
      assert init[0] == d[0];
      LeadingDigitPositive(init);
    } else {
      assert init == [];
    }
  }

  /** Appending digit `x` to the number `a` can be undone by `/ 10` and `% 10`. */
  lemma LastDigitSplit(a: nat, x: nat)
    requires x < 10
    ensures (a * 10 + x) / 10 == a && (a * 10 + x) % 10 == x
  {
  }

  /** A canonical digit string is the only one: it is exactly what
      `NatToDecimal` prints for the number it denotes. */
  lemma {:induction false} CanonicalDigitsUnique(d: string)
    requires CanonicalDigits(d)
    ensures NatToDecimal(DecimalToNat(d)) == d
    decreases |d|
  {
    var init, last := d[..|d| - 1], d[|d| - 1];
    var x: nat := (last as int) - ('0' as int);
    assert DigitChar(x) == last by {
      assert DigitChar(x) as int == last as int;
    }
    if |d| == 1 {
      assert init == [];
      assert DecimalToNat(d) == x;
      assert [last] == d;
    } else {
      assert init[0] == d[0];
      CanonicalDigitsUnique(init);
      LeadingDigitPositive(init);
      var a := DecimalToNat(init);
      var n := a * 10 + x;
      assert DecimalToNat(d) == n;
      LastDigitSplit(a, x);
      assert NatToDecimal(n) == NatToDecimal(a) + [DigitChar(x)];
      assert init + [last] == d;
    }
  }

  /** `str(i)`: a '-' exactly for a negative number, then canonical digits. */
  lemma IntDecimalCanonical(i: int)
    ensures |IntToDecimal(i)| >= 1
    ensures IntToDecimal(i)[0] == '-' <==> i < 0
    ensures CanonicalDigits(if i < 0 then IntToDecimal(i)[1..] else IntToDecimal(i))
  {
    var n: nat := if i < 0 then -i else i;
    NatDecimalCanonical(n);
    if i < 0 {
      assert IntToDecimal(i)[1..] == NatToDecimal(n);
    }
  }

  /** Rendering an integer loses nothing: the text reads back as the same number. */
  lemma {:induction false} IntDecimalRoundTrip(i: int)
    ensures ParseInt(IntToDecimal(i)) == i
  {
    var n: nat := if i < 0 then -i else i;
    var d := NatToDecimal(n);
    NatDecimalRoundTrip(n);
    if i < 0 {
      assert IntToDecimal(i) == "-" + d;
      ParseNegative(d);
    } else {
      assert IntToDecimal(i) == d;
      ParseDigits(d);
    }
  }

  // ---------------------------------------------------------------------
  // Rendering
  // ---------------------------------------------------------------------

  /** Python's `sep.join(parts)`. */
  function Join(parts: seq<string>, sep: string): string {
    if parts == [] then ""
    else if |parts| == 1 then parts[0]
    else parts[0] + sep + Join(parts[1..], sep)
  }

  /** Appending a part adds exactly one separator and the part at the end. */
  lemma {:induction false} JoinAppend(parts: seq<string>, p: string, sep: string)
    ensures Join(parts + [p], sep) == if parts == [] then p else Join(parts, sep) + sep + p
  {
    if |parts| >= 2 {
      JoinAppend(parts[1..], p, sep);
      assert (parts + [p])[1..] == parts[1..] + [p];
    } else if |parts| == 1 {
      assert (parts + [p])[1..] == [p];
    }
  }

  /** `_format_value`: strings go out unquoted, integers through `str`. */
  function FormatValue(v: Value): (r: string)
    ensures v.Str? ==> r == v.s
    ensures v.Int? ==> ParseInt(r) == v.i
  {
    match v
    case Str(s) => s
    case Int(i) => IntDecimalRoundTrip(i); IntToDecimal(i)
  }

  /** An integer is rendered in the one text `str` gives it: a '-' exactly
      when negative, then canonical digits. With `ParseInt` reading it back
      as the same number, this fixes the text. */
  lemma FormatValueCanonical(v: Value)
    requires v.Int?
    ensures var r := FormatValue(v);
      && |r| >= 1 && (r[0] == '-' <==> v.i < 0)
      && CanonicalDigits(if v.i < 0 then r[1..] else r)
      && NatToDecimal(DecimalToNat(if v.i < 0 then r[1..] else r)) == (if v.i < 0 then r[1..] else r)
  {
    IntDecimalCanonical(v.i);
    var d := if v.i < 0 then FormatValue(v)[1..] else FormatValue(v);
    CanonicalDigitsUnique(d);
  }

  /** `_format_value` applied to every list element. */
  function FormatValues(vs: seq<Value>): (r: seq<string>)
    ensures |r| == |vs|
    ensures forall k :: 0 <= k < |vs| ==> r[k] == FormatValue(vs[k])
  {
    if vs == [] then [] else [FormatValue(vs[0])] + FormatValues(vs[1..])
  }

  /** `_format_condition`: `"field op"` for `ex`/`nex`, `"field in [v1, v2]"`
      for `in`, `"field op value"` otherwise. */
  function FormatCondition(field: string, op: Operator, arg: Arg): (r: string)
    requires Fits(op, arg)
    ensures op == Ex || op == Nex ==> r == field + " " + op.Text()
    ensures op == In ==> r == field + " in [" + Join(FormatValues(arg.values), ", ") + "]"
    ensures op != Ex && op != Nex && op != In ==> r == field + " " + op.Text() + " " + FormatValue(arg.value)
  {
    if op == Ex || op == Nex then field + " " + op.Text()
    else if op == In then field + " " + op.Text() + " [" + Join(FormatValues(arg.values), ", ") + "]"
    else field + " " + op.Text() + " " + FormatValue(arg.value)
  }

  /** The builder. */
  class Q {
    var parts: seq<string>
    var pendingConjunction: Option<Conjunction>
    var pendingField: Option<string>

    /** `Q(field)`: no parts, nothing pending but the optional field. */
    constructor (field: Option<string>)
      ensures parts == [] && pendingConjunction == None && pendingField == field
      ensures IsEmpty() && Build() == ""
    {
      parts := [];
      pendingConjunction := None;
      pendingField := field;
    }

    /** `build()`: the parts joined by single spaces. */
    function Build(): string
      reads this
    {
      Join(parts, " ")
    }

    /** `is_empty()`: no part has been added. */
    predicate IsEmpty()
      reads this
    {
      |parts| == 0
    }

    /** The parts after a pending conjunction has been emitted: it is emitted
        only when one is pending and parts is non-empty. */
    function Flushed(): seq<string>
      reads this
    {
      if pendingConjunction.Some? && parts != [] then parts + [pendingConjunction.value.Text()] else parts
    }

    /** The pending conjunction after a flush: cleared only when emitted. */
    function ConjunctionAfterFlush(): Option<Conjunction>
      reads this
    {
      if pendingConjunction.Some? && parts != [] then None else pendingConjunction
    }

    /** `_add_condition`: flush the pending conjunction, then append the
        rendered condition as exactly one part. */
    twostate predicate ConditionAdded(field: string, op: Operator, arg: Arg)
      requires Fits(op, arg)
      reads this
    {
      && parts == old(Flushed()) + [FormatCondition(field, op, arg)]
      && pendingConjunction == old(ConjunctionAfterFlush())
    }

    /** What an operator method does: with no pending field it raises
        `ValueError` and changes nothing; otherwise it adds the condition on
        the pending field and clears that field. */
    twostate predicate OperatorApplied(op: Operator, arg: Arg, r: Outcome)
      requires Fits(op, arg)
      reads this
    {
      if old(pendingField).None? then
        && r == Fail(ValueError)
        && parts == old(parts)
        && pendingConjunction == old(pendingConjunction)
        && pendingField == old(pendingField)
      else
        && r == Pass
        && ConditionAdded(old(pendingField).value, op, arg)
        && pendingField.None?
    }

    method AddCondition(field: string, op: Operator, arg: Arg)
      requires Fits(op, arg)
      modifies this
      ensures ConditionAdded(field, op, arg)
      ensures pendingField == old(pendingField)
      ensures Build() == if old(parts) == [] then FormatCondition(field, op, arg)
                         else old(Build()) + (if old(pendingConjunction).Some? then " " + old(pendingConjunction).value.Text() else "")
                              + " " + FormatCondition(field, op, arg)
    {
      if pendingConjunction.Some? && parts != [] {
        JoinAppend(parts, pendingConjunction.value.Text(), " ");
        parts := parts + [pendingConjunction.value.Text()];
        pendingConjunction := None;
      }
      var condition := FormatCondition(field, op, arg);
      JoinAppend(parts, condition, " ");
      parts := parts + [condition];
    }

    /** The shared body of the eleven operator methods. */
    method Apply(op: Operator, arg: Arg) returns (r: Outcome)
      requires Fits(op, arg)
      modifies this
      ensures OperatorApplied(op, arg, r)
    {
      if pendingField.None? {
        return Fail(ValueError);
      }
      AddCondition(pendingField.value, op, arg);
      pendingField := None;
      r := Pass;
    }

    method Eq(value: Value) returns (r: Outcome)
      modifies this
      ensures OperatorApplied(Operator.Eq, One(value), r)
    {
      r := Apply(Operator.Eq, One(value));
    }

    method Ne(value: Value) returns (r: Outcome)
      modifies this
      ensures OperatorApplied(Operator.Ne, One(value), r)
    {
      r := Apply(Operator.Ne, One(value));
    }

    method Gt(value: Value) returns (r: Outcome)
      modifies this
      ensures OperatorApplied(Operator.Gt, One(value), r)
    {
      r := Apply(Operator.Gt, One(value));
    }

    method Lt(value: Value) returns (r: Outcome)
      modifies this
      ensures OperatorApplied(Operator.Lt, One(value), r)
    {
      r := Apply(Operator.Lt, One(value));
    }

    method Gte(value: Value) returns (r: Outcome)
      modifies this
      ensures OperatorApplied(Operator.Gte, One(value), r)
    {
      r := Apply(Operator.Gte, One(value));
    }

    method Lte(value: Value) returns (r: Outcome)
      modifies this
      ensures OperatorApplied(Operator.Lte, One(value), r)
    {
      r := Apply(Operator.Lte, One(value));
    }

    method Exists() returns (r: Outcome)
      modifies this
      ensures OperatorApplied(Operator.Ex, NoArg, r)
    {
      r := Apply(Operator.Ex, NoArg);
    }

    method NotExists() returns (r: Outcome)
      modifies this
      ensures OperatorApplied(Operator.Nex, NoArg, r)
    {
      r := Apply(Operator.Nex, NoArg);
    }

    method InList(values: seq<Value>) returns (r: Outcome)
      modifies this
      ensures OperatorApplied(Operator.In, Many(values), r)
    {
      r := Apply(Operator.In, Many(values));
    }

    method Wildcard(pattern: string) returns (r: Outcome)
      modifies this
      ensures OperatorApplied(Operator.Wi, One(Str(pattern)), r)
    {
      r := Apply(Operator.Wi, One(Str(pattern)));
    }

    method NotWildcard(pattern: string) returns (r: Outcome)
      modifies this
      ensures OperatorApplied(Operator.Nwi, One(Str(pattern)), r)
    {
      r := Apply(Operator.Nwi, One(Str(pattern)));
    }

    /** `and_(field)`: overwrite the pending conjunction; replace the pending
        field only when a non-empty name is given. */
    method And(field: Option<string>)
      modifies this
      ensures parts == old(parts)
      ensures pendingConjunction == Some(Conjunction.And)
      ensures pendingField == if field.Some? && field.value != "" then field else old(pendingField)
    {
      pendingConjunction := Some(Conjunction.And);
      if field.Some? && field.value != "" {
        pendingField := field;
      }
    }

    /** `or_(field)`. */
    method Or(field: Option<string>)
      modifies this
      ensures parts == old(parts)
      ensures pendingConjunction == Some(Conjunction.Or)
      ensures pendingField == if field.Some? && field.value != "" then field else old(pendingField)
    {
      pendingConjunction := Some(Conjunction.Or);
      if field.Some? && field.value != "" {
        pendingField := field;
      }
    }

    /** `add_group(query)`: flush the pending conjunction, then append the
        other query's output in parentheses as one part. The other query is
        built after the flush, which matters when it is this query itself. */
    method AddGroup(query: Q)
      modifies this
      ensures parts == old(Flushed()) + ["(" + (if query == this then Join(old(Flushed()), " ") else old(query.Build())) + ")"]
      ensures pendingConjunction == old(ConjunctionAfterFlush())
      ensures pendingField == old(pendingField)
    {
      if pendingConjunction.Some? && parts != [] {
        parts := parts + [pendingConjunction.value.Text()];
        pendingConjunction := None;
      }
      var inner := query.Build();
      parts := parts + ["(" + inner + ")"];
    }

    /** `_get_field_builder(name)`. */
    method GetFieldBuilder(name: string) returns (b: FieldBuilder)
      ensures fresh(b) && b.field == name && b.parent == this
    {
      b := new FieldBuilder(name, this);
    }
  }

  /** `Q.group(query)`: a new query whose only part is the other query's
      output in parentheses. */
  method Group(query: Q) returns (q: Q)
    ensures fresh(q)
    ensures q.parts == ["(" + query.Build() + ")"]
    ensures q.pendingConjunction.None? && q.pendingField.None?
  {
    q := new Q(None);
    q.parts := q.parts + ["(" + query.Build() + ")"];
  }

  /** `Q.raw(pql)`: a new query whose only part is the given text. */
  method Raw(pql: string) returns (q: Q)
    ensures fresh(q)
    ensures q.parts == [pql] && q.Build() == pql
    ensures q.pendingConjunction.None? && q.pendingField.None?
  {
    q := new Q(None);
    q.parts := q.parts + [pql];
  }

  /** `_FieldBuilder`: the condition methods on a fixed field. Unlike the
      methods of `Q` they need no pending field and leave it as it is. */
  class FieldBuilder {
    const field: string
    const parent: Q

    constructor (field: string, parent: Q)
      ensures this.field == field && this.parent == parent
    {
      this.field := field;
      this.parent := parent;
    }

    method Eq(value: Value)
      modifies parent
      ensures parent.ConditionAdded(field, Operator.Eq, One(value))
      ensures parent.pendingField == old(parent.pendingField)
    {
      parent.AddCondition(field, Operator.Eq, One(value));
    }

    method Ne(value: Value)
      modifies parent
      ensures parent.ConditionAdded(field, Operator.Ne, One(value))
      ensures parent.pendingField == old(parent.pendingField)
    {
      parent.AddCondition(field, Operator.Ne, One(value));
    }

    method Gt(value: Value)
      modifies parent
      ensures parent.ConditionAdded(field, Operator.Gt, One(value))
      ensures parent.pendingField == old(parent.pendingField)
    {
      parent.AddCondition(field, Operator.Gt, One(value));
    }

    method Lt(value: Value)
      modifies parent
      ensures parent.ConditionAdded(field, Operator.Lt, One(value))
      ensures parent.pendingField == old(parent.pendingField)
    {
      parent.AddCondition(field, Operator.Lt, One(value));
    }

    method Gte(value: Value)
      modifies parent
      ensures parent.ConditionAdded(field, Operator.Gte, One(value))
      ensures parent.pendingField == old(parent.pendingField)
    {
      parent.AddCondition(field, Operator.Gte, One(value));
    }

    method Lte(value: Value)
      modifies parent
      ensures parent.ConditionAdded(field, Operator.Lte, One(value))
      ensures parent.pendingField == old(parent.pendingField)
    {
      parent.AddCondition(field, Operator.Lte, One(value));
    }

    method Exists()
      modifies parent
      ensures parent.ConditionAdded(field, Operator.Ex, NoArg)
      ensures parent.pendingField == old(parent.pendingField)
    {
      parent.AddCondition(field, Operator.Ex, NoArg);
    }

    method NotExists()
      modifies parent
      ensures parent.ConditionAdded(field, Operator.Nex, NoArg)
      ensures parent.pendingField == old(parent.pendingField)
    {
      parent.AddCondition(field, Operator.Nex, NoArg);
    }

    method InList(values: seq<Value>)
      modifies parent
      ensures parent.ConditionAdded(field, Operator.In, Many(values))
      ensures parent.pendingField == old(parent.pendingField)
    {
      parent.AddCondition(field, Operator.In, Many(values));
    }

    method Wildcard(pattern: string)
      modifies parent
      ensures parent.ConditionAdded(field, Operator.Wi, One(Str(pattern)))
      ensures parent.pendingField == old(parent.pendingField)
    {
      parent.AddCondition(field, Operator.Wi, One(Str(pattern)));
    }

    method NotWildcard(pattern: string)
      modifies parent
      ensures parent.ConditionAdded(field, Operator.Nwi, One(Str(pattern)))
      ensures parent.pendingField == old(parent.pendingField)
    {
      parent.AddCondition(field, Operator.Nwi, One(Str(pattern)));
    }
  }
}
