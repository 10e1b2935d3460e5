/**
 * The search-expression builder: filters, nested filters and expressions
 * are `ApiObject`s whose constructors store the operator enums' string
 * values and the boto form of their children, and whose `to_boto` converts
 * their attributes with `ApiObject`'s own (empty) tables, dropping `None`.
 */
module Search {
  import opened Py
  import opened BaseTypes
  import ApiTypes

  /** The search operators. */
  datatype Operator =
    | Equals | NotEquals | GreaterThan | GreaterThanOrEqual | LessThan | LessThanOrEqual
    | Contains | Exists | NotExists

  /** `Operator.value`. */
  function OperatorValue(op: Operator): string {
    match op
    case Equals => "Equals"
    case NotEquals => "NotEquals"
    case GreaterThan => "GreaterThan"
    case GreaterThanOrEqual => "GreaterThanOrEqualTo"
    case LessThan => "LessThan"
    case LessThanOrEqual => "LessThanOrEqualTo"
    case Contains => "Contains"
    case Exists => "Exists"
    case NotExists => "NotExists"
  }

  datatype BooleanOperator = And | Or

  /** `BooleanOperator.value`. */
  function BooleanOperatorValue(op: BooleanOperator): string {
    match op
    case And => "And"
    case Or => "Or"
  }

  /** The enums are `@unique`: distinct members have distinct values, and the two enums share none. */
  lemma EnumValuesDistinct(a: Operator, b: Operator, x: BooleanOperator, y: BooleanOperator)
    ensures OperatorValue(a) == OperatorValue(b) <==> a == b
    ensures BooleanOperatorValue(x) == BooleanOperatorValue(y) <==> x == y
    ensures OperatorValue(a) != BooleanOperatorValue(x)
  {
  }

  // ---------------------------------------------------------------------------
  // The classes

  const SearchObjectClasses := {"SearchObject", "Filter", "NestedFilter", "SearchExpression"}

  function SearchClass(name: string): (c: ApiClass)
    ensures c.name == name && name in c.ancestors && c.customNames == map[] && c.customTypes == map[]
  {
    ApiClass(name, {name, "SearchObject", "ApiObject"}, Generic, map[], map[], {})
  }

  /** `ApiObject` and the search classes. */
  const Classes: Registry := map[
    "ApiObject" := ApiTypes.ApiObjectClass,
    "SearchObject" := ApiClass("SearchObject", {"SearchObject", "ApiObject"}, Generic, map[], map[], {}),
    "Filter" := SearchClass("Filter"),
    "NestedFilter" := SearchClass("NestedFilter"),
    "SearchExpression" := SearchClass("SearchExpression")]

  lemma ClassesWellFormed(codec: NameCodec)
    requires Bijective(codec)
    ensures WellFormed(Classes, codec)
  {
    assert forall c :: c in Classes ==> Classes[c].name == c && c in Classes[c].ancestors && Classes[c].customNames == map[];
    assert forall c :: c in Classes ==> Classes[c].customTypes == map[];
    ApiTypes.PlainRegistryWellFormed(Classes, codec);
  }

  /**
   * `x.to_boto()` for a child: a search object converts its attributes with
   * `ApiObject.to_boto`; any other `ApiObject` lacks the instance method's
   * argument (a TypeError); anything else has no `to_boto` at all.
   */
  function ChildToBoto(codec: NameCodec, x: Value): (r: Result<Value>)
    requires WellFormed(Classes, codec)
    ensures x.ObjV? && x.cls in SearchObjectClasses ==> r == ToBoto(Classes, codec, "ApiObject", x)
    ensures !(x.ObjV? && x.cls in SearchObjectClasses) ==> r.Failure?
  {
    if x.ObjV? && x.cls in SearchObjectClasses then ToBoto(Classes, codec, "ApiObject", x)
    else if x.ObjV? then Failure(TypeError("to_boto() missing 1 required positional argument: 'obj'"))
    else Failure(AttributeError("object has no attribute 'to_boto'"))
  }

  /** `list(map(lambda x: x.to_boto(), xs))`: the children converted in order, failing at the first that cannot be. */
  function ChildrenToBoto(codec: NameCodec, xs: seq<Value>): (r: Result<seq<Value>>)
    requires WellFormed(Classes, codec)
    ensures r.Success? <==> forall i :: 0 <= i < |xs| ==> ChildToBoto(codec, xs[i]).Success?
    ensures r.Success? ==> |r.value| == |xs| && forall i :: 0 <= i < |xs| ==> r.value[i] == ChildToBoto(codec, xs[i]).value
    ensures r.Failure? ==> exists i :: 0 <= i < |xs| && ChildToBoto(codec, xs[i]) == Failure(r.error)
                                       && forall j :: 0 <= j < i ==> ChildToBoto(codec, xs[j]).Success?
  {
    MapResult((x: Value) requires WellFormed(Classes, codec) => ChildToBoto(codec, x), xs)
  }

  /** Every search object converts: its non-None attributes under their boto names, values unchanged. */
  lemma SearchObjectWire(codec: NameCodec, x: Value)
    requires WellFormed(Classes, codec) && Bijective(codec) && x.ObjV?
    ensures ToBoto(Classes, codec, "ApiObject", x).Success?
    ensures var d := ToBoto(Classes, codec, "ApiObject", x).value;
      && d.DictV?
      && d.entries.Keys == (set m | m in x.attrs && x.attrs[m] != NoneV :: codec.toBoto(m))
      && (forall m :: m in x.attrs && x.attrs[m] != NoneV ==> d.entries[codec.toBoto(m)] == x.attrs[m])
  {
    var c := Classes["ApiObject"];
    assert c.customTypes == map[] && c.customNames == map[] && c.conversion.Generic?;
    assert forall m | m in x.attrs && x.attrs[m] != NoneV :: ToBotoMember(Classes, codec, "ApiObject", m, x.attrs[m]) == Success(x.attrs[m]);
    assert ToBotoVars(Classes, codec, "ApiObject", x) == Success(ToBotoEntries(Classes, codec, "ApiObject", x));
  }

  // ---------------------------------------------------------------------------
  // Constructors

  /** `Filter(name, operator, value)`: the operator is stored as its string value, or None. */
  function NewFilter(name: Value, operator: Option<Operator>, value: Value): (f: Value)
    ensures f.ObjV? && f.cls == "Filter" && f.attrs.Keys == {"name", "operator", "value"}
    ensures f.attrs["name"] == name && f.attrs["value"] == value
    ensures operator.None? <==> f.attrs["operator"] == NoneV
    ensures operator.Some? ==> f.attrs["operator"] == StrV(OperatorValue(operator.value))
  {
    ObjV("Filter", map[
      "name" := name,
      "operator" := if operator.None? then NoneV else StrV(OperatorValue(operator.value)),
      "value" := value])
  }

  /** `NestedFilter(property_name, filters)`: the property name and the boto form of each filter. */
  function NewNestedFilter(codec: NameCodec, propertyName: Value, filters: seq<Value>): (r: Result<Value>)
    requires WellFormed(Classes, codec)
    ensures r.Success? <==> ChildrenToBoto(codec, filters).Success?
    ensures r.Success? ==>
      && r.value.ObjV? && r.value.cls == "NestedFilter" && r.value.attrs.Keys == {"nested_property_name", "filters"}
      && r.value.attrs["nested_property_name"] == propertyName
      && r.value.attrs["filters"] == ListV(ChildrenToBoto(codec, filters).value)
  {
    match ChildrenToBoto(codec, filters)
    case Failure(e) => Failure(e)
    case Success(bs) => Success(ObjV("NestedFilter", map["nested_property_name" := propertyName, "filters" := ListV(bs)]))
  }

  const NothingToSearch := ValueError("You must specify at least one subexpression, filter, or nested filter")

  /** An optional child list in boto form: None stays None. */
  function OptionalChildren(codec: NameCodec, xs: Option<seq<Value>>): (r: Result<Value>)
    requires WellFormed(Classes, codec)
    ensures xs.None? ==> r == Success(NoneV)
    ensures xs.Some? ==> (r.Success? <==> ChildrenToBoto(codec, xs.value).Success?)
    ensures xs.Some? && r.Success? ==> r.value == ListV(ChildrenToBoto(codec, xs.value).value)
  {
    if xs.None? then Success(NoneV)
    else
      match ChildrenToBoto(codec, xs.value)
      case Failure(e) => Failure(e)
      case Success(bs) => Success(ListV(bs))
  }

  /**
   * `SearchExpression(filters, nested_filters, sub_expressions, boolean_operator)`:
   * at least one of the three lists must be given (an empty list counts);
   * each given list is stored in boto form and the operator as its string.
   */
  function NewSearchExpression(codec: NameCodec, filters: Option<seq<Value>>, nestedFilters: Option<seq<Value>>,
                               subExpressions: Option<seq<Value>>, booleanOperator: BooleanOperator := And): (r: Result<Value>)
    requires WellFormed(Classes, codec)
    ensures filters.None? && nestedFilters.None? && subExpressions.None? ==> r == Failure(NothingToSearch)
    ensures r.Success? ==>
      && r.value.ObjV? && r.value.cls == "SearchExpression"
      && r.value.attrs.Keys == {"filters", "nested_filters", "sub_expressions", "operator"}
      && r.value.attrs["operator"] == StrV(BooleanOperatorValue(booleanOperator))
      && Success(r.value.attrs["filters"]) == OptionalChildren(codec, filters)
      && Success(r.value.attrs["nested_filters"]) == OptionalChildren(codec, nestedFilters)
      && Success(r.value.attrs["sub_expressions"]) == OptionalChildren(codec, subExpressions)
    ensures (filters.Some? || nestedFilters.Some? || subExpressions.Some?) ==>
      (r.Success? <==>
        && OptionalChildren(codec, filters).Success?
        && OptionalChildren(codec, nestedFilters).Success?
        && OptionalChildren(codec, subExpressions).Success?)
  {
    if filters.None? && nestedFilters.None? && subExpressions.None? then Failure(NothingToSearch)
    else
      match OptionalChildren(codec, filters)
      case Failure(e) => Failure(e)
      case Success(f) =>
        match OptionalChildren(codec, nestedFilters)
        case Failure(e) => Failure(e)
        case Success(n) =>
          match OptionalChildren(codec, subExpressions)
          case Failure(e) => Failure(e)
          case Success(s) =>
            Success(ObjV("SearchExpression", map[
              "filters" := f, "nested_filters" := n, "sub_expressions" := s,
              "operator" := StrV(BooleanOperatorValue(booleanOperator))]))
  }

  // ---------------------------------------------------------------------------
  // Serialisation

  /** `Filter.to_boto()` carries exactly the fields that are not None. */
  lemma FilterWire(codec: NameCodec, name: Value, operator: Option<Operator>, value: Value)
    requires Bijective(codec)
    ensures WellFormed(Classes, codec)
    ensures var d := ChildToBoto(codec, NewFilter(name, operator, value));
      && d.Success? && d.value.DictV?
      && (codec.toBoto("name") in d.value.entries <==> name != NoneV)
      && (codec.toBoto("operator") in d.value.entries <==> operator.Some?)
      && (codec.toBoto("value") in d.value.entries <==> value != NoneV)
      && (operator.Some? ==> d.value.entries[codec.toBoto("operator")] == StrV(OperatorValue(operator.value)))
  {
    ClassesWellFormed(codec);
    var f := NewFilter(name, operator, value);
    SearchObjectWire(codec, f);
    var d := ToBoto(Classes, codec, "ApiObject", f).value;
    forall m | m in {"name", "operator", "value"}
      ensures codec.toBoto(m) in d.entries <==> f.attrs[m] != NoneV
    {
      if codec.toBoto(m) in d.entries {
        var m' :| m' in f.attrs && f.attrs[m'] != NoneV && codec.toBoto(m') == codec.toBoto(m);
        assert m' == codec.fromBoto(codec.toBoto(m)) == m;
      }
    }
  }

  /**
   * The boto form of an expression carries the operator always, and each
   * child list exactly when it was given, as the list of its children's boto
   * forms (so `sub_expressions=[]` is sent as `[]`).
   */
  lemma ExpressionWire(codec: NameCodec, filters: Option<seq<Value>>, nestedFilters: Option<seq<Value>>,
                       subExpressions: Option<seq<Value>>, booleanOperator: BooleanOperator)
    requires Bijective(codec)
    ensures WellFormed(Classes, codec)
    ensures var r := NewSearchExpression(codec, filters, nestedFilters, subExpressions, booleanOperator);
      r.Success? ==>
        var d := ChildToBoto(codec, r.value);
        && d.Success? && d.value.DictV?
        && codec.toBoto("operator") in d.value.entries
        && d.value.entries[codec.toBoto("operator")] == StrV(BooleanOperatorValue(booleanOperator))
        && (codec.toBoto("sub_expressions") in d.value.entries <==> subExpressions.Some?)
        && (subExpressions.Some? ==>
              d.value.entries[codec.toBoto("sub_expressions")] == ListV(ChildrenToBoto(codec, subExpressions.value).value))
        && (codec.toBoto("filters") in d.value.entries <==> filters.Some?)
        && (codec.toBoto("nested_filters") in d.value.entries <==> nestedFilters.Some?)
  {
    ClassesWellFormed(codec);
    var r := NewSearchExpression(codec, filters, nestedFilters, subExpressions, booleanOperator);
    if r.Success? {
      var e := r.value;
      SearchObjectWire(codec, e);
      var d := ToBoto(Classes, codec, "ApiObject", e).value;
      forall m | m in e.attrs
        ensures codec.toBoto(m) in d.entries <==> e.attrs[m] != NoneV
      {
        if codec.toBoto(m) in d.entries {
          var m' :| m' in e.attrs && e.attrs[m'] != NoneV && codec.toBoto(m') == codec.toBoto(m);
          assert m' == codec.fromBoto(codec.toBoto(m)) == m;
        }
      }
    }
  }

  /** The operator defaults to "And". */
  lemma DefaultOperatorIsAnd(codec: NameCodec, filters: seq<Value>)
    requires WellFormed(Classes, codec)
    ensures var r := NewSearchExpression(codec, Some(filters), None, None);
      r.Success? ==> r.value.attrs["operator"] == StrV("And")
  {
  }
}
