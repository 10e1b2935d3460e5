/**
 * The value classes the service's responses are decoded into: the summary,
 * status, source and error records (plain `ApiObject` subclasses whose
 * constructors default their named fields to `None`), the summary whose
 * `status` is a nested `TrialComponentStatus`, the parameter value with its
 * `str()` fallbacks, and the parameter map with its own wire encoding
 * (`{"NumberValue": v}` for numbers, `{"StringValue": str(v)}` otherwise).
 */
module ApiTypes {
  import opened Py
  import opened BaseTypes

  // ---------------------------------------------------------------------------
  // The classes

  /** A direct subclass of `ApiObject` with generic conversion and the given constructor defaults. */
  function Plain(name: string, defaults: set<string>): (c: ApiClass)
    ensures c.name == name && c.ancestors == {name, "ApiObject"} && c.conversion.Generic?
    ensures c.customNames == map[] && c.customTypes == map[] && c.initDefaults == defaults
  {
    ApiClass(name, {name, "ApiObject"}, Generic, map[], map[], defaults)
  }

  const ApiObjectClass := ApiClass("ApiObject", {"ApiObject"}, Generic, map[], map[], {})
  const ExperimentSummary := Plain("ExperimentSummary", {"experiment_name", "experiment_arn"})
  const TrialComponentMetricSummary := Plain("TrialComponentMetricSummary", {"metric_name", "source_arn"})
  const TrialSummary := Plain("TrialSummary", {"trial_name", "trial_arn"})
  const TrialComponentParameterValue := Plain("TrialComponentParameterValue", {"string_value", "number_value"})
  const TrialComponentParameters :=
    ApiClass("TrialComponentParameters", {"TrialComponentParameters", "ApiObject"},
             Override(EncodedParameters, DecodedParameters), map[], map[], {})
  const TrialComponentArtifact := Plain("TrialComponentArtifact", {"value", "media_type"})
  const TrialComponentStatus := Plain("TrialComponentStatus", {"primary_status", "message"})
  const TrialComponentSummary :=
    ApiClass("TrialComponentSummary", {"TrialComponentSummary", "ApiObject"}, Generic, map[],
             map["status" := CustomType("TrialComponentStatus", false)], {})
  const ExperimentSource := Plain("ExperimentSource", {"source_arn"})
  const TrialSource := Plain("TrialSource", {"source_arn"})
  const TrialComponentSource := Plain("TrialComponentSource", {"source_arn"})
  const BatchPutMetricsError := Plain("BatchPutMetricsError", {"code", "message", "metric_index"})

  /** Every class of the module, by name. */
  const Classes: Registry := map[
    "ApiObject" := ApiObjectClass,
    "ExperimentSummary" := ExperimentSummary,
    "TrialComponentMetricSummary" := TrialComponentMetricSummary,
    "TrialSummary" := TrialSummary,
    "TrialComponentParameterValue" := TrialComponentParameterValue,
    "TrialComponentParameters" := TrialComponentParameters,
    "TrialComponentArtifact" := TrialComponentArtifact,
    "TrialComponentStatus" := TrialComponentStatus,
    "TrialComponentSummary" := TrialComponentSummary,
    "ExperimentSource" := ExperimentSource,
    "TrialSource" := TrialSource,
    "TrialComponentSource" := TrialComponentSource,
    "BatchPutMetricsError" := BatchPutMetricsError]

  /** With a bijective name codec the classes form a well-formed registry. */
  lemma ClassesWellFormed(codec: NameCodec)
    requires Bijective(codec)
    ensures WellFormed(Classes, codec)
  {
    assert forall c :: c in Classes ==> Classes[c].name == c && c in Classes[c].ancestors && Classes[c].customNames == map[];
    assert forall c, m :: c in Classes && m in Classes[c].customTypes ==> Classes[c].customTypes[m].cls in Classes;
    PlainRegistryWellFormed(Classes, codec);
  }

  /** A registry without custom names, closed under custom types, is well formed under a bijective codec. */
  lemma PlainRegistryWellFormed(reg: Registry, codec: NameCodec)
    requires Bijective(codec)
    requires forall c :: c in reg ==> reg[c].name == c && c in reg[c].ancestors && reg[c].customNames == map[]
    requires forall c, m :: c in reg && m in reg[c].customTypes ==> reg[c].customTypes[m].cls in reg
    ensures WellFormed(reg, codec)
  {
    forall c | c in reg
      ensures NamesInverse(reg[c], codec)
    {
      PlainNamesInverse(reg[c], codec);
    }
  }

  // ---------------------------------------------------------------------------
  // TrialComponentParameters

  /** The wire form of one parameter value. */
  function EncodeParameter(v: Value): (r: Value)
    ensures r.DictV? && |r.entries| == 1
    ensures IsNumber(v) <==> "NumberValue" in r.entries
    ensures IsNumber(v) ==> r.entries["NumberValue"] == v
    ensures !IsNumber(v) ==> "StringValue" in r.entries && r.entries["StringValue"] == StrV(Str(v))
  {
    if IsNumber(v) then DictV(map["NumberValue" := v]) else DictV(map["StringValue" := StrV(Str(v))])
  }

  /** `value.get("NumberValue", value.get("StringValue", None))` for a dict `value`. */
  function DecodeParameter(d: map<string, Value>): (r: Value)
    ensures "NumberValue" in d ==> r == d["NumberValue"]
    ensures "NumberValue" !in d && "StringValue" in d ==> r == d["StringValue"]
    ensures "NumberValue" !in d && "StringValue" !in d ==> r == NoneV
  {
    if "NumberValue" in d then d["NumberValue"] else if "StringValue" in d then d["StringValue"] else NoneV
  }

  const NoItems := AttributeError("object has no attribute 'items'")
  const NoGet := AttributeError("object has no attribute 'get'")

  /** `TrialComponentParameters.to_boto(parameters)`: every entry encoded under the same key. */
  function EncodedParameters(parameters: Value): (r: Result<Value>)
    ensures parameters.DictV? <==> r.Success?
    ensures r.Success? ==> r.value.DictV? && r.value.entries.Keys == parameters.entries.Keys
    ensures r.Success? ==> forall k :: k in parameters.entries ==> r.value.entries[k] == EncodeParameter(parameters.entries[k])
  {
    if !parameters.DictV? then Failure(NoItems)
    else Success(DictV(map k | k in parameters.entries :: EncodeParameter(parameters.entries[k])))
  }

  /** `TrialComponentParameters.from_boto(boto)`: a plain dict of every entry decoded; each entry must be a dict. */
  function DecodedParameters(boto: Value): (r: Result<Value>)
    ensures r.Success? <==> boto.DictV? && forall k :: k in boto.entries ==> boto.entries[k].DictV?
    ensures r.Success? ==> r.value.DictV? && r.value.entries.Keys == boto.entries.Keys
    ensures r.Success? ==> forall k :: k in boto.entries ==> r.value.entries[k] == DecodeParameter(boto.entries[k].entries)
  {
    if !boto.DictV? then Failure(NoItems)
    else if exists k :: k in boto.entries && !boto.entries[k].DictV? then Failure(NoGet)
    else Success(DictV(map k | k in boto.entries :: DecodeParameter(boto.entries[k].entries)))
  }

  /** The `to_boto` loop: fill the boto map one key at a time. */
  method ParametersToBoto(parameters: Value) returns (r: Result<Value>)
    ensures r == EncodedParameters(parameters)
  {
    if !parameters.DictV? {
      return Failure(NoItems);
    }
    var remaining := parameters.entries.Keys;
    var botoMap: map<string, Value> := map[];
    while remaining != {}
      invariant remaining <= parameters.entries.Keys
      invariant botoMap.Keys == parameters.entries.Keys - remaining
      invariant forall k :: k in botoMap ==> botoMap[k] == EncodeParameter(parameters.entries[k])
      decreases remaining
    {
      var key :| key in remaining;
      var value := parameters.entries[key];
      if IsNumber(value) {
        botoMap := botoMap[key := DictV(map["NumberValue" := value])];
      } else {
        botoMap := botoMap[key := DictV(map["StringValue" := StrV(Str(value))])];
      }
      remaining := remaining - {key};
    }
    SameEntries(botoMap, EncodedParameters(parameters).value.entries);
    return Success(DictV(botoMap));
  }

  /** The `from_boto` loop: decode the boto map one key at a time; an entry that is not a dict fails. */
  method ParametersFromBoto(boto: Value) returns (r: Result<Value>)
    ensures r == DecodedParameters(boto)
  {
    if !boto.DictV? {
      return Failure(NoItems);
    }
    var remaining := boto.entries.Keys;
    var returnMap: map<string, Value> := map[];
    while remaining != {}
      invariant remaining <= boto.entries.Keys
      invariant returnMap.Keys == boto.entries.Keys - remaining
      invariant forall k :: k in returnMap ==> boto.entries[k].DictV? && returnMap[k] == DecodeParameter(boto.entries[k].entries)
      decreases remaining
    {
      var key :| key in remaining;
      var value := boto.entries[key];
      if !value.DictV? {
        return Failure(NoGet);
      }
      returnMap := returnMap[key := DecodeParameter(value.entries)];
      remaining := remaining - {key};
    }
    SameEntries(returnMap, DecodedParameters(boto).value.entries);
    return Success(DictV(returnMap));
  }

  /** A parameter map whose values are all numbers or strings. */
  predicate PlainParameters(p: map<string, Value>) {
    forall k :: k in p ==> IsNumber(p[k]) || p[k].StrV?
  }

  /** `from_boto(to_boto(p)) == p` for a map of numbers and strings. */
  lemma ParametersRoundTrip(p: map<string, Value>)
    requires PlainParameters(p)
    ensures EncodedParameters(DictV(p)).Success?
    ensures DecodedParameters(EncodedParameters(DictV(p)).value) == Success(DictV(p))
  {
    var b := EncodedParameters(DictV(p)).value;
    var back := DecodedParameters(b).value;
    forall k | k in p
      ensures back.entries[k] == p[k]
    {
      assert b.entries[k] == EncodeParameter(p[k]);
    }
    SameEntries(back.entries, p);
  }

  /** The wire form of one parameter: a single NumberValue holding a number or StringValue holding a string. */
  predicate WireParameter(v: Value) {
    && v.DictV?
    && (|| (v.entries.Keys == {"NumberValue"} && IsNumber(v.entries["NumberValue"]))
        || (v.entries.Keys == {"StringValue"} && v.entries["StringValue"].StrV?))
  }

  lemma WireParameterRoundTrip(v: Value)
    requires WireParameter(v)
    ensures EncodeParameter(DecodeParameter(v.entries)) == v
  {
    var e := v.entries;
    if "NumberValue" in e {
      assert e == map["NumberValue" := e["NumberValue"]];
    } else {
      assert e == map["StringValue" := e["StringValue"]];
    }
  }

  /** `to_boto(from_boto(b)) == b` for a boto map in wire form. */
  lemma ParametersRoundTripIn(b: map<string, Value>)
    requires forall k :: k in b ==> WireParameter(b[k])
    ensures DecodedParameters(DictV(b)).Success?
    ensures EncodedParameters(DecodedParameters(DictV(b)).value) == Success(DictV(b))
  {
    var p := DecodedParameters(DictV(b)).value;
    var back := EncodedParameters(p).value;
    forall k | k in b
      ensures back.entries[k] == b[k]
    {
      WireParameterRoundTrip(b[k]);
    }
    SameEntries(back.entries, b);
  }

  /** A `None` parameter is sent as the string "None" and comes back as that string, not as `None`. */
  lemma NoneParameterBecomesString(k: string)
    ensures DecodedParameters(EncodedParameters(DictV(map[k := NoneV])).value) == Success(DictV(map[k := StrV("None")]))
  {
    var b := EncodedParameters(DictV(map[k := NoneV])).value;
    assert b.entries[k] == DictV(map["StringValue" := StrV("None")]);
    SameEntries(DecodedParameters(b).value.entries, map[k := StrV("None")]);
  }

  // ---------------------------------------------------------------------------
  // TrialComponentParameterValue.__str__

  /** An attribute of an instance: its own value, else the class attribute `None`. */
  function Attr(obj: Value, name: string): Value
    requires obj.ObjV?
  {
    if name in obj.attrs then obj.attrs[name] else NoneV
  }

  /**
   * `str(param)`: the string value if set, else `str()` of the number value
   * if set, else the empty string. A string value that is not a `str` makes
   * `str()` raise a TypeError.
   */
  function ParameterValueStr(param: Value): (r: Result<string>)
    requires param.ObjV?
    ensures Attr(param, "string_value").StrV? ==> r == Success(Attr(param, "string_value").s)
    ensures Attr(param, "string_value") != NoneV && !Attr(param, "string_value").StrV? ==> r.Failure? && r.error.cls == "TypeError"
    ensures Attr(param, "string_value") == NoneV && Attr(param, "number_value") != NoneV ==> r == Success(Str(Attr(param, "number_value")))
    ensures Attr(param, "string_value") == NoneV && Attr(param, "number_value") == NoneV ==> r == Success("")
  {
    var s := Attr(param, "string_value");
    if s != NoneV then
      if s.StrV? then Success(s.s) else Failure(TypeError("__str__ returned non-string"))
    else if Attr(param, "number_value") != NoneV then Success(Str(Attr(param, "number_value")))
    else Success("")
  }

  /** The three renderings, for values built by the constructor. */
  lemma ParameterValueRenderings(s: string, n: Value)
    requires n != NoneV
    ensures ParameterValueStr(ObjV("TrialComponentParameterValue", map["string_value" := StrV(s), "number_value" := NoneV])) == Success(s)
    ensures ParameterValueStr(ObjV("TrialComponentParameterValue", map["string_value" := NoneV, "number_value" := n])) == Success(Str(n))
    ensures ParameterValueStr(ObjV("TrialComponentParameterValue", map["string_value" := NoneV, "number_value" := NoneV])) == Success("")
  {
  }

  // ---------------------------------------------------------------------------
  // Decoding responses

  /**
   * `from_boto` of a class without custom types, custom names or an override
   * always succeeds on a dict: every boto key becomes its member name with
   * the value unchanged, and every constructor default is present.
   */
  lemma PlainFromBoto(reg: Registry, codec: NameCodec, c: string, b: map<string, Value>)
    requires Bijective(codec) && WellFormed(reg, codec) && c in reg
    requires reg[c].conversion.Generic? && reg[c].customTypes == map[] && reg[c].customNames == map[]
    ensures FromBoto(reg, codec, c, DictV(b)).Success?
    ensures var o := FromBoto(reg, codec, c, DictV(b)).value;
      && o.ObjV? && o.cls == c
      && o.attrs.Keys == reg[c].initDefaults + (set n | n in b :: codec.fromBoto(n))
      && (forall n :: n in b ==> o.attrs[codec.fromBoto(n)] == b[n])
      && (forall m :: m in reg[c].initDefaults && codec.toBoto(m) !in b ==> o.attrs[m] == NoneV)
  {
    PlainKwargs(reg, codec, c, b);
    var kwargs := FromBotoKwargs(reg, codec, c, DictV(b)).value;
    GenericFromBoto(reg, codec, c, b);
    assert forall m :: m in reg[c].initDefaults && codec.toBoto(m) !in b ==> m !in kwargs;
  }

  /** The keyword arguments of a plain class: each boto key renamed by the codec, the value unchanged. */
  lemma PlainKwargs(reg: Registry, codec: NameCodec, c: string, b: map<string, Value>)
    requires Bijective(codec) && WellFormed(reg, codec) && c in reg
    requires reg[c].customTypes == map[] && reg[c].customNames == map[]
    ensures FromBotoKwargs(reg, codec, c, DictV(b)).Success?
    ensures var kwargs := FromBotoKwargs(reg, codec, c, DictV(b)).value;
      && kwargs.Keys == (set n | n in b :: codec.fromBoto(n))
      && (forall n :: n in b ==> kwargs[codec.fromBoto(n)] == b[n])
  {
    var cls := reg[c];
    assert forall n :: MemberName(cls, codec, n) == codec.fromBoto(n) by {
      assert InverseNames(cls.customNames) == map[];
    }
    assert FromBotoKwargs(reg, codec, c, DictV(b)) == Success(FromBotoEntries(reg, codec, c, DictV(b)));
  }

  /** The summary class of experiments or of trials, with its name and ARN members. */
  function SummaryOf(experiments: bool): (string, string, string) {
    if experiments then ("ExperimentSummary", "experiment_name", "experiment_arn")
    else ("TrialSummary", "trial_name", "trial_arn")
  }

  /**
   * An experiment summary always carries its name and ARN, and so does a
   * trial summary (None when the response has neither), so equality compares
   * them.
   */
  lemma SummaryCarriesNameAndArn(codec: NameCodec, experiments: bool, b: map<string, Value>)
    requires Bijective(codec)
    ensures WellFormed(Classes, codec)
    ensures FromBoto(Classes, codec, SummaryOf(experiments).0, DictV(b)).Success?
    ensures var o := FromBoto(Classes, codec, SummaryOf(experiments).0, DictV(b)).value;
      o.ObjV? && SummaryOf(experiments).1 in o.attrs && SummaryOf(experiments).2 in o.attrs
  {
    ClassesWellFormed(codec);
    var (c, name, arn) := SummaryOf(experiments);
    assert Classes[c].initDefaults == {name, arn} && Classes[c].conversion.Generic?
      && Classes[c].customTypes == map[] && Classes[c].customNames == map[];
    PlainFromBoto(Classes, codec, c, b);
  }

  /** A batch error decoded from a response record has its code, message and metric index (None when absent). */
  lemma BatchErrorShape(codec: NameCodec, b: map<string, Value>)
    requires Bijective(codec)
    ensures WellFormed(Classes, codec)
    ensures FromBoto(Classes, codec, "BatchPutMetricsError", DictV(b)).Success?
    ensures var o := FromBoto(Classes, codec, "BatchPutMetricsError", DictV(b)).value;
      && o.ObjV? && o.cls == "BatchPutMetricsError"
      && {"code", "message", "metric_index"} <= o.attrs.Keys
      && (codec.toBoto("metric_index") in b ==> o.attrs["metric_index"] == b[codec.toBoto("metric_index")])
  {
    ClassesWellFormed(codec);
    PlainFromBoto(Classes, codec, "BatchPutMetricsError", b);
    assert codec.fromBoto(codec.toBoto("metric_index")) == "metric_index";
  }

  /**
   * `TrialComponentSummary.from_boto` decodes the response's Status entry as
   * a `TrialComponentStatus` object, which carries `primary_status` and
   * `message`; a summary whose Status is not a dict cannot be decoded.
   */
  lemma SummaryStatusNested(codec: NameCodec, b: map<string, Value>)
    requires Bijective(codec)
    requires codec.toBoto("status") in b
    ensures WellFormed(Classes, codec)
    ensures var r := FromBoto(Classes, codec, "TrialComponentSummary", DictV(b));
      && (b[codec.toBoto("status")].DictV? <==> r.Success?)
      && (r.Success? ==>
            && r.value.ObjV? && "status" in r.value.attrs
            && FromBoto(Classes, codec, "TrialComponentStatus", b[codec.toBoto("status")]) == Success(r.value.attrs["status"])
            && r.value.attrs["status"].ObjV? && r.value.attrs["status"].cls == "TrialComponentStatus"
            && "primary_status" in r.value.attrs["status"].attrs && "message" in r.value.attrs["status"].attrs)
  {
    ClassesWellFormed(codec);
    StatusMember(Classes, codec, "TrialComponentSummary", b);
  }

  /** The decoding of a class whose one custom-typed member is `status`, a single plain TrialComponentStatus. */
  lemma StatusMember(reg: Registry, codec: NameCodec, c: string, b: map<string, Value>)
    requires Bijective(codec) && WellFormed(reg, codec) && c in reg && "TrialComponentStatus" in reg
    requires reg[c].conversion.Generic? && reg[c].customNames == map[]
    requires reg[c].customTypes == map["status" := CustomType("TrialComponentStatus", false)]
    requires reg["TrialComponentStatus"] == TrialComponentStatus
    requires codec.toBoto("status") in b
    ensures var r := FromBoto(reg, codec, c, DictV(b));
      var s := FromBoto(reg, codec, "TrialComponentStatus", b[codec.toBoto("status")]);
      && (b[codec.toBoto("status")].DictV? <==> r.Success?)
      && (r.Success? ==>
            && r.value.ObjV? && "status" in r.value.attrs && s == Success(r.value.attrs["status"])
            && s.value.ObjV? && s.value.cls == "TrialComponentStatus"
            && "primary_status" in s.value.attrs && "message" in s.value.attrs)
  {
    var sb := codec.toBoto("status");
    var s := FromBoto(reg, codec, "TrialComponentStatus", b[sb]);
    StatusKwargs(reg, codec, c, b);
    if b[sb].DictV? {
      PlainFromBoto(reg, codec, "TrialComponentStatus", b[sb].entries);
      GenericFromBoto(reg, codec, c, b);
    } else {
      assert reg["TrialComponentStatus"].conversion.Generic?;
      assert s.Failure?;
    }
  }

  /** The keyword arguments of such a class: Status converted through its class, every other entry renamed only. */
  lemma StatusKwargs(reg: Registry, codec: NameCodec, c: string, b: map<string, Value>)
    requires Bijective(codec) && WellFormed(reg, codec) && c in reg && "TrialComponentStatus" in reg
    requires reg[c].customNames == map[]
    requires reg[c].customTypes == map["status" := CustomType("TrialComponentStatus", false)]
    requires codec.toBoto("status") in b
    ensures var k := FromBotoKwargs(reg, codec, c, DictV(b));
      var s := FromBoto(reg, codec, "TrialComponentStatus", b[codec.toBoto("status")]);
      && (s.Success? <==> k.Success?)
      && (k.Success? ==> "status" in k.value && k.value["status"] == s.value)
  {
    var cls := reg[c];
    var sb := codec.toBoto("status");
    assert forall n :: MemberName(cls, codec, n) == codec.fromBoto(n) by {
      assert InverseNames(cls.customNames) == map[];
    }
    assert MemberName(cls, codec, sb) == "status";
    forall n | n in b && n != sb
      ensures FromBotoMember(reg, codec, c, MemberName(cls, codec, n), b[n]) == Success(b[n])
    {
      assert codec.toBoto(codec.fromBoto(n)) == n;
    }
    var s := FromBoto(reg, codec, "TrialComponentStatus", b[sb]);
    assert FromBotoMember(reg, codec, c, "status", b[sb]) == s;
    if s.Success? {
      assert FromBotoKwargs(reg, codec, c, DictV(b)).Success?;
      assert FromBotoKwargs(reg, codec, c, DictV(b)).value == FromBotoEntries(reg, codec, c, DictV(b));
    } else {
      assert sb in b && !FromBotoMember(reg, codec, c, MemberName(cls, codec, sb), b[sb]).Success?;
    }
  }
}
