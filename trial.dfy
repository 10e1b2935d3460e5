/**
 * The `Trial` record: its load, create, save and delete operations through
 * the generic record conventions, its listing, and how the trial component
 * to associate or disassociate is named when it is given as a tracker, a
 * trial component or anything else.
 */
module Trial {
  import opened Py
  import opened BaseTypes
  import TrialComponent

  const CreateMethod := "create_trial"
  const LoadMethod := "describe_trial"
  const DeleteMethod := "delete_trial"
  const UpdateMethod := "update_trial"
  const ListMethod := "list_trials"

  const UpdateMembers: set<string> := {"trial_name", "display_name"}
  const DeleteMembers: set<string> := {"trial_name"}

  const TrialClass := ApiClass("Trial", {"Trial", "Record", "ApiObject"}, Generic, map[], map[], {})

  /** The classes a trial's operations convert through. */
  const Classes: Registry := TrialComponent.Classes["Trial" := TrialClass]

  lemma ClassesWellFormed(codec: NameCodec)
    requires Bijective(codec)
    ensures WellFormed(Classes, codec)
    ensures "Trial" in Classes && "TrialComponent" in Classes && "TrialSummary" in Classes
  {
    TrialComponent.ClassesWellFormed(codec);
    WellFormedExtended(TrialComponent.Classes, codec, TrialClass);
  }

  // ---------------------------------------------------------------------------
  // save, delete, load, create

  /** `trial.save()`. */
  method Save(t: Record) returns (raised: Option<Exception>)
    requires t.Valid() && t.cls == "Trial"
    modifies t
    ensures var r := Invoke(t.reg, t.codec, t.cls, t.client, old(t.attrs), UpdateMethod, UpdateMembers);
      raised == r.raised && t.attrs == r.attrs
  {
    var sent;
    sent, raised := t.InvokeApi(UpdateMethod, UpdateMembers);
  }

  /** `trial.delete()`. */
  method Delete(t: Record) returns (raised: Option<Exception>)
    requires t.Valid() && t.cls == "Trial"
    modifies t
    ensures var r := Invoke(t.reg, t.codec, t.cls, t.client, old(t.attrs), DeleteMethod, DeleteMembers);
      raised == r.raised && t.attrs == r.attrs
  {
    var sent;
    sent, raised := t.InvokeApi(DeleteMethod, DeleteMembers);
  }

  /** `save` sends the trial name and the display name, each only when set and not None, and nothing else. */
  lemma SaveSendsOnly(reg: Registry, codec: NameCodec, attrs: map<string, Value>)
    requires WellFormed(reg, codec) && "Trial" in reg && reg["Trial"] == TrialClass
    ensures var r := InvokeRequest(reg, codec, "Trial", attrs, UpdateMembers);
      && r.Success?
      && (forall k :: k in r.value <==>
            (k == codec.toBoto("trial_name") && AttrOf(attrs, "trial_name") != NoneV)
            || (k == codec.toBoto("display_name") && AttrOf(attrs, "display_name") != NoneV))
      && (AttrOf(attrs, "trial_name") != NoneV ==> r.value[codec.toBoto("trial_name")] == attrs["trial_name"])
      && (AttrOf(attrs, "display_name") != NoneV ==> r.value[codec.toBoto("display_name")] == attrs["display_name"])
  {
    PlainRequest(reg, codec, "Trial", attrs, UpdateMembers);
  }

  /** `delete` sends the trial name when it is set and not None, and nothing else. */
  lemma DeleteSendsOnly(reg: Registry, codec: NameCodec, attrs: map<string, Value>)
    requires WellFormed(reg, codec) && "Trial" in reg && reg["Trial"] == TrialClass
    ensures var r := InvokeRequest(reg, codec, "Trial", attrs, DeleteMembers);
      && r.Success?
      && r.value.Keys == (if AttrOf(attrs, "trial_name") != NoneV then {codec.toBoto("trial_name")} else {})
      && (AttrOf(attrs, "trial_name") != NoneV ==> r.value[codec.toBoto("trial_name")] == attrs["trial_name"])
  {
    PlainRequest(reg, codec, "Trial", attrs, DeleteMembers);
  }

  /** `Trial.load(trial_name)`. */
  method Load(codec: NameCodec, client: Client, trialName: Value) returns (t: Record, raised: Option<Exception>)
    requires WellFormed(Classes, codec) && "Trial" in Classes
    ensures fresh(t) && t.Valid() && t.reg == Classes && t.codec == codec && t.cls == "Trial" && t.client == client
    ensures var kwargs := map["trial_name" := trialName];
      var r := Invoke(Classes, codec, "Trial", client, kwargs, LoadMethod, kwargs.Keys);
      raised == r.raised && t.attrs == r.attrs
  {
    var sent;
    t, sent, raised := Construct(Classes, codec, "Trial", client, LoadMethod, map["trial_name" := trialName]);
  }

  /** `trial_name or _utils.name("Trial")`: the given name when it is truthy, else a generated one. */
  function CreateName(trialName: Value, suffix: string): (n: Value)
    ensures Truthy(n)
    ensures Truthy(trialName) ==> n == trialName
    ensures !Truthy(trialName) ==> n.StrV? && StartsWith(n.s, "Trial-")
  {
    if Truthy(trialName) then trialName else StrV(GeneratedName("Trial", suffix))
  }

  /** `Trial.create(experiment_name, trial_name)`, without the `trial_components` argument. */
  method Create(codec: NameCodec, client: Client, experimentName: Value, trialName: Value, suffix: string)
    returns (t: Record, raised: Option<Exception>)
    requires WellFormed(Classes, codec) && "Trial" in Classes
    ensures fresh(t) && t.Valid() && t.reg == Classes && t.codec == codec && t.cls == "Trial" && t.client == client
    ensures var kwargs := map["trial_name" := CreateName(trialName, suffix), "experiment_name" := experimentName];
      var r := Invoke(Classes, codec, "Trial", client, kwargs, CreateMethod, kwargs.Keys);
      raised == r.raised && t.attrs == r.attrs
  {
    var sent;
    t, sent, raised := Construct(Classes, codec, "Trial", client, CreateMethod,
                                 map["trial_name" := CreateName(trialName, suffix), "experiment_name" := experimentName]);
  }

  // ---------------------------------------------------------------------------
  // list

  /** The filters `Trial.list` passes to `_list`. */
  function ListKwargs(experimentName: Value, createdBefore: Value, createdAfter: Value, sortBy: Value, sortOrder: Value): (kwargs: map<string, Value>)
    ensures kwargs.Keys == {"experiment_name", "created_before", "created_after", "sort_by", "sort_order"}
    ensures kwargs["experiment_name"] == experimentName && kwargs["sort_by"] == sortBy && kwargs["sort_order"] == sortOrder
  {
    map["experiment_name" := experimentName, "created_before" := createdBefore, "created_after" := createdAfter,
        "sort_by" := sortBy, "sort_order" := sortOrder]
  }

  /**
   * The listing request carries the experiment name exactly when one is
   * given, with its value, and only filters that are not None.
   */
  lemma ListRequestDropsNone(reg: Registry, codec: NameCodec, experimentName: Value, createdBefore: Value,
                             createdAfter: Value, sortBy: Value, sortOrder: Value)
    requires WellFormed(reg, codec) && "Trial" in reg && reg["Trial"] == TrialClass
    ensures var kwargs := ListKwargs(experimentName, createdBefore, createdAfter, sortBy, sortOrder);
      var r := ToBotoVars(reg, codec, "Trial", DictV(kwargs));
      && r.Success?
      && (codec.toBoto("experiment_name") in r.value <==> experimentName != NoneV)
      && (experimentName != NoneV ==> r.value[codec.toBoto("experiment_name")] == experimentName)
      && (forall k :: k in r.value ==> exists m :: m in kwargs && kwargs[m] != NoneV && codec.toBoto(m) == k)
  {
    var kwargs := ListKwargs(experimentName, createdBefore, createdAfter, sortBy, sortOrder);
    var c := reg["Trial"];
    assert c.customNames == map[] && c.customTypes == map[];
    PlainVars(reg, codec, "Trial", kwargs);
    PlainVarsKey(reg, codec, "Trial", kwargs, "experiment_name");
    assert BotoName(c, codec, "experiment_name") == codec.toBoto("experiment_name");
    var r := ToBotoVars(reg, codec, "Trial", DictV(kwargs)).value;
    forall k | k in r
      ensures exists m :: m in kwargs && kwargs[m] != NoneV && codec.toBoto(m) == k
    {
      var m :| m in kwargs && kwargs[m] != NoneV && BotoName(c, codec, m) == k;
      assert BotoName(c, codec, m) == codec.toBoto(m);
    }
  }

  /**
   * `list(Trial.list(...))` with at most `fuel` calls: trial summaries from
   * the `TrialSummaries` of every page.
   */
  method List(codec: NameCodec, lister: Lister, factory: Value -> Result<Value>, experimentName: Value,
              createdBefore: Value, createdAfter: Value, sortBy: Value, sortOrder: Value, fuel: nat)
    returns (requests: seq<map<string, Value>>, items: seq<Value>, outcome: ListOutcome)
    requires WellFormed(Classes, codec) && "Trial" in Classes && "TrialSummary" in Classes
    requires forall v :: factory(v) == FromBoto(Classes, codec, "TrialSummary", v)
    ensures var kwargs := ListKwargs(experimentName, createdBefore, createdAfter, sortBy, sortOrder);
      var base := ToBotoVars(Classes, codec, "Trial", DictV(kwargs));
      && (base.Failure? ==> requests == [] && items == [] && outcome == Raised(base.error))
      && (base.Success? ==>
            ListTrace(requests, items, outcome) == Walk(lister, base.value, "TrialSummaries", "NextToken", factory, 0, NoneV, fuel))
  {
    requests, items, outcome := BaseTypes.List(Classes, codec, "Trial", lister,
                                               ListKwargs(experimentName, createdBefore, createdAfter, sortBy, sortOrder),
                                               "TrialSummaries", "NextToken", factory, fuel);
  }

  // ---------------------------------------------------------------------------
  // add_trial_component / remove_trial_component

  /** The argument of `add_trial_component`: a tracker (with its component's attributes), a trial component, or anything else. */
  datatype ComponentRef =
    | TrackerRef(component: map<string, Value>)
    | ComponentRecord(attrs: map<string, Value>)
    | OtherRef(v: Value)

  /** The trial component name the argument stands for. */
  function ResolveComponentName(tc: ComponentRef): (n: Value)
    ensures tc.TrackerRef? ==> n == AttrOf(tc.component, "trial_component_name")
    ensures tc.ComponentRecord? ==> n == AttrOf(tc.attrs, "trial_component_name")
    ensures tc.OtherRef? ==> n == StrV(Str(tc.v))
  {
    match tc
    case TrackerRef(component) => AttrOf(component, "trial_component_name")
    case ComponentRecord(attrs) => AttrOf(attrs, "trial_component_name")
    case OtherRef(v) => StrV(Str(v))
  }

  /** The keyword arguments naming the trial and the component. */
  function Association(trial: map<string, Value>, tc: ComponentRef): (a: map<string, Value>)
    ensures a.Keys == {"TrialName", "TrialComponentName"}
    ensures a["TrialName"] == AttrOf(trial, "trial_name") && a["TrialComponentName"] == ResolveComponentName(tc)
  {
    map["TrialName" := AttrOf(trial, "trial_name"), "TrialComponentName" := ResolveComponentName(tc)]
  }

  /** `trial.add_trial_component(tc)`: the call made, and what it raised. */
  function AddTrialComponent(client: Client, trial: map<string, Value>, tc: ComponentRef): (r: (Call, Option<Exception>))
    ensures r.0 == Call("associate_trial_component", Association(trial, tc))
    ensures r.1.Some? <==> client(r.0.operation, r.0.kwargs).Failure?
  {
    var call := Call("associate_trial_component", Association(trial, tc));
    match client(call.operation, call.kwargs)
    case Failure(e) => (call, Some(e))
    case Success(_) => (call, None)
  }

  /** `trial.remove_trial_component(tc)`: the call made, and what it raised. */
  function RemoveTrialComponent(client: Client, trial: map<string, Value>, tc: ComponentRef): (r: (Call, Option<Exception>))
    ensures r.0 == Call("disassociate_trial_component", Association(trial, tc))
    ensures r.1.Some? <==> client(r.0.operation, r.0.kwargs).Failure?
  {
    var call := Call("disassociate_trial_component", Association(trial, tc));
    match client(call.operation, call.kwargs)
    case Failure(e) => (call, Some(e))
    case Success(_) => (call, None)
  }

  /**
   * Adding and removing name the same trial and the same component, and a
   * tracker, its trial component and the component's name as a string all
   * name the same component.
   */
  lemma AddAndRemoveAgree(client: Client, trial: map<string, Value>, tc: ComponentRef, component: map<string, Value>, name: string)
    requires AttrOf(component, "trial_component_name") == StrV(name)
    ensures AddTrialComponent(client, trial, tc).0.kwargs == RemoveTrialComponent(client, trial, tc).0.kwargs
    ensures AddTrialComponent(client, trial, tc).0.operation != RemoveTrialComponent(client, trial, tc).0.operation
    ensures Association(trial, TrackerRef(component)) == Association(trial, ComponentRecord(component))
         == Association(trial, OtherRef(StrV(name)))
  {
  }
}
