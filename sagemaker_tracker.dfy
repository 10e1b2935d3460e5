/**
 * The lightweight tracker of the `sagemaker.experiments` package. On
 * construction it either looks up the trial component SageMaker created by
 * itself for the job whose ARN it was given (or found in the environment),
 * tolerating a failed lookup, or creates a new trial component under an
 * explicit or generated name.
 */
module SageMakerTracker {
  import opened Py
  import opened BaseTypes

  /** The resource types for which SageMaker creates a trial component itself. */
  const AutoCreatedTypes: seq<string> := ["training-job", "tuning-job", "transform-job", "analytics-job"]

  /** Whether `arn` contains `t + "/"` for one of `types`, tried in order. */
  function AnyTypeIn(arn: string, types: seq<string>): (b: bool)
    ensures b <==> exists k :: 0 <= k < |types| && Contains(arn, types[k] + "/")
    decreases |types|
  {
    if types == [] then false
    else if Contains(arn, types[0] + "/") then true
    else
      var b := AnyTypeIn(arn, types[1..]);
      assert forall k :: 1 <= k < |types| ==> types[k] == types[1..][k - 1];
      b
  }

  /** `_has_auto_created_trial_component(source_arn)`. */
  function HasAutoCreatedTrialComponent(arn: string): (b: bool)
    ensures b <==> exists t :: t in AutoCreatedTypes && Contains(arn, t + "/")
  {
    AnyTypeIn(arn, AutoCreatedTypes)
  }

  /** The ARN of a training job names a trial component SageMaker created. */
  lemma TrainingJobIsAutoCreated()
    ensures HasAutoCreatedTrialComponent("arn:aws:sagemaker:test:1234:training-job/abcd")
  {
    var arn := "arn:aws:sagemaker:test:1234:training-job/abcd";
    assert StartsWith(arn[28..], "training-job/");
    assert Contains(arn, AutoCreatedTypes[0] + "/");
  }

  /** `_generate_component_name(display_name)`: the display name, a dash and a UUID. */
  function GenerateComponentName(displayName: Value, uuid: string): (n: string)
    ensures StartsWith(n, Str(displayName) + "-") && EndsWith(n, uuid)
  {
    Str(displayName) + "-" + uuid
  }

  const SourceArnKey := "TRAINING_JOB_ARN"

  /** `_resolve_source_arn()`: the first environment key in the list whose value is non-empty. */
  function ResolveSourceArn(environ: map<string, string>): (r: Option<string>)
    ensures r.Some? <==> SourceArnKey in environ && environ[SourceArnKey] != ""
    ensures r.Some? ==> r.value == environ[SourceArnKey]
  {
    if SourceArnKey in environ && environ[SourceArnKey] != "" then Some(environ[SourceArnKey]) else None
  }

  /** `source_arn or self._resolve_source_arn()`: an explicit ARN takes precedence over the environment. */
  function SourceArnOf(given: Option<string>, environ: map<string, string>): (r: Option<string>)
    ensures Given(given) ==> r == given
    ensures !Given(given) ==> r == ResolveSourceArn(environ)
    ensures r.Some? ==> r.value != ""
  {
    if Given(given) then given else ResolveSourceArn(environ)
  }

  /** `v[0]`. */
  function First(v: Value): (r: Result<Value>)
    ensures v.ListV? && v.items != [] ==> r == Success(v.items[0])
    ensures v.ListV? && v.items == [] ==> r.Failure? && r.error.cls == "IndexError"
  {
    match v
    case ListV(items) => if items != [] then Success(items[0]) else Failure(IndexError("list index out of range"))
    case StrV(s) => if s != "" then Success(StrV([s[0]])) else Failure(IndexError("string index out of range"))
    case DictV(_) => Failure(KeyError("0"))
    case _ => Failure(TypeError("'" + TypeName(v) + "' object is not subscriptable"))
  }

  /**
   * `_get_component_name(source_arn)` after the list call: the
   * `TrialComponentName` of the first listed summary; every step may raise.
   */
  function FirstSummaryName(listed: Result<Value>): (r: Result<Value>)
    ensures listed.Failure? ==> r == listed
  {
    match listed
    case Failure(e) => Failure(e)
    case Success(response) =>
      match Get(response, "TrialComponents", NoneV)
      case Failure(e) => Failure(e)
      case Success(summaries) =>
        match First(summaries)
        case Failure(e) => Failure(e)
        case Success(summary) => Get(summary, "TrialComponentName", NoneV)
  }

  /**
   * The name comes from the first summary; a response without summaries,
   * or with an empty list of them, makes the lookup raise.
   */
  lemma FirstSummaryNameCases(entries: map<string, Value>)
    ensures "TrialComponents" !in entries ==> FirstSummaryName(Success(DictV(entries))).Failure?
    ensures "TrialComponents" in entries && entries["TrialComponents"] == ListV([]) ==>
      FirstSummaryName(Success(DictV(entries))).Failure?
    ensures ("TrialComponents" in entries && entries["TrialComponents"].ListV? && entries["TrialComponents"].items != []
             && entries["TrialComponents"].items[0].DictV?) ==>
      FirstSummaryName(Success(DictV(entries))) == Success(AttrOf(entries["TrialComponents"].items[0].entries, "TrialComponentName"))
  {
  }

  function ListCall(arn: string): Call {
    Call("list_trial_components", map["SourceArn" := StrV(arn)])
  }

  /** `_create_trial_component(...)`: the source ARN is sent even when it is None. */
  function CreateCall(name: Value, displayName: Value, arn: Option<string>): (c: Call)
    ensures "Source" in c.kwargs && c.kwargs["Source"].DictV? && "SourceArn" in c.kwargs["Source"].entries
    ensures var sent := c.kwargs["Source"].entries["SourceArn"];
      (arn.Some? <==> sent.StrV?) && (arn.None? <==> sent == NoneV)
  {
    Call("create_trial_component", map[
      "TrialComponentName" := name,
      "DisplayName" := displayName,
      "Source" := DictV(map["SourceArn" := if arn.Some? then StrV(arn.value) else NoneV])])
  }

  const NoDisplayName := ValueError("Please specify a valid display_name.")

  /** What the constructor does with its arguments. */
  datatype Plan = LookUp(arn: string) | Refuse | CreateNew(name: Value)

  /**
   * An auto-created source means a lookup; otherwise a display name is
   * required, and the component is named `name`, or after the display name.
   */
  function PlanFor(name: Value, displayName: Value, arn: Option<string>, uuid: string): (p: Plan)
    ensures p.LookUp? <==> arn.Some? && HasAutoCreatedTrialComponent(arn.value)
    ensures p.LookUp? ==> p.arn == arn.value
    ensures p.Refuse? <==> !(arn.Some? && HasAutoCreatedTrialComponent(arn.value)) && !Truthy(displayName)
    ensures p.CreateNew? && Truthy(name) ==> p.name == name
    ensures p.CreateNew? && !Truthy(name) ==> p.name.StrV? && StartsWith(p.name.s, Str(displayName) + "-")
  {
    if arn.Some? && HasAutoCreatedTrialComponent(arn.value) then LookUp(arn.value)
    else if !Truthy(displayName) then Refuse
    else CreateNew(if Truthy(name) then name else StrV(GenerateComponentName(displayName, uuid)))
  }

  /** `sagemaker.experiments.tracker.Tracker`. */
  class Tracker {
    const client: Client
    const sourceArn: Option<string>
    var failedMode: bool
    var componentName: Value
    var calls: seq<Call>     // the calls made on the client, in order

    /** The first part of `__init__`: the resolved source ARN, not failed, no component name yet. */
    constructor(client: Client, sourceArn: Option<string>, environ: map<string, string>)
      ensures this.client == client && this.sourceArn == SourceArnOf(sourceArn, environ)
      ensures !failedMode && componentName == NoneV && calls == []
    {
      this.client := client;
      this.sourceArn := SourceArnOf(sourceArn, environ);
      failedMode := false;
      componentName := NoneV;
      calls := [];
    }

    /**
     * The rest of `__init__`: look up the auto-created component (a failure
     * only sets the failed mode), or refuse without a display name, or create
     * the component under its name; `uuid` is what `uuid.uuid4()` gives.
     */
    method Init(name: Value, displayName: Value, uuid: string) returns (raised: Option<Exception>)
      modifies this
      ensures match PlanFor(name, displayName, sourceArn, uuid)
        case LookUp(arn) =>
          && raised.None? && calls == old(calls) + [ListCall(arn)]
          && (match FirstSummaryName(client(ListCall(arn).operation, ListCall(arn).kwargs))
              case Success(n) => componentName == n && failedMode == old(failedMode)
              case Failure(_) => failedMode && componentName == old(componentName))
        case Refuse =>
          raised == Some(NoDisplayName) && calls == old(calls) && componentName == old(componentName) && failedMode == old(failedMode)
        case CreateNew(n) =>
          var call := CreateCall(n, displayName, sourceArn);
          && componentName == n && failedMode == old(failedMode)
          && calls == old(calls) + [call]
          && raised == (if client(call.operation, call.kwargs).Failure? then Some(client(call.operation, call.kwargs).error) else None)
    {
      if sourceArn.Some? && HasAutoCreatedTrialComponent(sourceArn.value) {
        var call := ListCall(sourceArn.value);
        calls := calls + [call];
        raised := None;
        match FirstSummaryName(client(call.operation, call.kwargs))
        case Success(n) => componentName := n;
        case Failure(_) => failedMode := true;
      } else {
        if !Truthy(displayName) {
          return Some(NoDisplayName);
        }
        componentName := if Truthy(name) then name else StrV(GenerateComponentName(displayName, uuid));
        var call := CreateCall(componentName, displayName, sourceArn);
        calls := calls + [call];
        var response := client(call.operation, call.kwargs);
        raised := if response.Failure? then Some(response.error) else None;
      }
    }
  }

  /**
   * `Tracker(name, display_name, source_arn, sagemaker_boto_client)`. For
   * an auto-created source the only call is the lookup and nothing is
   * created; otherwise a display name is required, and then exactly one
   * create call is made, with the component's name.
   */
  method New(name: Value, displayName: Value, sourceArn: Option<string>, client: Client,
             environ: map<string, string>, uuid: string)
    returns (t: Tracker, raised: Option<Exception>)
    ensures fresh(t) && t.client == client && t.sourceArn == SourceArnOf(sourceArn, environ)
    ensures var arn := SourceArnOf(sourceArn, environ);
      match PlanFor(name, displayName, arn, uuid)
      case LookUp(a) =>
        && raised.None? && t.calls == [ListCall(a)]
        && (match FirstSummaryName(client(ListCall(a).operation, ListCall(a).kwargs))
            case Success(n) => t.componentName == n && !t.failedMode
            case Failure(_) => t.failedMode && t.componentName == NoneV)
      case Refuse => raised == Some(NoDisplayName) && t.calls == []
      case CreateNew(n) =>
        && !t.failedMode && t.componentName == n
        && t.calls == [CreateCall(n, displayName, arn)]
    ensures forall c :: c in t.calls && c.operation == "create_trial_component" ==>
      !(t.sourceArn.Some? && HasAutoCreatedTrialComponent(t.sourceArn.value)) && Truthy(displayName)
  {
    t := new Tracker(client, sourceArn, environ);
    raised := t.Init(name, displayName, uuid);
  }

  /**
   * Inside a training job (its ARN in the environment, none passed) the
   * tracker looks the component up; in a notebook without any ARN it creates
   * one named after the display name, with `SourceArn` None.
   */
  lemma TrackerInJobAndNotebook(environ: map<string, string>, displayName: Value, uuid: string)
    ensures var arn := "arn:aws:sagemaker:test:1234:training-job/abcd";
      PlanFor(NoneV, NoneV, SourceArnOf(None, environ[SourceArnKey := arn]), uuid) == LookUp(arn)
    ensures SourceArnKey !in environ && Truthy(displayName) ==>
      && SourceArnOf(None, environ) == None
      && PlanFor(NoneV, displayName, None, uuid) == CreateNew(StrV(GenerateComponentName(displayName, uuid)))
      && CreateCall(StrV(GenerateComponentName(displayName, uuid)), displayName, None).kwargs["Source"]
         == DictV(map["SourceArn" := NoneV])
  {
    TrainingJobIsAutoCreated();
  }
}
