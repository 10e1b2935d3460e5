/**
 * The `TrialComponent` record's static tables: its custom-typed members,
 * the members its update and delete operations send, and the class added to
 * the registry of value classes. The trackers load, create and save trial
 * components through these tables.
 */
module TrialComponent {
  import opened Py
  import opened BaseTypes
  import ApiTypes

  const LoadMethod := "describe_trial_component"
  const CreateMethod := "create_trial_component"
  const UpdateMethod := "update_trial_component"

  /** `_custom_boto_types`: source and status are single objects, the artifact and metric members collections. */
  const CustomTypes: map<string, CustomType> := map[
    "source" := CustomType("TrialComponentSource", false),
    "status" := CustomType("TrialComponentStatus", false),
    "parameters" := CustomType("TrialComponentParameters", false),
    "input_artifacts" := CustomType("TrialComponentArtifact", true),
    "output_artifacts" := CustomType("TrialComponentArtifact", true),
    "metrics" := CustomType("TrialComponentMetricSummary", true)]

  const UpdateMembers: set<string> := {
    "trial_component_name", "display_name", "status", "start_time", "end_time",
    "parameters", "input_artifacts", "output_artifacts"}

  const TrialComponentClass := ApiClass("TrialComponent", {"TrialComponent", "Record", "ApiObject"}, Generic, map[], CustomTypes, {})

  /** The value classes together with `TrialComponent`. */
  const Classes: Registry := ApiTypes.Classes["TrialComponent" := TrialComponentClass]

  lemma ClassesWellFormed(codec: NameCodec)
    requires Bijective(codec)
    ensures WellFormed(Classes, codec) && "TrialComponent" in Classes
  {
    ApiTypes.ClassesWellFormed(codec);
    WellFormedExtended(ApiTypes.Classes, codec, TrialComponentClass);
  }

  /** `TrialComponent.load(trial_component_name)`: a record built from the describe response. */
  method Load(codec: NameCodec, client: Client, name: Value) returns (tc: Record, raised: Option<Exception>)
    requires WellFormed(Classes, codec) && "TrialComponent" in Classes
    ensures fresh(tc) && tc.Valid() && tc.reg == Classes && tc.codec == codec && tc.cls == "TrialComponent" && tc.client == client
    ensures var kwargs := map["trial_component_name" := name];
      var r := Invoke(Classes, codec, "TrialComponent", client, kwargs, LoadMethod, kwargs.Keys);
      raised == r.raised && tc.attrs == r.attrs
  {
    var sent;
    tc, sent, raised := Construct(Classes, codec, "TrialComponent", client, LoadMethod, map["trial_component_name" := name]);
  }

  /** `TrialComponent.create(trial_component_name, display_name)`. */
  method Create(codec: NameCodec, client: Client, name: Value, displayName: Value) returns (tc: Record, raised: Option<Exception>)
    requires WellFormed(Classes, codec) && "TrialComponent" in Classes
    ensures fresh(tc) && tc.Valid() && tc.reg == Classes && tc.codec == codec && tc.cls == "TrialComponent" && tc.client == client
    ensures var kwargs := map["trial_component_name" := name, "display_name" := displayName];
      var r := Invoke(Classes, codec, "TrialComponent", client, kwargs, CreateMethod, kwargs.Keys);
      raised == r.raised && tc.attrs == r.attrs
  {
    var sent;
    tc, sent, raised := Construct(Classes, codec, "TrialComponent", client, CreateMethod,
                                  map["trial_component_name" := name, "display_name" := displayName]);
  }

  /** `tc.save()`: send the update members. */
  method Save(tc: Record) returns (raised: Option<Exception>)
    requires tc.Valid() && tc.cls == "TrialComponent"
    modifies tc
    ensures var r := Invoke(tc.reg, tc.codec, tc.cls, tc.client, old(tc.attrs), UpdateMethod, UpdateMembers);
      raised == r.raised && tc.attrs == r.attrs
  {
    var sent;
    sent, raised := tc.InvokeApi(UpdateMethod, UpdateMembers);
  }
}
