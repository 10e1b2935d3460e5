# SageMaker Experiments — a Dafny model

This project models the core of the SageMaker Experiments Python SDK and proves properties of that model in Dafny:

- the convention-driven mapping between the SDK's objects and the service's request and response dicts (`ApiObject`), and the active-record operations built on it (`Record`): invoking an operation with a subset of the attributes, merging the response back in, and paginated listing;
- the experiment, trial and trial-component records built on those conventions, including `Experiment.delete_all`, which retries a bounded number of times;
- the parameter encoding, summary and status types, and the search-expression builder;
- the two metrics writers:
  - the batched API writer, with its publisher cycle, poison pill, last-error bookkeeping and idempotent close;
  - the file writer, which opens its file lazily and appends one line per metric;
- the experiment tracker, which updates its trial component in place, and the newer `sagemaker.experiments` tracker, which decides between looking up an auto-created trial component and creating one;
- the release scripts' version parser and incrementer, and the commit-subject classifier.

The model leaves several things abstract:

- The remote SageMaker/S3 clients are functions from an operation and its keyword arguments to a response or a raised exception. A listing client also takes the page number.
- The clock, `uuid`, the process id and the file system are parameters.
- Python values are a small universe (`Py.Value`): None, bool, int, float (carried as its textual form), str, list, dict and objects.
- The per-name snake_case/UpperCamelCase conversion lives in `_boto_functions`, and `_boto_functions` is not part of this model. It is the abstract bijection `BaseTypes.NameCodec`. The recursive conversion of values follows the SDK's behaviour:
  - None members are dropped on the way out;
  - a member registered in `_custom_boto_types` is converted through its class, element by element when it is a list or a dict.

The modules follow the source files:

| module | file |
|---|---|
| `Py` | shared Python semantics |
| `BaseTypes` | `src/smexperiments/_base_types.py` |
| `ApiTypes` | `src/smexperiments/api_types.py` |
| `Search` | `src/smexperiments/search_expression.py` |
| `TrialComponent` | `src/smexperiments/trial_component.py` |
| `Trial` | `src/smexperiments/trial.py` |
| `Experiment` | `src/smexperiments/experiment.py` |
| `Metrics` | `src/smexperiments/metrics.py` |
| `Tracker` | `src/smexperiments/tracker.py` |
| `SageMakerTracker` | `src/sagemaker/experiments/tracker.py` |
| `Version` | `scripts/version.py` |
| `SubjectParser` | `scripts/subject_parser.py` |

State-changing code is imperative Dafny:

- metrics writers, records and trackers are classes;
- the loops of `_list`, `_publish_metrics`, `TrialComponentParameters.to_boto`/`from_boto`, `delete_all` and the subject parser are `while` loops.

Each of these methods is proved against a specification function, and the lemmas next to that function state what the source promises.

Two points where the model follows the code rather than its comments or documentation:

- `_custom_boto_names` is documented as a map from boto name to member name. The code inverts it before decoding, so it treats it as member name to boto name. The model follows the code: `ApiClass.customNames` maps member names to boto names.
- `_RawMetricData` reads `IterationNumber` only through an `assert isinstance(iteration_number, int)`. The model treats a non-int iteration number as an `AssertionError`.

## Model

| member | source | states |
|---|---|---|
| Py.MapResult | src/smexperiments/metrics.py:124-128 | mapping a fallible conversion over a list keeps the length and order, each element converted, and fails with the first failure |
| Py.InRunFrom | scripts/version.py:7-12 | a Unicode decimal digit outside ASCII is never whitespace, so `\s*` and `\d+` never compete for a character |
| Py.DigitValue | scripts/version.py:53-55 | `int()` gives each decimal digit a value below ten, and an ASCII digit its distance from `0` |
| Py.DigitsRoundTrip | scripts/version.py:31-33 | reading back the decimal digits `str()` writes for a natural number gives that number |
| Py.IntToString | scripts/version.py:31 | `str()` of an int is non-empty, starts with a digit exactly when the int is non-negative, and is then its decimal digits |
| Py.QuoteFor | src/smexperiments/api_types.py:105 | `repr` of a string uses double quotes exactly when the string holds `'` and no `"`, else single quotes |
| Py.EscapeChar | src/smexperiments/api_types.py:105 | inside the quotes a character is shown as itself exactly when it is printable and is neither the quote nor a backslash; everything shown is printable |
| Py.Escaped | src/smexperiments/api_types.py:105 | the escaped body is at least as long as the string and holds only printable characters |
| Py.StrRepr | src/smexperiments/api_types.py:105 | `repr(s)` is the chosen quote, the escaped body, the same quote |
| Py.UnescapeEscaped | src/smexperiments/api_types.py:105 | reading the escaped body back as a Python literal gives the string |
| Py.StrReprRoundTrip | src/smexperiments/api_types.py:105 | `repr(s)` is delimited by one quote on both sides and reads back as `s` |
| Py.StrReprExamples | src/smexperiments/api_types.py:105 | `repr("it's")` is `"it's"` and `repr("a\\b")` is `'a\\b'` |
| BaseTypes.InverseNames | src/smexperiments/_base_types.py:37 | inverting an injective custom-name table maps every boto name back to its member and nothing else |
| BaseTypes.PlainNamesInverse | src/smexperiments/_base_types.py:24-26 | with no custom names, a bijective codec makes the member-to-boto and boto-to-member renaming undo each other |
| BaseTypes.NonNone | src/smexperiments/_base_types.py:44-51 | the entries `to_boto` keeps are exactly the entries whose value is not None, unchanged |
| BaseTypes.InitAttrs | src/smexperiments/_base_types.py:31-32 | `cls(**kwargs)` holds every keyword argument and None for every defaulted constructor parameter not given |
| BaseTypes.FromBotoWith | src/smexperiments/_base_types.py:34-42 | `from_boto(d, **kwargs)` builds an instance of the class in which the explicit keyword arguments win over converted fields, and every constructor default is present |
| BaseTypes.VarsRoundTrip | src/smexperiments/_base_types.py:34-51 | converting an object's members out and back gives its non-None members |
| BaseTypes.EntriesRoundTrip | src/smexperiments/_base_types.py:34-51 | renaming back the boto dict of an object whose members each convert back recovers its non-None members |
| BaseTypes.MemberRoundTrip | src/smexperiments/_base_types.py:34-51 | a member value, nested object, list or dict of nested objects, converts out and back to itself |
| BaseTypes.ObjectRoundTrip | src/smexperiments/_base_types.py:34-51 | `cls.from_boto(cls.to_boto(obj)) == obj` for every object whose None members are constructor defaults |
| BaseTypes.GenericFromBoto | src/smexperiments/_base_types.py:34-42 | `from_boto` of a class without an override constructs the class from the converted fields |
| BaseTypes.GenericToBoto | src/smexperiments/_base_types.py:44-51 | `to_boto` of a class without an override is the dict of the object's converted members |
| BaseTypes.ToBoto | src/smexperiments/_base_types.py:44-51 | a class without an override converts only an object or a dict, into a dict; `GenericToBoto` and the round-trip lemmas give its contents |
| BaseTypes.FromBoto | src/smexperiments/_base_types.py:34-42 | a class without an override reads only a dict, into an instance of that class carrying every constructor default; `GenericFromBoto` and the round-trip lemmas give its fields |
| BaseTypes.DefaultsRestored | src/smexperiments/_base_types.py:31-42 | the constructor's defaults put back exactly the None members that `to_boto` dropped |
| BaseTypes.KwargsRoundTrip | src/smexperiments/_base_types.py:34-51 | converting a boto dict into an object and back out gives its non-None entries |
| BaseTypes.ConvertedKwargs | src/smexperiments/_base_types.py:37-40 | when every entry converts, `from_boto` succeeds with the renamed, converted entries |
| BaseTypes.ConvertedVars | src/smexperiments/_base_types.py:47-51 | when every non-None member converts, `to_boto` succeeds with the renamed, converted members |
| BaseTypes.MemberRoundTripIn | src/smexperiments/_base_types.py:34-51 | a boto member value converts in and back out to itself, and is None exactly when its conversion is |
| BaseTypes.ObjectRoundTripIn | src/smexperiments/_base_types.py:34-51 | `cls.to_boto(cls.from_boto(d)) == d` for every boto dict without None entries in nested objects |
| BaseTypes.GenericRoundTripIn | src/smexperiments/_base_types.py:34-51 | the same round trip for a class with the generic conversion |
| BaseTypes.NestedHasNoNones | src/smexperiments/_base_types.py:44-51 | a boto dict that round-trips inside a nested object has no None entries |
| BaseTypes.EqualityLaws | src/smexperiments/_base_types.py:53-61 | `__eq__` is reflexive, symmetric between objects of the same class, and `__ne__` is its negation |
| BaseTypes.OperatorEqualityExact | src/smexperiments/_base_types.py:53-61 | in a hierarchy without cycles, the operator `==` (which asks a subclass instance's `__eq__` first) holds exactly when both objects have the same class and the same attributes, so it is symmetric, and `!=` is its negation |
| BaseTypes.OperatorEq | src/smexperiments/_base_types.py:53-61 | `x == y` implies both are objects with the same attributes and classes that are equal or one a proper subclass of the other; `OperatorEqualityExact` gives the converse |
| BaseTypes.SubclassEqualityAsymmetric | src/smexperiments/_base_types.py:53-61 | `base.__eq__(sub)` holds for a subclass instance with the same attributes but `sub.__eq__(base)` does not, because of `isinstance(other, self.__class__)`; the operators give `base == sub` and `sub == base` both False and `!=` both True |
| BaseTypes.WellFormedExtended | src/smexperiments/_base_types.py:24-29 | adding a class without custom names, whose custom types are registered, keeps the class tables consistent |
| BaseTypes.GeneratedName | src/smexperiments/trial.py:82 | a generated name starts with the prefix and a dash |
| BaseTypes.Select | src/smexperiments/_base_types.py:134 | the member filter keeps exactly the attributes named in the member list, values unchanged |
| BaseTypes.WithBotoAttrs | src/smexperiments/_base_types.py:123-131 | after `with_boto` the attributes are the old ones updated with the converted response fields, which win |
| BaseTypes.InvokeRequestMembers | src/smexperiments/_base_types.py:133-135 | the request carries exactly the listed members that are present and not None, under their boto names |
| BaseTypes.Invoke | src/smexperiments/_base_types.py:133-138 | `_invoke_api` sends the request exactly when the members convert; a raised exception leaves the attributes unchanged; success merges the response |
| BaseTypes.PlainVars | src/smexperiments/_base_types.py:44-51 | for a class without custom types, `to_boto` succeeds and keeps every non-None value under its boto name, and nothing else |
| BaseTypes.PlainVarsKey | src/smexperiments/_base_types.py:44-51 | for such a class, a member's boto name is in the result exactly when the member is set and not None |
| BaseTypes.PlainRequest | src/smexperiments/_base_types.py:133-137 | for such a class, `_invoke_api` sends the listed members that are set and not None, renamed and unchanged, and nothing else |
| BaseTypes.Record.constructor | src/smexperiments/_base_types.py:89-91 | a record holds its client and exactly the keyword arguments |
| BaseTypes.Record.WithBoto | src/smexperiments/_base_types.py:123-131 | merges the converted response into the attributes; a failed conversion raises and changes nothing |
| BaseTypes.Record.InvokeApi | src/smexperiments/_base_types.py:133-138 | sends the filtered, converted members to the operation, then merges the response; each failure point raises and leaves the attributes unchanged |
| BaseTypes.Construct | src/smexperiments/_base_types.py:117-121 | a fresh record built from the keyword arguments, all of which are sent to the operation and then merged with the response |
| BaseTypes.Produce | src/smexperiments/_base_types.py:112-113 | the items built are the factory's results for a prefix of the page, in order, stopping at the first that raises |
| BaseTypes.Step | src/smexperiments/_base_types.py:104-115 | a page continues the listing only with a truthy next token, and never runs out of fuel itself |
| BaseTypes.WalkStep | src/smexperiments/_base_types.py:104-115 | a listing is its first page followed by the listing from the next token, unless that page ends it |
| BaseTypes.BuildItems | src/smexperiments/_base_types.py:112-113 | the loop that yields the built items meets `Produce` |
| BaseTypes.FetchPage | src/smexperiments/_base_types.py:105-113 | fetching one page meets `Step` |
| BaseTypes.List | src/smexperiments/_base_types.py:93-115 | the kwargs conversion fails before any call, or the while loop's requests, items and outcome are exactly the listing `Walk` |
| BaseTypes.PagesBuilt | src/smexperiments/_base_types.py:110-113 | the items of each requested page, one entry per request, in order |
| BaseTypes.PagesRequests | src/smexperiments/_base_types.py:103-115 | a listing makes at most `fuel` calls, the first of them its first step's request, and consecutive requests are linked as each step links them |
| BaseTypes.PagesEnd | src/smexperiments/_base_types.py:114-115 | a listing ends exhausted only at a request its step ended on, and out of fuel only after `fuel` calls |
| BaseTypes.PagesItems | src/smexperiments/_base_types.py:112-113 | the items of a listing are the items of its pages, concatenated in order |
| BaseTypes.WalkRequests | src/smexperiments/_base_types.py:103-109 | the first request carries no NextToken (for the initial None token); each later request is the base request with the previous response's truthy token |
| BaseTypes.WalkEnd | src/smexperiments/_base_types.py:111-115 | a listing ends right after the first response whose token is absent, None or empty, or after `fuel` calls |
| BaseTypes.WalkItems | src/smexperiments/_base_types.py:110-113 | the items yielded are the items of every page, in page order, then item order; a missing items key is an empty page |
| BaseTypes.StepFacts | src/smexperiments/_base_types.py:105-115 | one page step sends the base request plus a truthy token, continues only after a truthy next token and stops exhausted only after a falsy one |
| BaseTypes.StepBuilt | src/smexperiments/_base_types.py:110-113 | the items a page step builds are the items of that page |
| ApiTypes.ClassesWellFormed | src/smexperiments/api_types.py:19-188 | the SDK's value classes form a consistent registry under a bijective name codec |
| ApiTypes.PlainRegistryWellFormed | src/smexperiments/api_types.py:19-188 | a registry without custom names that is closed under its custom types is consistent |
| ApiTypes.EncodeParameter | src/smexperiments/api_types.py:102-105 | a number becomes `{"NumberValue": v}`, anything else `{"StringValue": str(v)}` |
| ApiTypes.DecodeParameter | src/smexperiments/api_types.py:94-95 | a decoded value is NumberValue if present, else StringValue if present, else None |
| ApiTypes.EncodedParameters | src/smexperiments/api_types.py:98-106 | `to_boto` keeps the key set and encodes every value |
| ApiTypes.DecodedParameters | src/smexperiments/api_types.py:91-96 | `from_boto` keeps the key set and decodes every entry; an entry that is not a dict raises |
| ApiTypes.ParametersToBoto | src/smexperiments/api_types.py:98-106 | the loop that fills the boto dict meets `EncodedParameters` |
| ApiTypes.ParametersFromBoto | src/smexperiments/api_types.py:91-96 | the loop that decodes the boto dict meets `DecodedParameters` |
| ApiTypes.ParametersRoundTrip | src/smexperiments/api_types.py:91-106 | `from_boto(to_boto(p)) == p` for a map of numbers and strings |
| ApiTypes.ParametersRoundTripIn | src/smexperiments/api_types.py:91-106 | `to_boto(from_boto(b)) == b` for a boto map in wire form |
| ApiTypes.NoneParameterBecomesString | src/smexperiments/api_types.py:102-105 | a None parameter is sent as the string "None" and comes back as that string, so the round trip needs numbers and strings |
| ApiTypes.ParameterValueStr | src/smexperiments/api_types.py:82-87 | `str(param)` is the string value if set, else `str()` of the number value if set, else `""` |
| ApiTypes.ParameterValueRenderings | src/smexperiments/api_types.py:77-87 | the three renderings for values the constructor builds |
| ApiTypes.PlainFromBoto | src/smexperiments/_base_types.py:34-42 | `from_boto` of a plain class always succeeds on a dict: every key renamed, values unchanged, every default present |
| ApiTypes.PlainKwargs | src/smexperiments/_base_types.py:37-40 | the keyword arguments of a plain class are the boto keys renamed by the codec, the values unchanged |
| ApiTypes.SummaryCarriesNameAndArn | src/smexperiments/api_types.py:29-66 | an experiment summary always carries its name and ARN, and so does a trial summary, None when absent, so equality compares them |
| ApiTypes.BatchErrorShape | src/smexperiments/api_types.py:182-188 | a decoded batch error has code, message and metric_index, None when absent |
| ApiTypes.SummaryStatusNested | src/smexperiments/api_types.py:131-152 | `TrialComponentSummary.from_boto` decodes Status as a nested TrialComponentStatus with primary_status and message; a non-dict Status raises |
| ApiTypes.StatusMember | src/smexperiments/api_types.py:136-138 | a class whose custom-typed member is a single status decodes that member through TrialComponentStatus |
| ApiTypes.StatusKwargs | src/smexperiments/api_types.py:136-138 | in such a class Status is converted through its class and every other entry is only renamed |
| Search.EnumValuesDistinct | src/smexperiments/search_expression.py:18-38 | Operator and BooleanOperator values are pairwise distinct, within and across the two enums |
| Search.ClassesWellFormed | src/smexperiments/search_expression.py:41-111 | the search classes form a consistent registry under a bijective codec |
| Search.ChildToBoto | src/smexperiments/search_expression.py:44-46 | a search object converts its attributes; any other value has no instance `to_boto` and raises |
| Search.ChildrenToBoto | src/smexperiments/search_expression.py:83-110 | a child list is converted element by element, keeping length and order, failing at the first child that raises |
| Search.SearchObjectWire | src/smexperiments/search_expression.py:41-46 | every search object converts: its non-None attributes under their boto names, values unchanged |
| Search.NewFilter | src/smexperiments/search_expression.py:56-66 | a filter stores name and value and the operator's string value, or None when omitted |
| Search.NewNestedFilter | src/smexperiments/search_expression.py:75-83 | a nested filter stores the property name as `nested_property_name` and the converted filters in order |
| Search.OptionalChildren | src/smexperiments/search_expression.py:108-110 | a given child list is converted; None stays None |
| Search.NewSearchExpression | src/smexperiments/search_expression.py:97-111 | raises ValueError exactly when all three lists are None; an empty list counts as given; each given list is converted and the operator stored as its string |
| Search.FilterWire | src/smexperiments/search_expression.py:56-66 | `Filter.to_boto()` carries exactly the fields that are not None |
| Search.ExpressionWire | src/smexperiments/search_expression.py:97-111 | the wire form always carries the operator and carries each child list exactly when it was given, so `sub_expressions=[]` is sent as `[]` |
| Search.DefaultOperatorIsAnd | src/smexperiments/search_expression.py:97-111 | the stored boolean operator defaults to "And" |
| TrialComponent.ClassesWellFormed | src/smexperiments/trial_component.py:44-51 | the trial component's class tables are consistent under a bijective codec |
| TrialComponent.Load | src/smexperiments/trial_component.py:73-88 | `load` is `_construct` of the describe operation with the trial component name |
| TrialComponent.Create | src/smexperiments/trial_component.py:91-104 | `create` is `_construct` of the create operation with the name and display name |
| TrialComponent.Save | src/smexperiments/trial_component.py:53-67 | `save` invokes the update operation with the update member list |
| Trial.ClassesWellFormed | src/smexperiments/trial.py:18-34 | the trial's class tables are consistent under a bijective codec |
| Trial.Save | src/smexperiments/trial.py:40-42 | `save` invokes update_trial with the update members |
| Trial.Delete | src/smexperiments/trial.py:44-50 | `delete` invokes delete_trial with the delete members |
| Trial.SaveSendsOnly | src/smexperiments/trial.py:33-42 | `save` sends trial_name and display_name, each only when set and not None, and nothing else |
| Trial.DeleteSendsOnly | src/smexperiments/trial.py:34-50 | `delete` sends trial_name when set and not None, and nothing else |
| Trial.Load | src/smexperiments/trial.py:52-66 | `load` is `_construct` of describe_trial with the trial name |
| Trial.CreateName | src/smexperiments/trial.py:82 | the given trial name when truthy, else a generated name starting `Trial-` |
| Trial.Create | src/smexperiments/trial.py:68-92 | `create` sends the experiment name and the defaulted trial name to create_trial |
| Trial.ListRequestDropsNone | src/smexperiments/trial.py:121-131 | the listing request carries ExperimentName exactly when one is given, and only filters that are not None |
| Trial.List | src/smexperiments/trial.py:94-131 | listing yields trial summaries from the `TrialSummaries` of every page, as `_list` does |
| Trial.ListKwargs | src/smexperiments/trial.py:121-131 | `list` passes exactly the five filters experiment name, created before and after, sort by and sort order to `_list`; `ListRequestDropsNone` gives the request they make |
| Trial.ResolveComponentName | src/smexperiments/trial.py:143-148 | a Tracker gives its trial component's name, a TrialComponent its own name, anything else `str(tc)` |
| Trial.Association | src/smexperiments/trial.py:149-151 | the call names the trial and the resolved component |
| Trial.AddTrialComponent | src/smexperiments/trial.py:133-151 | add calls associate_trial_component with the trial name and the resolved component name |
| Trial.RemoveTrialComponent | src/smexperiments/trial.py:153-169 | remove calls disassociate_trial_component with the same resolution |
| Trial.AddAndRemoveAgree | src/smexperiments/trial.py:143-169 | adding and removing name the same trial and component, and a tracker, its component and the component's name all resolve alike |
| Experiment.ClassesWellFormed | src/smexperiments/experiment.py:18-59 | the experiment's class tables are consistent under a bijective codec |
| Experiment.Save | src/smexperiments/experiment.py:63-69 | `save` invokes update_experiment with the update members |
| Experiment.Delete | src/smexperiments/experiment.py:71-79 | `delete` invokes delete_experiment with the delete members |
| Experiment.SaveSendsOnly | src/smexperiments/experiment.py:58-69 | `save` sends only experiment_name, description and display_name, each when set and not None |
| Experiment.DeleteSendsOnly | src/smexperiments/experiment.py:59-79 | `delete` sends only experiment_name, when set and not None |
| Experiment.Load | src/smexperiments/experiment.py:81-98 | `load` is `_construct` of describe_experiment with the experiment name |
| Experiment.Create | src/smexperiments/experiment.py:100-121 | `create` is `_construct` of create_experiment with the name, description and tags |
| Experiment.TrialName | src/smexperiments/experiment.py:239-240 | the given trial name when truthy, else a generated name starting with the prefix |
| Experiment.CreateTrialKeepsName | src/smexperiments/experiment.py:239-243 | the chosen name is truthy, so `Trial.create` keeps it |
| Experiment.CreateTrial | src/smexperiments/experiment.py:221-243 | creates a trial of this experiment under the given name, else a generated one starting with the prefix (default "SageMakerTrial") |
| Experiment.DeleteComponents | src/smexperiments/experiment.py:268-274 | each listed trial component is loaded and deleted in order, stopping at the first call that raises |
| Experiment.DeleteOneTrial | src/smexperiments/experiment.py:266-278 | a trial is loaded, its components listed and deleted, then the trial is deleted |
| Experiment.DeleteTrials | src/smexperiments/experiment.py:265-278 | every listed trial in turn, stopping at the first that fails |
| Experiment.Attempt | src/smexperiments/experiment.py:264-281 | one attempt lists the trials, deletes each, then deletes the experiment |
| Experiment.Retry | src/smexperiments/experiment.py:259-285 | the retry loop: an attempt per round until one succeeds, raising after the third failure, chained to it |
| Experiment.DeleteAllSpec | src/smexperiments/experiment.py:245-285 | any action other than "--force" raises ValueError before any call; otherwise the retry loop |
| Experiment.ComponentsDeleted | src/smexperiments/experiment.py:268-274 | when a trial's components all went through, each of them got a delete call |
| Experiment.TrialAfterItsComponents | src/smexperiments/experiment.py:266-278 | a trial is deleted only after its components are listed and each of them is deleted, and that is the trial's last call |
| Experiment.TrialsDeleted | src/smexperiments/experiment.py:265-278 | when every trial went through, each of them got a delete call |
| Experiment.ExperimentAfterItsTrials | src/smexperiments/experiment.py:264-280 | the experiment is deleted only after the trials were listed and every listed trial was deleted |
| Experiment.RetryExtends | src/smexperiments/experiment.py:259-285 | the calls of the retry loop extend the calls made before it |
| Experiment.OneListingPerAttempt | src/smexperiments/experiment.py:259-285 | each attempt lists the trials exactly once, so the listings count the attempts |
| Experiment.OneListing | src/smexperiments/experiment.py:264-281 | a single attempt lists the trials once |
| Experiment.StopsAfterSuccess | src/smexperiments/experiment.py:280-281 | the loop ends right after the first successful deletion of the experiment |
| Experiment.RaisesAfterLastAttempt | src/smexperiments/experiment.py:259-263 | after the third failed attempt, the loop raises, chained to that attempt's exception |
| Experiment.DeleteAllOutcome | src/smexperiments/experiment.py:245-285 | `delete_all("--force")` makes one to three attempts, each listing the trials once; it succeeds exactly when its last call deletes the experiment successfully |
| Experiment.RetryOutcome | src/smexperiments/experiment.py:259-285 | the retry loop's outcome for any attempt of the right shape |
| Experiment.DeleteTrialComponents | src/smexperiments/experiment.py:268-274 | the inner for loop meets `DeleteComponents` |
| Experiment.RunAttempt | src/smexperiments/experiment.py:264-281 | one attempt's loops meet `Attempt` |
| Experiment.DeleteTrialOnce | src/smexperiments/experiment.py:266-278 | the body of the loop over trials meets `DeleteOneTrial` |
| Experiment.DeleteAll | src/smexperiments/experiment.py:245-285 | the while loop with its attempt counter meets `DeleteAllSpec` |
| Metrics.MetricRecord | src/smexperiments/metrics.py:187-220 | a file record carries the timestamp as seconds, an API record as a datetime; `IterationNumber` is present only when given, and then must be an int; another record type raises ValueError |
| Metrics.TakeBatch | src/smexperiments/metrics.py:133-139 | a batch is 1 to 10 items taken from the front of the queue in FIFO order, the rest left in order |
| Metrics.IndexOf | src/smexperiments/metrics.py:142 | the position of the first occurrence of an item |
| Metrics.RemoveFirst | src/smexperiments/metrics.py:142 | removing the pill removes its first occurrence and keeps everything else in order |
| Metrics.Records | src/smexperiments/metrics.py:118 | the record of every item, in order; the pill has none |
| Metrics.PyIndex | src/smexperiments/metrics.py:127 | `metric_data[i]` with Python's negative indexing; IndexError out of range |
| Metrics.ErrorObject | src/smexperiments/metrics.py:126-127 | an error object is the decoded batch error with `metric_value` set to the record its index names |
| Metrics.ErrorObjects | src/smexperiments/metrics.py:124-128 | one error object per response error, in order, failing at the first that cannot be built |
| Metrics.CollectErrors | src/smexperiments/metrics.py:124-128 | the loop that builds the error objects meets `ErrorObjects` |
| Metrics.BuildEach | src/smexperiments/metrics.py:124-128 | the loop for any way of building one object: each entry in order, stopping at the first that raises |
| Metrics.ResponseErrors | src/smexperiments/metrics.py:123-129 | a falsy `Errors` entry means no error; otherwise the error objects; a non-dict response or a missing key raises |
| Metrics.PublishCycle | src/smexperiments/metrics.py:114-131 | one publish cycle: an empty queue blocks; a closed writer's missing queue is stored as the last error; every exception is stored, never raised |
| Metrics.Deliver | src/smexperiments/metrics.py:117-129 | no items means no call; otherwise their records are submitted |
| Metrics.Submit | src/smexperiments/metrics.py:119-131 | the batch call with the resource ARN and the records, and what its outcome does to the last error |
| Metrics.Outcome | src/smexperiments/metrics.py:123-129 | the last error is kept when the response lists no errors, replaced by a writer exception holding them otherwise |
| Metrics.LogSpec | src/smexperiments/metrics.py:153-163 | a writer without a queue raises before any record is built: the closed-writer error exactly when it is closed; otherwise a record that cannot be built raises its error, and a built one ends up last on the queue, within its bound; a raising call changes nothing |
| Metrics.MakeRoom | src/smexperiments/metrics.py:153-158 | the publisher runs cycles until a full queue has room again |
| Metrics.JoinPublisher | src/smexperiments/metrics.py:168 | the publisher runs cycles until it has taken the pill |
| Metrics.CloseSpec | src/smexperiments/metrics.py:165-172 | the first close puts the pill, waits, drops the queue, marks the writer closed and raises the last error only when asked to and one exists; later calls do nothing |
| Metrics.RecordsArePending | src/smexperiments/metrics.py:118 | without a pill, the records of the items are the pending metrics |
| Metrics.PendingSkipsPill | src/smexperiments/metrics.py:140-142 | a pill contributes no metric wherever it sits |
| Metrics.StrippedBatch | src/smexperiments/metrics.py:140-143 | stripping a batch with at most one pill leaves no pill and keeps its metrics |
| Metrics.CycleSubmits | src/smexperiments/metrics.py:114-143 | a cycle takes the first `min(10, n)` items, sets the terminate flag exactly when the pill is among them, and submits the remaining metrics as one batch, or makes no call when none remain |
| Metrics.DeliverPending | src/smexperiments/metrics.py:117-122 | delivering pill-free items submits exactly their metrics, and makes no call when there are none |
| Metrics.CycleErrors | src/smexperiments/metrics.py:123-131 | a failed call is stored as the last error; per-item errors become one writer exception holding one error object per entry, in order, with `metric_value = metric_data[metric_index]`; `has_error` holds exactly when a last error is stored |
| Metrics.CycleHealthy | src/smexperiments/metrics.py:114-143 | a cycle on an open, pill-free queue keeps the writer open and the queue bounded |
| Metrics.CycleConserves | src/smexperiments/metrics.py:114-143 | a cycle moves the metrics of its batch from the queue to the submitted records, in order |
| Metrics.SubmittedChain | src/smexperiments/metrics.py:107-112 | submissions over two stretches of cycles add up |
| Metrics.MakeRoomConserves | src/smexperiments/metrics.py:155 | making room submits what it removes from the queue and leaves the queue pill-free |
| Metrics.JoinConserves | src/smexperiments/metrics.py:167-168 | joining runs until the pill is taken, leaving the queue empty and every queued metric submitted |
| Metrics.LogConserves | src/smexperiments/metrics.py:153-158 | logging puts the record behind everything queued: nothing is lost and the record is the last to be submitted |
| Metrics.CloseSubmitsAll | src/smexperiments/metrics.py:165-172 | closing an open writer submits every metric still queued, in order, before dropping the queue |
| Metrics.MetricsWriter.constructor | src/smexperiments/metrics.py:96-105 | a new writer is open, with an empty queue, no last error and nothing submitted |
| Metrics.MetricsWriter.GetItemsFromQueue | src/smexperiments/metrics.py:133-143 | takes the batch `TakeBatch` names, strips the pill and sets the terminate flag |
| Metrics.MetricsWriter.PublishMetrics | src/smexperiments/metrics.py:114-131 | one cycle meets `PublishCycle` |
| Metrics.MetricsWriter.SubmitBatch | src/smexperiments/metrics.py:119-122 | the batch call meets `Submit` |
| Metrics.MetricsWriter.RecordResponse | src/smexperiments/metrics.py:123-129 | handling the response meets `Outcome` |
| Metrics.MetricsWriter.LogMetric | src/smexperiments/metrics.py:153-163 | meets `LogSpec`: the queue is looked up first, then the record is built and put |
| Metrics.MetricsWriter.WaitForRoom | src/smexperiments/metrics.py:155 | meets `MakeRoom` |
| Metrics.MetricsWriter.WaitForPublisher | src/smexperiments/metrics.py:168 | meets `JoinPublisher` |
| Metrics.MetricsWriter.Close | src/smexperiments/metrics.py:165-172 | meets `CloseSpec` |
| Metrics.PathJoin | src/smexperiments/metrics.py:62 | the joined path starts with the directory and ends with the name |
| Metrics.MetricsFilePath | src/smexperiments/metrics.py:60-62 | the given path unless None or empty, else `<pid>.json` in the metrics directory |
| Metrics.FileLogSpec | src/smexperiments/metrics.py:35-76 | the record is written as one line to the open file; a closed writer raises; an unopened one opens its path for appending first |
| Metrics.FileCloseSpec | src/smexperiments/metrics.py:42-46 | the open file is closed and forgotten, and the writer is marked closed |
| Metrics.FileLogAppends | src/smexperiments/metrics.py:64-76 | a healthy open writer appends the record as exactly one line, opening the file on the first write |
| Metrics.FileLogAfterClose | src/smexperiments/metrics.py:64-70 | after close, logging raises the closed-writer error and writes nothing |
| Metrics.FileCloseIdempotent | src/smexperiments/metrics.py:42-46 | closing keeps the writer healthy, creates no file and is idempotent |
| Metrics.FileRunLines | src/smexperiments/metrics.py:35-76 | over any sequence of calls, the file gets exactly the records logged before close, one line each, in call order |
| Metrics.FileRunOpens | src/smexperiments/metrics.py:42-72 | the file appended to is the one already open, else the one the first write opens; closing without writing creates no file |
| Metrics.FileStep | src/smexperiments/metrics.py:35-46 | one call of a run, with what it does to a healthy writer |
| Metrics.FileMetricsWriter.constructor | src/smexperiments/metrics.py:30-33 | a new file writer has no file open and is not closed |
| Metrics.FileMetricsWriter.LogMetric | src/smexperiments/metrics.py:35-76 | meets `FileLogSpec` |
| Metrics.FileMetricsWriter.Close | src/smexperiments/metrics.py:42-46 | meets `FileCloseSpec` |
| Tracker.Basename | src/smexperiments/tracker.py:349 | the base name is a suffix of the path without `/`, preceded by `/` unless it is the whole path |
| Tracker.BasenameOfJoin | src/smexperiments/tracker.py:349-350 | the base name of `dir/name` is `name` |
| Tracker.RStripSlashes | src/smexperiments/tracker.py:344 | a prefix of the string, not ending in `/`, after which there are only slashes |
| Tracker.ExpandUser | src/smexperiments/tracker.py:344 | a path not starting with `~` is unchanged; `~user/rest` (`~/rest` for the current user) becomes that user's home directory without trailing slashes followed by `/rest` (`/` if that is empty); an unknown user leaves the path unchanged |
| Tracker.ExpandUserIdempotent | src/smexperiments/tracker.py:344 | with absolute home directories, expanding an already expanded path changes nothing |
| Tracker.ResolveArtifactName | src/smexperiments/tracker.py:326-331 | the file's base name when it has one, else a generated `artifact-` name |
| Tracker.UploadSpec | src/smexperiments/tracker.py:342-352 | a path that is not a file raises ValueError; a falsy bucket falls back to the default one, which is kept; the upload uses key `{prefix}/{tc_name}/{basename}` |
| Tracker.UploadedUri | src/smexperiments/tracker.py:349-352 | a successful upload returns `s3://{bucket}/{prefix}/{tc_name}/{basename}` |
| Tracker.ArtifactKey | src/smexperiments/tracker.py:350 | the key starts with the prefix and a slash, and its base name is the file's base name |
| Tracker.S3Uri | src/smexperiments/tracker.py:352 | the URI has the `s3://` scheme and ends with `/` and the key |
| Tracker.UriParts | src/smexperiments/tracker.py:350-352 | the URI is its directory part, ending in `/`, followed by the base name |
| Tracker.ArtifactUploader.constructor | src/smexperiments/tracker.py:335-340 | the prefix defaults to "trial-component-artifacts" when falsy |
| Tracker.ArtifactUploader.UploadArtifact | src/smexperiments/tracker.py:342-352 | meets `UploadSpec`, keeping the bucket it fell back to |
| Tracker.SetItem | src/smexperiments/tracker.py:195 | item assignment succeeds exactly on a dict, setting one key and keeping the others |
| Tracker.Update | src/smexperiments/tracker.py:209 | `update` succeeds exactly on a dict, adding every entry with overwrite and keeping the others |
| Tracker.Replaced | src/smexperiments/tracker.py:195-209 | the map attribute is replaced by the updated one; every other attribute is kept |
| Tracker.StoreItemOverwrites | src/smexperiments/tracker.py:180-195 | storing under a key twice keeps only the second value |
| Tracker.StoreItemsCommute | src/smexperiments/tracker.py:180-195 | stores under different keys commute |
| Tracker.ArtifactName | src/smexperiments/tracker.py:263 | the given name when truthy, else the resolved artifact name |
| Tracker.StoreUpload | src/smexperiments/tracker.py:264-267 | a failed upload stores nothing |
| Tracker.Defaulted | src/smexperiments/tracker.py:55-59 | missing or falsy parameter and artifact maps become `{}`, truthy ones and every other attribute are kept |
| Tracker.DefaultedIdempotent | src/smexperiments/tracker.py:57-59 | defaulting twice is defaulting once |
| Tracker.DefaultedAcceptsLogging | src/smexperiments/tracker.py:55-59 | after defaulting, a map that was missing, None or a dict accepts every store and update |
| Tracker.EnterAttrs | src/smexperiments/tracker.py:300-302 | the start time is set and the status becomes InProgress; everything else is kept |
| Tracker.ExitAttrs | src/smexperiments/tracker.py:307-314 | the end time is set and the status becomes Failed with `str(exc)` as its message, or Completed; everything else is kept |
| Tracker.WithBlockStatus | src/smexperiments/tracker.py:298-314 | a `with` block keeps the logged maps, sets both times and ends Failed or Completed |
| Tracker.Tracker.constructor | src/smexperiments/tracker.py:55-62 | the trial component's maps are defaulted; no warning yet |
| Tracker.Tracker.LogParameter | src/smexperiments/tracker.py:180-195 | sets one parameter, overwriting, leaving the rest unchanged |
| Tracker.Tracker.LogParameters | src/smexperiments/tracker.py:197-209 | merges the parameters with overwrite |
| Tracker.Tracker.LogInput | src/smexperiments/tracker.py:211-227 | stores the artifact (value, media type) under the name in the input map only |
| Tracker.Tracker.LogOutput | src/smexperiments/tracker.py:229-245 | stores the artifact under the name in the output map only |
| Tracker.Tracker.LogArtifact | src/smexperiments/tracker.py:247-267 | uploads the file first; only a successful upload is stored as an output artifact, under the given or resolved name, with the given or guessed media type |
| Tracker.Tracker.LogMetric | src/smexperiments/tracker.py:269-296 | with a writer, the writer's outcome; without one, nothing is raised and the warning is logged the first time only |
| Tracker.Tracker.Enter | src/smexperiments/tracker.py:298-303 | outside a job the component starts now and is InProgress; inside a job it is untouched |
| Tracker.Tracker.Close | src/smexperiments/tracker.py:317-323 | saves the trial component, then closes the writer whether or not the save raised |
| Tracker.Tracker.Exit | src/smexperiments/tracker.py:305-315 | outside a job the component ends now, Failed or Completed; then the tracker closes |
| Tracker.LoadDecisions | src/smexperiments/tracker.py:109-122 | `load` refuses exactly without a name and without a job environment; a file writer only in a training job without a name; a name always wins |
| Tracker.NewTracker | src/smexperiments/tracker.py:124-129 | the tracker built around a trial component: its maps defaulted, a file writer when asked for, an uploader for the component's name |
| Tracker.LoadComponent | src/smexperiments/tracker.py:109-116 | the component loaded by name, else the environment's, else ValueError |
| Tracker.Load | src/smexperiments/tracker.py:64-130 | the tracker `load` returns, with its writer and job flag, or the exception it raises |
| Tracker.Create | src/smexperiments/tracker.py:132-178 | a new trial component named `TrialComponent-<suffix>` is created and tracked with a file metrics writer |
| SageMakerTracker.AnyTypeIn | src/sagemaker/experiments/tracker.py:94-97 | the loop finds a type exactly when the ARN contains that type followed by `/` |
| SageMakerTracker.HasAutoCreatedTrialComponent | src/sagemaker/experiments/tracker.py:90-97 | true exactly when the ARN contains one of `training-job/`, `tuning-job/`, `transform-job/`, `analytics-job/` |
| SageMakerTracker.GenerateComponentName | src/sagemaker/experiments/tracker.py:56-59 | the name starts with the display name and a dash and ends with the UUID |
| SageMakerTracker.ResolveSourceArn | src/sagemaker/experiments/tracker.py:61-74 | the environment's non-empty TRAINING_JOB_ARN, else None |
| SageMakerTracker.SourceArnOf | src/sagemaker/experiments/tracker.py:29 | an explicit ARN takes precedence over the environment lookup |
| SageMakerTracker.First | src/sagemaker/experiments/tracker.py:82 | the first element of a non-empty list; IndexError for an empty one |
| SageMakerTracker.FirstSummaryName | src/sagemaker/experiments/tracker.py:76-83 | the name of the first listed summary; every step may raise |
| SageMakerTracker.FirstSummaryNameCases | src/sagemaker/experiments/tracker.py:80-83 | a response without summaries, or with an empty list of them, makes the lookup raise |
| SageMakerTracker.PlanFor | src/sagemaker/experiments/tracker.py:33-46 | an auto-created source means a lookup; otherwise no display name means refusal, else the explicit name or one generated from the display name |
| SageMakerTracker.CreateCall | src/sagemaker/experiments/tracker.py:48-54 | the create call always sends `Source` with a `SourceArn`, a string exactly when the ARN is known and None otherwise; `New` says when it is made |
| SageMakerTracker.Tracker.constructor | src/sagemaker/experiments/tracker.py:27-31 | the resolved source ARN, not failed, no component name, no calls yet |
| SageMakerTracker.Tracker.Init | src/sagemaker/experiments/tracker.py:33-54 | a failed lookup only sets the failed mode and leaves the name None; otherwise ValueError without a display name, else exactly one create call with `Source={"SourceArn": arn}` |
| SageMakerTracker.New | src/sagemaker/experiments/tracker.py:27-54 | an auto-created source makes only the lookup call; otherwise a display name is required and exactly one create call names the component |
| SageMakerTracker.TrackerInJobAndNotebook | src/sagemaker/experiments/tracker.py:27-54 | inside a training job the component is looked up; in a notebook it is created after the display name, with SourceArn None |
| Version.Increment | scripts/version.py:35-44 | major gives (M+1, 0, 0), minor (M, m+1, 0), patch (M, m, p+1); any other type gives None |
| Version.SkipV | scripts/version.py:8-14 | one leading `v` or `V` is skipped |
| Version.OptionalPart | scripts/version.py:10-55 | an optional `.digits` part is read as its number, or 0 when absent |
| Version.ParseNumbers | scripts/version.py:9-12 | the major digits, two optional parts, then only whitespace |
| Version.Parse | scripts/version.py:47-56 | the version the pattern reads, or ValueError when it does not match |
| Version.NextVersionFromCurrentVersion | scripts/version.py:59-60 | `parse(s).increment(t)`, ValueError when `s` does not parse |
| Version.SpanSpacesOver | scripts/version.py:7-12 | a run of whitespace stops at the first non-space character |
| Version.SpanDigitsOver | scripts/version.py:9-11 | a run of digits stops at the first non-digit |
| Version.OptionalPartReads | scripts/version.py:10-11 | an optional part reads its number and leaves what follows |
| Version.NumbersAccepted | scripts/version.py:9-12 | what follows the `v` is accepted: digits, optional parts, trailing whitespace |
| Version.PrefixSkipped | scripts/version.py:7-8 | leading whitespace and the optional `v` are skipped |
| Version.ParseExactly | scripts/version.py:5-56 | `parse` succeeds exactly on whitespace, an optional `v`/`V`, major digits, an optional `.minor`, an optional `.patch` after it, and whitespace (with `ParseAccepts`, it then reads those numbers) |
| Version.ParseArabicIndic | scripts/version.py:9-55 | Unicode decimal digits other than ASCII ones are matched and read: Arabic-Indic `١.٢` parses as 1.2.0 |
| Version.ParseAccepts | scripts/version.py:5-56 | optional whitespace, an optional `v`/`V`, major and optional `.minor` and `.patch` parse, missing parts reading as 0 |
| Version.ToStringPieces | scripts/version.py:30-33 | `str(v)` is the three numbers joined by dots |
| Version.ToString | scripts/version.py:30-33 | `str(v)` of a non-negative version is a string the version pattern matches, with the three numbers' digits as its parts; `ParseToString` reads it back |
| Version.Tag | scripts/version.py:28 | the tag of a non-negative version is `v` and `str(v)`, which the pattern also matches; `ParseToString` reads it back |
| Version.ParseToString | scripts/version.py:28-56 | `parse(str(v)) == v` and `parse(v.tag) == v` for every non-negative version |
| Version.ParseRejectsDanglingDot | scripts/version.py:10-50 | `1.` is rejected with ValueError |
| Version.ParseRejectsFourthPart | scripts/version.py:9-50 | `1.2.3.4` is rejected with ValueError |
| Version.ParseRejectsSpacedTag | scripts/version.py:8-50 | `v 1` is rejected with ValueError |
| SubjectParser.LabelFrom | scripts/subject_parser.py:16-21 | the first label form the subject starts with, case-insensitively, followed by optional whitespace and `:` |
| SubjectParser.CanonicalLabel | scripts/subject_parser.py:50-56 | the matched label, else "fix", through the case-sensitive canonical table |
| SubjectParser.Recorded | scripts/subject_parser.py:61-62 | a subject is appended to its label's group only when that group exists |
| SubjectParser.AfterSubjectsKeys | scripts/subject_parser.py:46-62 | recording subjects never creates a group |
| SubjectParser.FirstChange | scripts/subject_parser.py:65-67 | the first change type, in priority order, that has a group |
| SubjectParser.IncrementFor | scripts/subject_parser.py:64-69 | the increment is always "major", "minor" or "patch", and the only failure is a KeyError for a change type that has a group but no increment; `IncrementPriority` gives which |
| SubjectParser.IncrementPriority | scripts/subject_parser.py:14-69 | the mapped increment of the first change type present, else "patch" |
| SubjectParser.IncrementTable | scripts/subject_parser.py:31-38 | the entries of the increment table for each change type |
| SubjectParser.FirstChangeUnrolled | scripts/subject_parser.py:14-67 | the priority scan written out over the six change types |
| SubjectParser.AlwaysPatch | scripts/subject_parser.py:42-69 | whatever the subjects, `increment_type` returns "patch", because the groups stay empty |
| SubjectParser.BreakIsBreaking | scripts/subject_parser.py:23-56 | a subject starting `break:` is filed under "breaking" |
| SubjectParser.NoLabelIsFix | scripts/subject_parser.py:40-55 | a subject without a label is filed under "fix" |
| SubjectParser.LabelOf | scripts/subject_parser.py:16-55 | the label of a subject that spells a label form followed by a colon, and no earlier form |
| SubjectParser.SubjectParser.constructor | scripts/subject_parser.py:42-44 | the groups start empty and every subject is parsed |
| SubjectParser.SubjectParser.AddSubjects | scripts/subject_parser.py:46-48 | each subject in turn, meeting `AfterSubjects` |
| SubjectParser.SubjectParser.ParseSubject | scripts/subject_parser.py:50-62 | the subject's canonical label, and the subject appended to that label's group if there is one |
| SubjectParser.SubjectParser.IncrementType | scripts/subject_parser.py:64-69 | the loop returns `IncrementFor` the first change type with a group, else "patch" |

## Left out

- The publisher thread of `SageMakerMetricsWriter` is not modelled as a thread: the thread itself, `time.sleep`, the `join` timeout of 500 seconds and `__del__`. Publishing is a sequence of explicit cycles, and a blocking `put` or `join` runs cycles until it can proceed. The constructor race, where fields are set after the thread starts, is not modelled.
- Converting timestamps to UTC datetimes, and `float()` applied to metric values, are library and floating-point behaviour. A timestamp is an opaque moment carrying both its datetime and its epoch seconds, and a value is carried as given.
- `_boto_functions` is not part of this model. Its name conversion is the abstract bijection `NameCodec`. Its value recursion is modelled as described above, and a failing conversion raises one generic TypeError.
- The remote clients (SageMaker, S3) are functions of the request; file opening and writing are a file-state record; `mimetypes`/`urllib` in `_guess_media_type` is a parameter (`guessed`). The home directories `os.path.expanduser` consults (the `HOME` variable and the password database) are fields of `Tracker.FileSystem`.
- `src/smexperiments/_environment.py` is not part of this model. It reads environment variables and config files and polls for 300 seconds. Its result is a parameter of `Tracker.Load`: the environment type and the resolved component.
- `src/smexperiments/_utils.py` is not part of this model. It creates boto sessions and default buckets, and builds names from the clock and randomness. A generated name is `prefix-suffix` with the suffix as a parameter, and the default bucket is a parameter.
- `_search`, `Experiment.search` and `training_job.py` call a method that `_base_types.py` does not define.
- The `trial_components` branch of `Trial.create` calls an undefined `add_trial_components`.
- `TrialComponent.delete` and `TrialComponent.list` are not modelled. Their signatures disagree with their callers, so within `delete_all` their calls are remote calls that may raise.
- `Experiment.list`, `Experiment.list_trials` and `Trial.list_trial_components` are not modelled separately. Each is `_list` with fixed arguments, as `Trial.List` is.
- `__hash__`, `__repr__` and the context-manager methods of the metrics writers are not modelled. The writers' `__exit__` is just `close`.
- `scripts/release.py` and `scripts/release_manager.py` run git subprocesses and call the GitHub API.
- BaseTypes.List: the generator is consumed to the end with at most `fuel` list calls; a service that returns truthy tokens forever is cut off with the outcome `OutOfFuel`.
- Experiment.DeleteAllSpec: each listing made by `delete_all` (trials, trial components) is one call of the client; the pagination of these listings is modelled once, in `BaseTypes.List`.
- SubjectParser.CanonicalLabel: the `no match` branch of `_parse_subject` is not modelled, because the pattern matches the empty string at position 0 and so always matches.
- Metrics.PublishCycle: the publisher's loop is not modelled as a whole, only one cycle at a time, because it ends only after taking the pill.
- ApiTypes.EncodeParameter: `str()` of a dict, or of an object, is rendered as a fixed placeholder (`{...}`, `Class(...)`). Python's rendering depends on insertion order and on `__repr__`s that are not modelled. None, booleans, numbers, strings and lists of these are rendered as Python does, with the exception for list elements given under `Py.EscapeChar`.
- Py.EscapeChar: characters above U+00FF are shown as themselves. Python escapes the unprintable ones among them (format characters, separators, unassigned and private-use code points) as `\uXXXX` or `\UXXXXXXXX`, which needs Unicode's printable table. Below U+0100 the escapes are exactly Python's.
- Experiment.DeleteAllSpec: the `time.sleep(1.2)` after each trial component's and each trial's deletion (src/smexperiments/experiment.py:276 and 279) is not modelled, because the model has no clock. The calls and their order are as the source makes them.
- SageMakerTracker.Tracker.Init: the message printed by the bare `except` is not modelled, because it is output only and includes the traceback object's address.
- BaseTypes.EqualityLaws: attribute values are compared structurally, so Python's numeric equality across types (`1 == 1.0 == True`) is not modelled, because floats are carried as their `repr`.
- Version.Parse: `\d` and `int()` use the decimal digits of Unicode 15.0. Interpreters built on another Unicode version have a slightly different digit table.
