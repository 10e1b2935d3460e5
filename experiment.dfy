/**
 * The `Experiment` record: save, delete, load and create through the record
 * conventions, creating a trial inside it with a defaulted name, and
 * `delete_all`, which deletes every trial component of every trial, then
 * each trial, then the experiment, retrying the whole sequence at most three
 * times.
 */
module Experiment {
  import opened Py
  import opened BaseTypes
  import Trial

  const CreateMethod := "create_experiment"
  const LoadMethod := "describe_experiment"
  const UpdateMethod := "update_experiment"
  const DeleteMethod := "delete_experiment"

  const UpdateMembers: set<string> := {"experiment_name", "description", "display_name"}
  const DeleteMembers: set<string> := {"experiment_name"}

  const MaxDeleteAllAttempts: nat := 3

  const ExperimentClass := ApiClass("Experiment", {"Experiment", "Record", "ApiObject"}, Generic, map[], map[], {})

  /** The classes an experiment's operations convert through. */
  const Classes: Registry := Trial.Classes["Experiment" := ExperimentClass]

  lemma ClassesWellFormed(codec: NameCodec)
    requires Bijective(codec)
    ensures WellFormed(Classes, codec) && "Experiment" in Classes
  {
    Trial.ClassesWellFormed(codec);
    WellFormedExtended(Trial.Classes, codec, ExperimentClass);
  }

  // ---------------------------------------------------------------------------
  // save, delete, load, create

  /** `experiment.save()`. */
  method Save(e: Record) returns (raised: Option<Exception>)
    requires e.Valid() && e.cls == "Experiment"
    modifies e
    ensures var r := Invoke(e.reg, e.codec, e.cls, e.client, old(e.attrs), UpdateMethod, UpdateMembers);
      raised == r.raised && e.attrs == r.attrs
  {
    var sent;
    sent, raised := e.InvokeApi(UpdateMethod, UpdateMembers);
  }

  /** `experiment.delete()`. */
  method Delete(e: Record) returns (raised: Option<Exception>)
    requires e.Valid() && e.cls == "Experiment"
    modifies e
    ensures var r := Invoke(e.reg, e.codec, e.cls, e.client, old(e.attrs), DeleteMethod, DeleteMembers);
      raised == r.raised && e.attrs == r.attrs
  {
    var sent;
    sent, raised := e.InvokeApi(DeleteMethod, DeleteMembers);
  }

  /** `save` sends the name, the description and the display name, each only when set and not None, and nothing else. */
  lemma SaveSendsOnly(reg: Registry, codec: NameCodec, attrs: map<string, Value>)
    requires WellFormed(reg, codec) && "Experiment" in reg && reg["Experiment"] == ExperimentClass
    ensures var r := InvokeRequest(reg, codec, "Experiment", attrs, UpdateMembers);
      && r.Success?
      && (forall k :: k in r.value <==>
            (k == codec.toBoto("experiment_name") && AttrOf(attrs, "experiment_name") != NoneV)
            || (k == codec.toBoto("description") && AttrOf(attrs, "description") != NoneV)
            || (k == codec.toBoto("display_name") && AttrOf(attrs, "display_name") != NoneV))
      && (AttrOf(attrs, "experiment_name") != NoneV ==> r.value[codec.toBoto("experiment_name")] == attrs["experiment_name"])
      && (AttrOf(attrs, "description") != NoneV ==> r.value[codec.toBoto("description")] == attrs["description"])
      && (AttrOf(attrs, "display_name") != NoneV ==> r.value[codec.toBoto("display_name")] == attrs["display_name"])
  {
    PlainRequest(reg, codec, "Experiment", attrs, UpdateMembers);
  }

  /** `delete` sends the experiment name when it is set and not None, and nothing else. */
  lemma DeleteSendsOnly(reg: Registry, codec: NameCodec, attrs: map<string, Value>)
    requires WellFormed(reg, codec) && "Experiment" in reg && reg["Experiment"] == ExperimentClass
    ensures var r := InvokeRequest(reg, codec, "Experiment", attrs, DeleteMembers);
      && r.Success?
      && r.value.Keys == (if AttrOf(attrs, "experiment_name") != NoneV then {codec.toBoto("experiment_name")} else {})
      && (AttrOf(attrs, "experiment_name") != NoneV ==> r.value[codec.toBoto("experiment_name")] == attrs["experiment_name"])
  {
    PlainRequest(reg, codec, "Experiment", attrs, DeleteMembers);
  }

  /** `Experiment.load(experiment_name)`. */
  method Load(codec: NameCodec, client: Client, experimentName: Value) returns (e: Record, raised: Option<Exception>)
    requires WellFormed(Classes, codec) && "Experiment" in Classes
    ensures fresh(e) && e.Valid() && e.reg == Classes && e.codec == codec && e.cls == "Experiment" && e.client == client
    ensures var kwargs := map["experiment_name" := experimentName];
      var r := Invoke(Classes, codec, "Experiment", client, kwargs, LoadMethod, kwargs.Keys);
      raised == r.raised && e.attrs == r.attrs
  {
    var sent;
    e, sent, raised := Construct(Classes, codec, "Experiment", client, LoadMethod, map["experiment_name" := experimentName]);
  }

  /** `Experiment.create(experiment_name, description, tags)`. */
  method Create(codec: NameCodec, client: Client, experimentName: Value, description: Value, tags: Value)
    returns (e: Record, raised: Option<Exception>)
    requires WellFormed(Classes, codec) && "Experiment" in Classes
    ensures fresh(e) && e.Valid() && e.reg == Classes && e.codec == codec && e.cls == "Experiment" && e.client == client
    ensures var kwargs := map["experiment_name" := experimentName, "description" := description, "tags" := tags];
      var r := Invoke(Classes, codec, "Experiment", client, kwargs, CreateMethod, kwargs.Keys);
      raised == r.raised && e.attrs == r.attrs
  {
    var sent;
    e, sent, raised := Construct(Classes, codec, "Experiment", client, CreateMethod,
                                 map["experiment_name" := experimentName, "description" := description, "tags" := tags]);
  }

  // ---------------------------------------------------------------------------
  // create_trial

  /** `if not trial_name: trial_name = _utils.name(trial_name_prefix)`. */
  function TrialName(trialName: Value, prefix: string, suffix: string): (n: Value)
    ensures Truthy(n)
    ensures Truthy(trialName) ==> n == trialName
    ensures !Truthy(trialName) ==> n.StrV? && StartsWith(n.s, prefix + "-")
  {
    if Truthy(trialName) then trialName else StrV(GeneratedName(prefix, suffix))
  }

  /** The default prefix of a generated trial name. */
  const DefaultTrialNamePrefix := "SageMakerTrial"

  /** The name chosen here is truthy, so `Trial.create` keeps it instead of generating its own. */
  lemma CreateTrialKeepsName(trialName: Value, prefix: string, suffix: string, otherSuffix: string)
    ensures Trial.CreateName(TrialName(trialName, prefix, suffix), otherSuffix) == TrialName(trialName, prefix, suffix)
    ensures !Truthy(trialName) ==> StartsWith(Trial.CreateName(TrialName(trialName, prefix, suffix), otherSuffix).s, prefix + "-")
  {
  }

  /** `experiment.create_trial(trial_name, trial_name_prefix)`: a trial of this experiment. */
  method CreateTrial(e: Record, trialName: Value, prefix: string, suffix: string, otherSuffix: string)
    returns (t: Record, raised: Option<Exception>)
    requires e.Valid() && e.cls == "Experiment" && WellFormed(Trial.Classes, e.codec) && "Trial" in Trial.Classes
    ensures fresh(t) && t.Valid() && t.cls == "Trial" && t.client == e.client
    ensures var kwargs := map["trial_name" := TrialName(trialName, prefix, suffix), "experiment_name" := AttrOf(e.attrs, "experiment_name")];
      var r := Invoke(Trial.Classes, e.codec, "Trial", e.client, kwargs, Trial.CreateMethod, kwargs.Keys);
      raised == r.raised && t.attrs == r.attrs
  {
    var name := TrialName(trialName, prefix, suffix);
    CreateTrialKeepsName(trialName, prefix, suffix, otherSuffix);
    assert Trial.CreateName(name, otherSuffix) == name;
    t, raised := Trial.Create(e.codec, e.client, AttrOf(e.attrs, "experiment_name"), name, otherSuffix);
  }

  // ---------------------------------------------------------------------------
  // delete_all

  /** A call `delete_all` makes, naming the trial or trial component it concerns. */
  datatype Action =
    | ListTrials
    | LoadTrial(trial: Value)
    | ListTrialComponents(trial: Value)
    | LoadComponent(component: Value)
    | DeleteComponent(component: Value)
    | DeleteTrial(trial: Value)
    | DeleteExperiment

  /**
   * The service `delete_all` talks to: the number of the call in the whole
   * run and the call, to what it returns (the names, for the two listings)
   * or raises.
   */
  type Service = (nat, Action) -> Result<seq<Value>>

  /** The calls made so far, and the exception that ended the attempt, if any. */
  datatype Progress = Progress(calls: seq<Action>, failure: Option<Exception>)

  /** Calls made on behalf of one trial. */
  predicate TrialWork(a: Action) {
    !a.ListTrials? && !a.DeleteExperiment?
  }

  /** Load then delete each listed trial component, stopping at the first call that raises. */
  function DeleteComponents(s: Service, calls: seq<Action>, components: seq<Value>): (r: Progress)
    ensures |calls| <= |r.calls| && r.calls[..|calls|] == calls
    ensures forall i :: |calls| <= i < |r.calls| ==> r.calls[i].LoadComponent? || r.calls[i].DeleteComponent?
    decreases |components|
  {
    if |components| == 0 then Progress(calls, None)
    else
      var c := components[0];
      match s(|calls|, LoadComponent(c))
      case Failure(e) => Progress(calls + [LoadComponent(c)], Some(e))
      case Success(_) =>
        match s(|calls| + 1, DeleteComponent(c))
        case Failure(e) => Progress(calls + [LoadComponent(c), DeleteComponent(c)], Some(e))
        case Success(_) => DeleteComponents(s, calls + [LoadComponent(c), DeleteComponent(c)], components[1..])
  }

  /** One trial: load it, list its components, delete them, then delete the trial. */
  function DeleteOneTrial(s: Service, calls: seq<Action>, t: Value): (r: Progress)
    ensures |calls| < |r.calls| && r.calls[..|calls|] == calls
    ensures forall i :: |calls| <= i < |r.calls| ==> TrialWork(r.calls[i])
  {
    match s(|calls|, LoadTrial(t))
    case Failure(e) => Progress(calls + [LoadTrial(t)], Some(e))
    case Success(_) =>
      var listed := calls + [LoadTrial(t), ListTrialComponents(t)];
      match s(|calls| + 1, ListTrialComponents(t))
      case Failure(e) => Progress(listed, Some(e))
      case Success(components) =>
        var p := DeleteComponents(s, listed, components);
        if p.failure.Some? then p
        else Progress(p.calls + [DeleteTrial(t)], if s(|p.calls|, DeleteTrial(t)).Failure? then Some(s(|p.calls|, DeleteTrial(t)).error) else None)
  }

  /** Every listed trial in turn, stopping at the first that fails. */
  function DeleteTrials(s: Service, calls: seq<Action>, trials: seq<Value>): (r: Progress)
    ensures |calls| <= |r.calls| && r.calls[..|calls|] == calls
    ensures forall i :: |calls| <= i < |r.calls| ==> TrialWork(r.calls[i])
    decreases |trials|
  {
    if |trials| == 0 then Progress(calls, None)
    else
      var p := DeleteOneTrial(s, calls, trials[0]);
      if p.failure.Some? then p else DeleteTrials(s, p.calls, trials[1..])
  }

  /** One attempt: list the trials, delete each, then delete the experiment. */
  function Attempt(s: Service, calls: seq<Action>): (r: Progress)
    ensures |calls| < |r.calls| && r.calls[..|calls|] == calls && r.calls[|calls|] == ListTrials
  {
    match s(|calls|, ListTrials)
    case Failure(e) => Progress(calls + [ListTrials], Some(e))
    case Success(trials) =>
      var p := DeleteTrials(s, calls + [ListTrials], trials);
      if p.failure.Some? then p
      else Progress(p.calls + [DeleteExperiment], if s(|p.calls|, DeleteExperiment).Failure? then Some(s(|p.calls|, DeleteExperiment).error) else None)
  }

  /** What `delete_all` did: its calls, the number of attempts, what it raised and the exception that one was raised from. */
  datatype DeleteAllResult = DeleteAllResult(calls: seq<Action>, attempts: nat, raised: Option<Exception>, cause: Option<Exception>)

  const FailedToDelete := Exception("Exception", "Failed to delete, please try again.")
  const NotConfirmed := ValueError("Must confirm with string '--force' in order to delete the experiment and associated trials, trial components.")

  /**
   * The retry loop from attempt `count` on, `last` being the exception of
   * the previous attempt; `attempt` makes one attempt after the given calls.
   */
  function Retry(attempt: seq<Action> -> Progress, calls: seq<Action>, count: nat, last: Option<Exception>): (r: DeleteAllResult)
    requires count <= MaxDeleteAllAttempts
    ensures count <= r.attempts <= MaxDeleteAllAttempts
    decreases MaxDeleteAllAttempts - count
  {
    if count == MaxDeleteAllAttempts then DeleteAllResult(calls, count, Some(FailedToDelete), last)
    else
      var p := attempt(calls);
      if p.failure.None? then DeleteAllResult(p.calls, count + 1, None, None)
      else Retry(attempt, p.calls, count + 1, p.failure)
  }

  /** `experiment.delete_all(action)`. */
  function DeleteAllSpec(s: Service, action: string): (r: DeleteAllResult)
    ensures action != "--force" ==> r == DeleteAllResult([], 0, Some(NotConfirmed), None)
    ensures r.attempts <= MaxDeleteAllAttempts
  {
    if action != "--force" then DeleteAllResult([], 0, Some(NotConfirmed), None)
    else Retry(Attempts(s), [], 0, None)
  }

  /** One attempt against `s`, as a function of the calls made before it. */
  function Attempts(s: Service): seq<Action> -> Progress {
    c => Attempt(s, c)
  }

  // What delete_all guarantees

  /** A suffix of a sequence that extends `b` is the rest of `b` followed by what was added. */
  lemma SuffixOfExtension(a: seq<Action>, b: seq<Action>, k: nat)
    requires k <= |b| <= |a| && a[..|b|] == b
    ensures a[k..] == b[k..] + a[|b|..]
  {
    assert a == a[..|b|] + a[|b|..];
  }

  /** When the components of a trial were all deleted, each of them got a delete call. */
  lemma {:induction false} ComponentsDeleted(s: Service, calls: seq<Action>, components: seq<Value>)
    ensures var r := DeleteComponents(s, calls, components);
      r.failure.None? ==> forall c :: c in components ==> DeleteComponent(c) in r.calls[|calls|..]
    decreases |components|
  {
    if |components| > 0 {
      var c := components[0];
      var next := calls + [LoadComponent(c), DeleteComponent(c)];
      if s(|calls|, LoadComponent(c)).Success? && s(|calls| + 1, DeleteComponent(c)).Success? {
        var r := DeleteComponents(s, next, components[1..]);
        ComponentsDeleted(s, next, components[1..]);
        assert r.calls[|calls|..] == [LoadComponent(c), DeleteComponent(c)] + r.calls[|next|..] by {
          assert r.calls[..|next|] == next;
        }
      }
    }
  }

  /**
   * A trial is deleted only after its components are listed and each of
   * them is deleted, and deleting the trial is its last call; when the
   * trial went through, that call was made.
   */
  lemma TrialAfterItsComponents(s: Service, calls: seq<Action>, t: Value)
    ensures var r := DeleteOneTrial(s, calls, t);
      DeleteTrial(t) in r.calls[|calls|..] ==>
        && r.calls[|r.calls| - 1] == DeleteTrial(t)
        && s(|calls| + 1, ListTrialComponents(t)).Success?
        && forall c :: c in s(|calls| + 1, ListTrialComponents(t)).value ==> DeleteComponent(c) in r.calls[|calls|..|r.calls| - 1]
    ensures var r := DeleteOneTrial(s, calls, t);
      r.failure.None? ==> DeleteTrial(t) in r.calls[|calls|..]
  {
    var r := DeleteOneTrial(s, calls, t);
    if s(|calls|, LoadTrial(t)).Failure? {
      assert r.calls[|calls|..] == [LoadTrial(t)];
    } else if s(|calls| + 1, ListTrialComponents(t)).Failure? {
      assert r.calls[|calls|..] == [LoadTrial(t), ListTrialComponents(t)];
    } else {
      var listed := calls + [LoadTrial(t), ListTrialComponents(t)];
      var components := s(|calls| + 1, ListTrialComponents(t)).value;
      var p := DeleteComponents(s, listed, components);
      assert p.calls[|calls|..] == [LoadTrial(t), ListTrialComponents(t)] + p.calls[|listed|..] by {
        assert p.calls[..|listed|] == listed;
      }
      assert DeleteTrial(t) !in p.calls[|calls|..];
      if p.failure.None? {
        ComponentsDeleted(s, listed, components);
        assert r.calls[|calls|..|r.calls| - 1] == p.calls[|calls|..];
        assert r.calls[|calls|..] == p.calls[|calls|..] + [DeleteTrial(t)];
      } else {
        assert r.calls[|calls|..] == p.calls[|calls|..];
      }
    }
  }

  /** When every trial went through, each of them got a delete call. */
  lemma {:induction false} TrialsDeleted(s: Service, calls: seq<Action>, trials: seq<Value>)
    ensures var r := DeleteTrials(s, calls, trials);
      r.failure.None? ==> forall t :: t in trials ==> DeleteTrial(t) in r.calls[|calls|..]
    decreases |trials|
  {
    if |trials| > 0 {
      var p := DeleteOneTrial(s, calls, trials[0]);
      if p.failure.None? {
        TrialAfterItsComponents(s, calls, trials[0]);
        TrialsDeleted(s, p.calls, trials[1..]);
        var r := DeleteTrials(s, p.calls, trials[1..]);
        assert DeleteTrials(s, calls, trials) == r;
        SuffixOfExtension(r.calls, p.calls, |calls|);
        forall t | t in trials && r.failure.None?
          ensures DeleteTrial(t) in r.calls[|calls|..]
        {
          if t == trials[0] {
            assert DeleteTrial(t) in p.calls[|calls|..];
          } else {
            assert t in trials[1..];
            assert DeleteTrial(t) in r.calls[|p.calls|..];
          }
        }
      }
    }
  }

  /**
   * What the retry loop relies on about one attempt `p` made after `c`: it
   * extends the calls, lists the trials first and only there, deletes the
   * experiment only as its last call, and succeeds exactly when that call
   * succeeds.
   */
  predicate Shaped(s: Service, c: seq<Action>, p: Progress) {
    && |c| < |p.calls| && p.calls[..|c|] == c
    && p.calls[|c|] == ListTrials
    && (forall i :: |c| < i < |p.calls| ==> p.calls[i] != ListTrials)
    && (forall i :: |c| <= i < |p.calls| - 1 ==> p.calls[i] != DeleteExperiment)
    && (p.failure.None? <==> p.calls[|p.calls| - 1] == DeleteExperiment && s(|p.calls| - 1, DeleteExperiment).Success?)
  }

  lemma AttemptShaped(s: Service, calls: seq<Action>)
    ensures Shaped(s, calls, Attempt(s, calls))
  {
  }

  /** The experiment is deleted only after the trials were listed and every listed trial was deleted. */
  lemma ExperimentAfterItsTrials(s: Service, calls: seq<Action>)
    ensures var r := Attempt(s, calls);
      r.calls[|r.calls| - 1] == DeleteExperiment ==>
        && s(|calls|, ListTrials).Success?
        && forall t :: t in s(|calls|, ListTrials).value ==> DeleteTrial(t) in r.calls[|calls|..|r.calls| - 1]
  {
    var r := Attempt(s, calls);
    if s(|calls|, ListTrials).Success? {
      var trials := s(|calls|, ListTrials).value;
      var start := calls + [ListTrials];
      var p := DeleteTrials(s, start, trials);
      TrialsDeleted(s, start, trials);
      if p.failure.None? {
        assert r.calls[|calls|..|r.calls| - 1] == p.calls[|calls|..];
      } else {
        assert r.calls[|r.calls| - 1] != DeleteExperiment;
      }
    }
  }

  /** The number of trial listings in a sequence of calls. */
  function Listings(calls: seq<Action>): nat {
    multiset(calls)[ListTrials]
  }

  /** The calls of the retry loop extend the calls made before it. */
  lemma {:induction false} RetryExtends(s: Service, attempt: seq<Action> -> Progress, calls: seq<Action>, count: nat, last: Option<Exception>)
    requires count <= MaxDeleteAllAttempts
    requires forall c :: Shaped(s, c, attempt(c))
    ensures var r := Retry(attempt, calls, count, last);
      |calls| <= |r.calls| && r.calls[..|calls|] == calls
    decreases MaxDeleteAllAttempts - count
  {
    if count < MaxDeleteAllAttempts {
      var p := attempt(calls);
      assert Shaped(s, calls, p);
      if p.failure.Some? {
        RetryExtends(s, attempt, p.calls, count + 1, p.failure);
        var r := Retry(attempt, p.calls, count + 1, p.failure);
        assert r.calls[..|calls|] == r.calls[..|p.calls|][..|calls|];
      }
    }
  }

  /** Each attempt lists the trials exactly once, so the listings count the attempts. */
  lemma {:induction false} OneListingPerAttempt(s: Service, attempt: seq<Action> -> Progress, calls: seq<Action>, count: nat, last: Option<Exception>)
    requires count <= MaxDeleteAllAttempts
    requires forall c :: Shaped(s, c, attempt(c))
    ensures var r := Retry(attempt, calls, count, last);
      |calls| <= |r.calls| && Listings(r.calls[|calls|..]) == r.attempts - count
    decreases MaxDeleteAllAttempts - count
  {
    var r := Retry(attempt, calls, count, last);
    RetryExtends(s, attempt, calls, count, last);
    if count < MaxDeleteAllAttempts {
      var p := attempt(calls);
      OneListing(s, calls, p);
      if p.failure.Some? {
        OneListingPerAttempt(s, attempt, p.calls, count + 1, p.failure);
        RetryExtends(s, attempt, p.calls, count + 1, p.failure);
        SuffixOfExtension(r.calls, p.calls, |calls|);
        ListingsAppend(p.calls[|calls|..], r.calls[|p.calls|..]);
      }
    } else {
      assert r.calls[|calls|..] == [];
    }
  }

  /** An attempt of the right shape lists the trials once. */
  lemma OneListing(s: Service, c: seq<Action>, p: Progress)
    requires Shaped(s, c, p)
    ensures Listings(p.calls[|c|..]) == 1
  {
    assert p.calls[|c|..] == [ListTrials] + p.calls[|c| + 1..];
    assert ListTrials !in p.calls[|c| + 1..];
  }

  lemma ListingsAppend(a: seq<Action>, b: seq<Action>)
    ensures Listings(a + b) == Listings(a) + Listings(b)
  {
  }

  /**
   * The loop ends right after the first successful deletion of the
   * experiment: a run that did not raise ends with that call, and no
   * earlier call deletes the experiment successfully.
   */
  lemma {:induction false} StopsAfterSuccess(s: Service, attempt: seq<Action> -> Progress, calls: seq<Action>, count: nat, last: Option<Exception>)
    requires count <= MaxDeleteAllAttempts
    requires forall c :: Shaped(s, c, attempt(c))
    ensures var r := Retry(attempt, calls, count, last);
      r.raised.None? ==> |calls| < |r.calls| && r.calls[|r.calls| - 1] == DeleteExperiment && s(|r.calls| - 1, DeleteExperiment).Success?
    ensures var r := Retry(attempt, calls, count, last);
      forall i :: |calls| <= i < |r.calls| && r.calls[i] == DeleteExperiment && s(i, DeleteExperiment).Success? ==>
        r.raised.None? && i == |r.calls| - 1
    decreases MaxDeleteAllAttempts - count
  {
    if count < MaxDeleteAllAttempts {
      var p := attempt(calls);
      assert Shaped(s, calls, p);
      if p.failure.Some? {
        StopsAfterSuccess(s, attempt, p.calls, count + 1, p.failure);
        RetryExtends(s, attempt, p.calls, count + 1, p.failure);
        var r := Retry(attempt, p.calls, count + 1, p.failure);
        assert forall i :: |calls| <= i < |p.calls| ==> r.calls[i] == p.calls[i];
      }
    }
  }

  /** After the last allowed attempt fails, the loop raises, chained to that attempt's exception. */
  lemma {:induction false} RaisesAfterLastAttempt(attempt: seq<Action> -> Progress, calls: seq<Action>, count: nat, last: Option<Exception>)
    requires count <= MaxDeleteAllAttempts
    ensures var r := Retry(attempt, calls, count, last);
      r.raised.Some? ==> r.attempts == MaxDeleteAllAttempts && r.raised == Some(FailedToDelete)
    ensures var r := Retry(attempt, calls, count, last);
      r.raised.Some? && (count < MaxDeleteAllAttempts || last.Some?) ==> r.cause.Some?
    ensures var r := Retry(attempt, calls, count, last);
      r.raised.None? ==> r.cause.None? && count < r.attempts
    decreases MaxDeleteAllAttempts - count
  {
    if count < MaxDeleteAllAttempts {
      var p := attempt(calls);
      if p.failure.Some? {
        RaisesAfterLastAttempt(attempt, p.calls, count + 1, p.failure);
      }
    }
  }

  /**
   * `delete_all("--force")` makes one to three attempts, one listing of the
   * trials each; it succeeds exactly when its last call deletes the
   * experiment successfully, and otherwise raises after the third attempt,
   * chained to that attempt's exception.
   */
  lemma DeleteAllOutcome(s: Service)
    ensures var r := DeleteAllSpec(s, "--force");
      && 1 <= r.attempts <= MaxDeleteAllAttempts
      && Listings(r.calls) == r.attempts
      && (r.raised.None? <==> r.calls[|r.calls| - 1] == DeleteExperiment && s(|r.calls| - 1, DeleteExperiment).Success?)
      && (r.raised.Some? ==> r.attempts == MaxDeleteAllAttempts && r.raised == Some(FailedToDelete) && r.cause.Some?)
  {
    AttemptsShaped(s);
    RetryOutcome(s, Attempts(s));
  }

  lemma AttemptsShaped(s: Service)
    ensures forall c :: Shaped(s, c, Attempts(s)(c))
  {
    forall c ensures Shaped(s, c, Attempts(s)(c)) {
      AttemptShaped(s, c);
    }
  }

  /** The retry loop from the start, for any attempt of the right shape. */
  lemma RetryOutcome(s: Service, attempt: seq<Action> -> Progress)
    requires forall c :: Shaped(s, c, attempt(c))
    ensures var r := Retry(attempt, [], 0, None);
      && 1 <= r.attempts <= MaxDeleteAllAttempts
      && Listings(r.calls) == r.attempts
      && (r.raised.None? <==> r.calls[|r.calls| - 1] == DeleteExperiment && s(|r.calls| - 1, DeleteExperiment).Success?)
      && (r.raised.Some? ==> r.attempts == MaxDeleteAllAttempts && r.raised == Some(FailedToDelete) && r.cause.Some?)
  {
    var r := Retry(attempt, [], 0, None);
    OneListingPerAttempt(s, attempt, [], 0, None);
    assert r.calls[0..] == r.calls;
    RaisesAfterLastAttempt(attempt, [], 0, None);
    assert r.calls != [];
    StopsAfterSuccess(s, attempt, [], 0, None);
  }

  // The loops

  /** The inner loop: each listed trial component is loaded and deleted. */
  method DeleteTrialComponents(s: Service, calls: seq<Action>, components: seq<Value>) returns (p: Progress)
    ensures p == DeleteComponents(s, calls, components)
  {
    var made := calls;
    var i := 0;
    assert components[0..] == components;
    while i < |components|
      invariant 0 <= i <= |components|
      invariant DeleteComponents(s, made, components[i..]) == DeleteComponents(s, calls, components)
      decreases |components| - i
    {
      var c := components[i];
      assert components[i..][1..] == components[i + 1..];
      var loaded := s(|made|, LoadComponent(c));
      if loaded.Failure? {
        return Progress(made + [LoadComponent(c)], Some(loaded.error));
      }
      var deleted := s(|made| + 1, DeleteComponent(c));
      if deleted.Failure? {
        return Progress(made + [LoadComponent(c), DeleteComponent(c)], Some(deleted.error));
      }
      made := made + [LoadComponent(c), DeleteComponent(c)];
      i := i + 1;
    }
    p := Progress(made, None);
  }

  /** One attempt: the loop over the listed trials, then the deletion of the experiment. */
  method RunAttempt(s: Service, calls: seq<Action>) returns (p: Progress)
    ensures p == Attempt(s, calls)
  {
    var listing := s(|calls|, ListTrials);
    var made := calls + [ListTrials];
    if listing.Failure? {
      return Progress(made, Some(listing.error));
    }
    var trials := listing.value;
    var i := 0;
    assert trials[0..] == trials;
    while i < |trials|
      invariant 0 <= i <= |trials|
      invariant DeleteTrials(s, made, trials[i..]) == DeleteTrials(s, calls + [ListTrials], trials)
      decreases |trials| - i
    {
      var t := trials[i];
      assert trials[i..][1..] == trials[i + 1..];
      var one := DeleteTrialOnce(s, made, t);
      if one.failure.Some? {
        return one;
      }
      made := one.calls;
      i := i + 1;
    }
    var deleted := s(|made|, DeleteExperiment);
    p := Progress(made + [DeleteExperiment], if deleted.Failure? then Some(deleted.error) else None);
  }

  /** The body of the loop over trials: load the trial, delete its components, delete the trial. */
  method DeleteTrialOnce(s: Service, calls: seq<Action>, t: Value) returns (p: Progress)
    ensures p == DeleteOneTrial(s, calls, t)
  {
    var loaded := s(|calls|, LoadTrial(t));
    if loaded.Failure? {
      return Progress(calls + [LoadTrial(t)], Some(loaded.error));
    }
    var listing := s(|calls| + 1, ListTrialComponents(t));
    var made := calls + [LoadTrial(t), ListTrialComponents(t)];
    if listing.Failure? {
      return Progress(made, Some(listing.error));
    }
    p := DeleteTrialComponents(s, made, listing.value);
    if p.failure.Some? {
      return;
    }
    var deleted := s(|p.calls|, DeleteTrial(t));
    p := Progress(p.calls + [DeleteTrial(t)], if deleted.Failure? then Some(deleted.error) else None);
  }

  /** `experiment.delete_all(action)`: the `--force` guard, then the retry loop. */
  method DeleteAll(s: Service, action: string) returns (r: DeleteAllResult)
    ensures r == DeleteAllSpec(s, action)
  {
    if action != "--force" {
      return DeleteAllResult([], 0, Some(NotConfirmed), None);
    }
    var deleteAttemptCount: nat := 0;
    var lastException: Option<Exception> := None;
    var calls: seq<Action> := [];
    while true
      invariant deleteAttemptCount <= MaxDeleteAllAttempts
      invariant Retry(Attempts(s), calls, deleteAttemptCount, lastException) == DeleteAllSpec(s, action)
      decreases MaxDeleteAllAttempts - deleteAttemptCount
    {
      if deleteAttemptCount == MaxDeleteAllAttempts {
        return DeleteAllResult(calls, deleteAttemptCount, Some(FailedToDelete), lastException);
      }
      var p := RunAttempt(s, calls);
      calls := p.calls;
      deleteAttemptCount := deleteAttemptCount + 1;
      if p.failure.None? {
        return DeleteAllResult(calls, deleteAttemptCount, None, None);
      }
      lastException := p.failure;
    }
  }
}
