/**
 * The experiment tracker. A tracker holds a trial component record and
 * updates its parameters, input and output artifacts, status and times in
 * place; it writes metrics through a file metrics writer when it has one,
 * and it uploads artifact files to S3 under a key made from the trial
 * component's name. Closing the tracker saves the trial component and
 * always closes the writer.
 */
module Tracker {
  import opened Py
  import opened BaseTypes
  import TrialComponent
  import Metrics

  // ---------------------------------------------------------------------------
  // Paths

  /** `os.path.basename(path)`: what follows the last `/`. */
  function Basename(path: string): (b: string)
    ensures EndsWith(path, b) && '/' !in b
    ensures |b| < |path| ==> path[|path| - |b| - 1] == '/'
    decreases |path|
  {
    if path == [] || path[|path| - 1] == '/' then []
    else
      var prev := Basename(path[..|path| - 1]);
      SuffixSnoc(path, prev);
      prev + [path[|path| - 1]]
  }

  /** A suffix of all but the last character, extended by that character, is a suffix of the whole. */
  lemma SuffixSnoc(path: string, prev: string)
    requires |path| > 0 && EndsWith(path[..|path| - 1], prev)
    requires '/' !in prev && path[|path| - 1] != '/'
    requires |prev| < |path| - 1 ==> path[..|path| - 1][|path| - 1 - |prev| - 1] == '/'
    ensures var b := prev + [path[|path| - 1]];
      && EndsWith(path, b) && '/' !in b
      && (|b| < |path| ==> path[|path| - |b| - 1] == '/')
  {
    var init := path[..|path| - 1];
    var b := prev + [path[|path| - 1]];
    assert path == init + [path[|path| - 1]];
    assert path[|path| - |b|..] == init[|init| - |prev|..] + [path[|path| - 1]];
  }

  /** Whatever precedes a last component without `/`, the base name is that component. */
  lemma BasenameOfJoin(dir: string, name: string)
    requires '/' !in name
    ensures Basename(dir + "/" + name) == name
  {
    BasenameAfterSlash(dir + "/", name);
  }

  lemma {:induction false} BasenameAfterSlash(head: string, name: string)
    requires |head| > 0 && head[|head| - 1] == '/' && '/' !in name
    ensures Basename(head + name) == name
    decreases |name|
  {
    if name == [] {
      assert head + name == head;
    } else {
      var shorter, last := name[..|name| - 1], name[|name| - 1];
      assert name == shorter + [last];
      assert head + name == (head + shorter) + [last];
      assert (head + name)[..|head + name| - 1] == head + shorter;
      BasenameAfterSlash(head, shorter);
    }
  }

  /** `s.rstrip('/')`. */
  function RStripSlashes(s: string): (r: string)
    ensures StartsWith(s, r)
    ensures r == [] || r[|r| - 1] != '/'
    ensures forall i :: |r| <= i < |s| ==> s[i] == '/'
    decreases |s|
  {
    if s != [] && s[|s| - 1] == '/' then RStripSlashes(s[..|s| - 1]) else s
  }

  /** The index of the first `/` in `s` at or after `k`, or `|s|` when there is none. */
  function SlashFrom(s: string, k: nat): (i: nat)
    requires k <= |s|
    ensures k <= i <= |s|
    ensures i < |s| ==> s[i] == '/'
    ensures forall j :: k <= j < i ==> s[j] != '/'
    decreases |s| - k
  {
    if k == |s| || s[k] == '/' then k else SlashFrom(s, k + 1)
  }

  /**
   * `os.path.expanduser(path)` on POSIX: a leading `~` up to the first `/`
   * (or the end) names a user, the current one when the name is empty. The
   * prefix is replaced by that user's home directory, without its trailing
   * slashes (`/` if that leaves nothing). `home` is the current user's home
   * and `homes` the password database's home directory per user name; a
   * path not starting with `~`, or naming an unknown user, is unchanged.
   */
  function ExpandUser(path: string, home: string, homes: map<string, string>): (r: string)
    ensures path == [] || path[0] != '~' ==> r == path
    ensures path != [] && path[0] == '~' ==>
              var i := SlashFrom(path, 1);
              var name := path[1..i];
              if name != [] && name !in homes then r == path
              else
                var h := RStripSlashes(if name == [] then home else homes[name]);
                r != [] && EndsWith(r, path[i..]) && (h + path[i..] != [] ==> StartsWith(r, h))
                && (h + path[i..] == [] ==> r == "/")
  {
    if path == [] || path[0] != '~' then path
    else
      var i := SlashFrom(path, 1);
      var name := path[1..i];
      if name != [] && name !in homes then path
      else
        var h := RStripSlashes(if name == [] then home else homes[name]);
        if h + path[i..] == "" then "/" else h + path[i..]
  }

  /**
   * When every home directory is absolute, expanding twice is expanding once:
   * an expanded path starts with `/`, and a path left alone is left alone again.
   */
  lemma {:induction false} ExpandUserIdempotent(path: string, home: string, homes: map<string, string>)
    requires StartsWith(home, "/")
    requires forall n :: n in homes ==> StartsWith(homes[n], "/")
    ensures var r := ExpandUser(path, home, homes);
            ExpandUser(r, home, homes) == r
  {
    var r := ExpandUser(path, home, homes);
    if path != [] && path[0] == '~' && r != path {
      var i := SlashFrom(path, 1);
      var name := path[1..i];
      var full := if name == [] then home else homes[name];
      var h := RStripSlashes(full);
      if h != [] {
        assert h[0] == full[0] == '/';
        assert r[0] == '/';
      } else if path[i..] != [] {
        assert path[i] == '/';
        assert r[0] == '/';
      } else {
        assert r == "/";
      }
    }
  }

  /** `_resolve_artifact_name`: the file's base name, or a generated `artifact-` name when it has none. */
  function ResolveArtifactName(path: string, suffix: string): (n: string)
    ensures n != []
    ensures Basename(path) != [] ==> n == Basename(path) && EndsWith(path, n) && '/' !in n
    ensures Basename(path) == [] ==> StartsWith(n, "artifact-")
  {
    var b := Basename(path);
    if b != [] then b else GeneratedName("artifact", suffix)
  }

  // ---------------------------------------------------------------------------
  // The artifact uploader

  /**
   * The local file system as the uploader sees it: the current user's home
   * directory, every user's home directory by name, and `os.path.isfile`.
   */
  datatype FileSystem = FileSystem(home: string, homes: map<string, string>, isFile: string -> bool)

  /**
   * S3 as the uploader sees it: what `_utils.get_or_create_default_bucket`
   * gives, and `upload_file(path, bucket, key)`, which may raise.
   */
  datatype S3 = S3(defaultBucket: Result<Value>, uploadFile: (string, Value, string) -> Option<Exception>)

  const DefaultArtifactPrefix := "trial-component-artifacts"

  function NotAFile(path: string): Exception {
    ValueError(path + " does not exist or is not a file. Please supply a file path.")
  }

  /** `"{prefix}/{trial_component_name}/{basename}"`. */
  function ArtifactKey(prefix: Value, tcName: Value, path: string): (key: string)
    ensures StartsWith(key, Str(prefix) + "/")
    ensures Basename(key) == Basename(path)
  {
    BasenameAfterSlash(Str(prefix) + "/" + Str(tcName) + "/", Basename(path));
    Str(prefix) + "/" + Str(tcName) + "/" + Basename(path)
  }

  /** `"s3://{bucket}/{key}"`. */
  function S3Uri(bucket: Value, key: string): (uri: string)
    ensures StartsWith(uri, "s3://") && EndsWith(uri, "/" + key)
  {
    "s3://" + Str(bucket) + "/" + key
  }

  /** The bucket an upload leaves behind and what it returned. */
  datatype Upload = Upload(bucket: Value, uri: Result<string>)

  /**
   * `upload_artifact(file_path)`: expand the path, refuse anything that is
   * not a file, fall back to the default bucket (and keep it), upload the
   * file under its key and return its S3 URI.
   */
  function UploadSpec(bucket: Value, prefix: Value, tcName: Value, path: string, fs: FileSystem, s3: S3): (r: Upload)
    ensures var expanded := ExpandUser(path, fs.home, fs.homes);
      !fs.isFile(expanded) ==> r == Upload(bucket, Failure(NotAFile(expanded)))
    ensures Truthy(bucket) ==> r.bucket == bucket
    ensures !Truthy(bucket) && r.bucket != bucket ==> s3.defaultBucket == Success(r.bucket)
    ensures var expanded := ExpandUser(path, fs.home, fs.homes);
      r.uri.Success? ==>
        && fs.isFile(expanded)
        && s3.uploadFile(expanded, r.bucket, ArtifactKey(prefix, tcName, expanded)).None?
        && r.uri.value == S3Uri(r.bucket, ArtifactKey(prefix, tcName, expanded))
  {
    var expanded := ExpandUser(path, fs.home, fs.homes);
    if !fs.isFile(expanded) then Upload(bucket, Failure(NotAFile(expanded)))
    else
      match (if Truthy(bucket) then Success(bucket) else s3.defaultBucket)
      case Failure(e) => Upload(bucket, Failure(e))
      case Success(b) =>
        var key := ArtifactKey(prefix, tcName, expanded);
        match s3.uploadFile(expanded, b, key)
        case Some(e) => Upload(b, Failure(e))
        case None => Upload(b, Success(S3Uri(b, key)))
  }

  /**
   * A successful upload returns `s3://{bucket}/{prefix}/{name}/` followed by
   * the file's base name, and the object's base name is the file's.
   */
  lemma UploadedUri(bucket: Value, prefix: Value, tcName: Value, path: string, fs: FileSystem, s3: S3)
    ensures var r := UploadSpec(bucket, prefix, tcName, path, fs, s3);
      var expanded := ExpandUser(path, fs.home, fs.homes);
      r.uri.Success? ==>
        && StartsWith(r.uri.value, "s3://" + Str(r.bucket) + "/" + Str(prefix) + "/" + Str(tcName) + "/")
        && EndsWith(r.uri.value, Basename(expanded))
        && Basename(r.uri.value) == Basename(expanded)
  {
    var r := UploadSpec(bucket, prefix, tcName, path, fs, s3);
    var expanded := ExpandUser(path, fs.home, fs.homes);
    if r.uri.Success? {
      var name := Basename(expanded);
      UriParts(Str(r.bucket), Str(prefix), Str(tcName), name);
      BasenameAfterSlash("s3://" + Str(r.bucket) + "/" + Str(prefix) + "/" + Str(tcName) + "/", name);
    }
  }

  /** An S3 URI is its directory part, ending in `/`, followed by the base name. */
  lemma UriParts(bucket: string, prefix: string, tcName: string, name: string)
    ensures var head := "s3://" + bucket + "/" + prefix + "/" + tcName + "/";
      && "s3://" + bucket + "/" + (prefix + "/" + tcName + "/" + name) == head + name
      && StartsWith(head + name, head)
      && EndsWith(head + name, name)
  {
    var head := "s3://" + bucket + "/" + prefix + "/" + tcName + "/";
    assert "s3://" + bucket + "/" + (prefix + "/" + tcName + "/" + name) == head + name;
    assert (head + name)[..|head|] == head;
    assert (head + name)[|head|..] == name;
  }

  /** `_ArtifactUploader`: the trial component's name, the bucket (filled in on first use) and the key prefix. */
  class ArtifactUploader {
    const tcName: Value
    var bucket: Value
    const prefix: Value
    const fs: FileSystem
    const s3: S3

    /** `_ArtifactUploader(trial_component_name, artifact_bucket, artifact_prefix, boto_session)`. */
    constructor(tcName: Value, bucket: Value, prefix: Value, fs: FileSystem, s3: S3)
      ensures this.tcName == tcName && this.bucket == bucket && this.fs == fs && this.s3 == s3
      ensures Truthy(prefix) ==> this.prefix == prefix
      ensures !Truthy(prefix) ==> this.prefix == StrV(DefaultArtifactPrefix)
    {
      this.tcName := tcName;
      this.bucket := bucket;
      this.prefix := if Truthy(prefix) then prefix else StrV(DefaultArtifactPrefix);
      this.fs := fs;
      this.s3 := s3;
    }

    /** `upload_artifact(file_path)`. */
    method UploadArtifact(path: string) returns (uri: Result<string>)
      modifies this
      ensures Upload(bucket, uri) == UploadSpec(old(bucket), prefix, tcName, path, fs, s3)
    {
      var expanded := ExpandUser(path, fs.home, fs.homes);
      if !fs.isFile(expanded) {
        return Failure(NotAFile(expanded));
      }
      if !Truthy(bucket) {
        match s3.defaultBucket
        case Failure(e) => return Failure(e);
        case Success(b) => bucket := b;
      }
      var key := ArtifactKey(prefix, tcName, expanded);
      match s3.uploadFile(expanded, bucket, key)
      case Some(e) => uri := Failure(e);
      case None => uri := Success(S3Uri(bucket, key));
    }
  }

  // ---------------------------------------------------------------------------
  // The trial component's maps

  /** `container[key] = value` on a dict; anything else refuses the assignment. */
  function SetItem(container: Value, key: string, value: Value): (r: Result<Value>)
    ensures r.Success? <==> container.DictV?
    ensures r.Success? ==>
      && r.value.DictV? && r.value.entries.Keys == container.entries.Keys + {key}
      && r.value.entries[key] == value
      && forall k :: k in container.entries && k != key ==> r.value.entries[k] == container.entries[k]
  {
    match container
    case DictV(m) => Success(DictV(m[key := value]))
    case ListV(_) => Failure(TypeError("list indices must be integers or slices, not str"))
    case _ => Failure(TypeError("'" + TypeName(container) + "' object does not support item assignment"))
  }

  /** `container.update(entries)` on a dict: every entry is added, overwriting; anything else has no `update`. */
  function Update(container: Value, entries: map<string, Value>): (r: Result<Value>)
    ensures r.Success? <==> container.DictV?
    ensures r.Success? ==>
      && r.value.DictV? && r.value.entries.Keys == container.entries.Keys + entries.Keys
      && (forall k :: k in entries ==> r.value.entries[k] == entries[k])
      && forall k :: k in container.entries && k !in entries ==> r.value.entries[k] == container.entries[k]
  {
    if container.DictV? then Success(DictV(container.entries + entries))
    else Failure(AttributeError("'" + TypeName(container) + "' object has no attribute 'update'"))
  }

  /** Replace the map attribute `member` by what `r` gives; the other attributes are kept. */
  function Replaced(attrs: map<string, Value>, member: string, r: Result<Value>): (s: Result<map<string, Value>>)
    ensures s.Success? <==> r.Success?
    ensures s.Success? ==>
      && s.value.Keys == attrs.Keys + {member} && s.value[member] == r.value
      && forall k :: k in attrs && k != member ==> s.value[k] == attrs[k]
  {
    match r
    case Success(v) => Success(attrs[member := v])
    case Failure(e) => Failure(e)
  }

  /** The attributes and the exception after applying `r`: a failure leaves the attributes as they were. */
  function Applied(attrs: map<string, Value>, r: Result<map<string, Value>>): (map<string, Value>, Option<Exception>) {
    match r
    case Success(a) => (a, None)
    case Failure(e) => (attrs, Some(e))
  }

  /** `trial_component.<member>[key] = value`. */
  function StoreItem(attrs: map<string, Value>, member: string, key: string, value: Value): Result<map<string, Value>> {
    Replaced(attrs, member, SetItem(AttrOf(attrs, member), key, value))
  }

  /** Storing under a key twice keeps only the second value. */
  lemma StoreItemOverwrites(attrs: map<string, Value>, member: string, key: string, v1: Value, v2: Value)
    requires StoreItem(attrs, member, key, v1).Success?
    ensures StoreItem(StoreItem(attrs, member, key, v1).value, member, key, v2) == StoreItem(attrs, member, key, v2)
  {
    var once := StoreItem(attrs, member, key, v1).value;
    assert AttrOf(once, member).entries[key := v2] == AttrOf(attrs, member).entries[key := v2];
    assert once[member := DictV(AttrOf(attrs, member).entries[key := v2])] == attrs[member := DictV(AttrOf(attrs, member).entries[key := v2])];
  }

  /** Stores under different keys commute. */
  lemma StoreItemsCommute(attrs: map<string, Value>, member: string, k1: string, v1: Value, k2: string, v2: Value)
    requires k1 != k2 && StoreItem(attrs, member, k1, v1).Success?
    ensures StoreItem(attrs, member, k2, v2).Success?
    ensures StoreItem(StoreItem(attrs, member, k1, v1).value, member, k2, v2)
         == StoreItem(StoreItem(attrs, member, k2, v2).value, member, k1, v1)
  {
    var m := AttrOf(attrs, member).entries;
    var both := DictV(m[k1 := v1][k2 := v2]);
    assert m[k1 := v1][k2 := v2] == m[k2 := v2][k1 := v1];
    assert attrs[member := DictV(m[k1 := v1])][member := both] == attrs[member := both];
    assert attrs[member := DictV(m[k2 := v2])][member := both] == attrs[member := both];
  }

  /** `api_types.TrialComponentArtifact(value, media_type=media_type)`. */
  function Artifact(value: Value, mediaType: Value): Value {
    ObjV("TrialComponentArtifact", map["value" := value, "media_type" := mediaType])
  }

  /** `api_types.TrialComponentStatus(primary_status=..., message=...)`. */
  function Status(primaryStatus: string, message: Value): Value {
    ObjV("TrialComponentStatus", map["primary_status" := StrV(primaryStatus), "message" := message])
  }

  /** `x or y`. */
  function Or(x: Value, y: Value): Value {
    if Truthy(x) then x else y
  }

  /** `name or _resolve_artifact_name(file_path)`. */
  function ArtifactName(name: Option<string>, path: string, suffix: string): (n: string)
    ensures n != []
    ensures Given(name) ==> n == name.value
  {
    if Given(name) then name.value else ResolveArtifactName(path, suffix)
  }

  /** Storing an uploaded file as an output artifact; a failed upload stores nothing. */
  function StoreUpload(attrs: map<string, Value>, uri: Result<string>, key: string, mediaType: Value): (r: Result<map<string, Value>>)
    ensures uri.Failure? ==> r == Failure(uri.error)
  {
    match uri
    case Failure(e) => Failure(e)
    case Success(u) => StoreItem(attrs, "output_artifacts", key, Artifact(StrV(u), mediaType))
  }

  const MapMembers: set<string> := {"parameters", "input_artifacts", "output_artifacts"}

  /** `x or {}`. */
  function OrEmpty(v: Value): Value {
    if Truthy(v) then v else DictV(map[])
  }

  /** What the tracker's constructor does to the trial component: missing or empty maps become `{}`. */
  function Defaulted(attrs: map<string, Value>): (r: map<string, Value>)
    ensures r.Keys == attrs.Keys + MapMembers
    ensures forall m :: m in MapMembers && Truthy(AttrOf(attrs, m)) ==> r[m] == attrs[m]
    ensures forall m :: m in MapMembers && !Truthy(AttrOf(attrs, m)) ==> r[m] == DictV(map[])
    ensures forall k :: k in attrs && k !in MapMembers ==> r[k] == attrs[k]
  {
    attrs["parameters" := OrEmpty(AttrOf(attrs, "parameters"))]
         ["input_artifacts" := OrEmpty(AttrOf(attrs, "input_artifacts"))]
         ["output_artifacts" := OrEmpty(AttrOf(attrs, "output_artifacts"))]
  }

  /** Defaulting twice is defaulting once. */
  lemma DefaultedIdempotent(attrs: map<string, Value>)
    ensures Defaulted(Defaulted(attrs)) == Defaulted(attrs)
  {
    var d := Defaulted(attrs);
    assert forall m :: m in MapMembers ==> Defaulted(d)[m] == d[m];
  }

  /** After defaulting, a map member that was missing, None or a dict accepts every store and update. */
  lemma DefaultedAcceptsLogging(attrs: map<string, Value>, member: string, key: string, value: Value, entries: map<string, Value>)
    requires member in MapMembers
    requires AttrOf(attrs, member) == NoneV || AttrOf(attrs, member).DictV?
    ensures StoreItem(Defaulted(attrs), member, key, value).Success?
    ensures Replaced(Defaulted(attrs), member, Update(AttrOf(Defaulted(attrs), member), entries)).Success?
  {
    assert AttrOf(Defaulted(attrs), member).DictV?;
  }

  /** Entering outside a job: the start time is set and the status becomes InProgress. */
  function EnterAttrs(attrs: map<string, Value>, now: Value): (r: map<string, Value>)
    ensures r.Keys == attrs.Keys + {"start_time", "status"}
    ensures r["start_time"] == now && r["status"] == Status("InProgress", NoneV)
    ensures forall k :: k in attrs && k != "start_time" && k != "status" ==> r[k] == attrs[k]
  {
    attrs["start_time" := now]["status" := Status("InProgress", NoneV)]
  }

  /**
   * Exiting outside a job: the end time is set and the status becomes Failed
   * with the exception's text as its message, or Completed without one.
   */
  function ExitAttrs(attrs: map<string, Value>, now: Value, exc: Option<Exception>): (r: map<string, Value>)
    ensures r.Keys == attrs.Keys + {"end_time", "status"}
    ensures r["end_time"] == now
    ensures exc.Some? ==> r["status"] == Status("Failed", StrV(exc.value.message))
    ensures exc.None? ==> r["status"] == Status("Completed", NoneV)
    ensures forall k :: k in attrs && k != "end_time" && k != "status" ==> r[k] == attrs[k]
  {
    attrs["end_time" := now]["status" := if exc.Some? then Status("Failed", StrV(exc.value.message)) else Status("Completed", NoneV)]
  }

  /** A run inside a `with` block: entering and exiting keep the logged maps, and the status ends Failed or Completed. */
  lemma WithBlockStatus(attrs: map<string, Value>, start: Value, end: Value, exc: Option<Exception>)
    ensures var r := ExitAttrs(EnterAttrs(attrs, start), end, exc);
      && r["start_time"] == start && r["end_time"] == end
      && r["status"].attrs["primary_status"] == StrV(if exc.Some? then "Failed" else "Completed")
      && forall m :: m in MapMembers && m in attrs ==> r[m] == attrs[m]
  {
  }

  const NoMetricsWarning := "Cannot write metrics in this environment."

  // ---------------------------------------------------------------------------
  // The tracker

  class Tracker {
    const component: Record
    const writer: Metrics.FileMetricsWriter?
    const uploader: ArtifactUploader
    var inSagemakerJob: bool
    var warnedOnMetrics: bool
    var warnings: seq<string>       // the warnings logged, in order
    var startTime: Value
    var endTime: Value

    /** The component is a trial component record, and the missing-writer warning was logged once if at all. */
    ghost predicate Valid()
      reads this
    {
      && component.Valid() && component.cls == "TrialComponent"
      && warnings == (if warnedOnMetrics then [NoMetricsWarning] else [])
    }

    /** `Tracker(trial_component, metrics_writer, artifact_uploader)`. */
    constructor(component: Record, writer: Metrics.FileMetricsWriter?, uploader: ArtifactUploader)
      requires component.Valid() && component.cls == "TrialComponent"
      modifies component
      ensures Valid()
      ensures this.component == component && this.writer == writer && this.uploader == uploader
      ensures component.attrs == Defaulted(old(component.attrs))
      ensures !inSagemakerJob && !warnedOnMetrics && warnings == []
    {
      this.component := component;
      this.writer := writer;
      this.uploader := uploader;
      inSagemakerJob := false;
      warnedOnMetrics := false;
      warnings := [];
      startTime := NoneV;
      endTime := NoneV;
      new;
      component.attrs := Defaulted(component.attrs);
    }

    /** `log_parameter(name, value)`. */
    method LogParameter(name: string, value: Value) returns (raised: Option<Exception>)
      requires Valid()
      modifies component
      ensures (component.attrs, raised) == Applied(old(component.attrs), StoreItem(old(component.attrs), "parameters", name, value))
    {
      match StoreItem(component.attrs, "parameters", name, value)
      case Success(a) => component.attrs := a; raised := None;
      case Failure(e) => raised := Some(e);
    }

    /** `log_parameters(parameters)`. */
    method LogParameters(parameters: map<string, Value>) returns (raised: Option<Exception>)
      requires Valid()
      modifies component
      ensures (component.attrs, raised) == Applied(old(component.attrs), Replaced(old(component.attrs), "parameters", Update(AttrOf(old(component.attrs), "parameters"), parameters)))
    {
      match Replaced(component.attrs, "parameters", Update(AttrOf(component.attrs, "parameters"), parameters))
      case Success(a) => component.attrs := a; raised := None;
      case Failure(e) => raised := Some(e);
    }

    /** `log_input(name, value, media_type)`. */
    method LogInput(name: string, value: Value, mediaType: Value) returns (raised: Option<Exception>)
      requires Valid()
      modifies component
      ensures (component.attrs, raised) == Applied(old(component.attrs), StoreItem(old(component.attrs), "input_artifacts", name, Artifact(value, mediaType)))
    {
      match StoreItem(component.attrs, "input_artifacts", name, Artifact(value, mediaType))
      case Success(a) => component.attrs := a; raised := None;
      case Failure(e) => raised := Some(e);
    }

    /** `log_output(name, value, media_type)`. */
    method LogOutput(name: string, value: Value, mediaType: Value) returns (raised: Option<Exception>)
      requires Valid()
      modifies component
      ensures (component.attrs, raised) == Applied(old(component.attrs), StoreItem(old(component.attrs), "output_artifacts", name, Artifact(value, mediaType)))
    {
      match StoreItem(component.attrs, "output_artifacts", name, Artifact(value, mediaType))
      case Success(a) => component.attrs := a; raised := None;
      case Failure(e) => raised := Some(e);
    }

    /**
     * `log_artifact(file_path, name, media_type)`: `guessed` is what
     * `_guess_media_type` gives and `suffix` the random part of a generated
     * name. The file is uploaded first; only a successful upload is stored.
     */
    method LogArtifact(path: string, name: Option<string>, mediaType: Value, guessed: Value, suffix: string)
      returns (raised: Option<Exception>)
      requires Valid()
      modifies component, uploader
      ensures var u := UploadSpec(old(uploader.bucket), uploader.prefix, uploader.tcName, path, uploader.fs, uploader.s3);
        && uploader.bucket == u.bucket
        && (component.attrs, raised) == Applied(old(component.attrs), StoreUpload(old(component.attrs), u.uri, ArtifactName(name, path, suffix), Or(mediaType, guessed)))
    {
      var media := Or(mediaType, guessed);
      var key := ArtifactName(name, path, suffix);
      var uri := uploader.UploadArtifact(path);
      if uri.Failure? {
        return Some(uri.error);
      }
      match StoreItem(component.attrs, "output_artifacts", key, Artifact(StrV(uri.value), media))
      case Success(a) => component.attrs := a; raised := None;
      case Failure(e) => raised := Some(e);
    }

    /**
     * `log_metric(...)`: the writer's outcome when there is a writer;
     * without one, nothing is raised and the warning is logged the first
     * time only.
     */
    method LogMetric(metricName: Value, value: Value, timestamp: Metrics.Moment, iterationNumber: Value)
      returns (raised: Option<Metrics.WriterError>)
      requires Valid()
      modifies this, writer
      ensures Valid() && inSagemakerJob == old(inSagemakerJob) && startTime == old(startTime) && endTime == old(endTime)
      ensures writer == null ==> raised.None? && warnedOnMetrics && warnings == [NoMetricsWarning]
      ensures writer != null ==>
        && warnings == old(warnings) && warnedOnMetrics == old(warnedOnMetrics)
        && (writer.State(), raised)
           == Metrics.FileLogSpec(old(writer.State()), Metrics.MetricRecord(metricName, value, timestamp, iterationNumber, "File"),
                                  Metrics.MetricsFilePath(writer.metricsFilePath, writer.metricsDir, writer.pid))
    {
      if writer == null {
        if !warnedOnMetrics {
          warnings := warnings + [NoMetricsWarning];
          warnedOnMetrics := true;
        }
        raised := None;
      } else {
        raised := writer.LogMetric(metricName, value, timestamp, iterationNumber);
      }
    }

    /** `__enter__`: outside a job, the trial component starts now and is InProgress. */
    method Enter(now: Value)
      requires Valid()
      modifies this, component
      ensures Valid() && startTime == now
      ensures inSagemakerJob == old(inSagemakerJob) && endTime == old(endTime)
      ensures warnings == old(warnings) && warnedOnMetrics == old(warnedOnMetrics)
      ensures component.attrs == if inSagemakerJob then old(component.attrs) else EnterAttrs(old(component.attrs), now)
    {
      startTime := now;
      if !inSagemakerJob {
        component.attrs := EnterAttrs(component.attrs, now);
      }
    }

    /** `close()`: save the trial component, then close the writer whether or not the save raised. */
    method Close() returns (raised: Option<Exception>)
      requires Valid()
      modifies component, writer
      ensures var r := Invoke(component.reg, component.codec, component.cls, component.client, old(component.attrs),
                              TrialComponent.UpdateMethod, TrialComponent.UpdateMembers);
        raised == r.raised && component.attrs == r.attrs
      ensures writer != null ==> writer.State() == Metrics.FileCloseSpec(old(writer.State())) && writer.State().closed
    {
      raised := TrialComponent.Save(component);
      if writer != null {
        writer.Close();
      }
    }

    /**
     * `__exit__(exc_type, exc_value, traceback)`: outside a job, the trial
     * component ends now, Failed when an exception left the block and
     * Completed otherwise; then the tracker closes.
     */
    method Exit(now: Value, exc: Option<Exception>) returns (raised: Option<Exception>)
      requires Valid()
      modifies this, component, writer
      ensures Valid() && endTime == now
      ensures inSagemakerJob == old(inSagemakerJob) && startTime == old(startTime)
      ensures warnings == old(warnings) && warnedOnMetrics == old(warnedOnMetrics)
      ensures var saved := if inSagemakerJob then old(component.attrs) else ExitAttrs(old(component.attrs), now, exc);
        var r := Invoke(component.reg, component.codec, component.cls, component.client, saved,
                        TrialComponent.UpdateMethod, TrialComponent.UpdateMembers);
        raised == r.raised && component.attrs == r.attrs
      ensures writer != null ==> writer.State() == Metrics.FileCloseSpec(old(writer.State()))
    {
      endTime := now;
      if !inSagemakerJob {
        component.attrs := ExitAttrs(component.attrs, now, exc);
      }
      raised := Close();
    }
  }

  // ---------------------------------------------------------------------------
  // Creating a tracker

  /** `_environment.EnvironmentType`. */
  datatype EnvironmentType = TrainingJob | ProcessingJob

  /** Where `Tracker.load` takes its trial component from. */
  datatype Source = ByName | FromEnvironment | NoSource

  function LoadSource(name: Value, env: Option<EnvironmentType>): Source {
    if Truthy(name) then ByName else if env.Some? then FromEnvironment else NoSource
  }

  /** Whether `Tracker.load` writes metrics to a file: only in a training job and without an explicit name. */
  predicate WritesMetricsToFile(name: Value, env: Option<EnvironmentType>) {
    !Truthy(name) && env == Some(TrainingJob)
  }

  const CannotLoad := ValueError("Could not load TrialComponent. Specify a trial_component_name or invoke \"create\"")

  const NoComponent := AttributeError("'NoneType' object has no attribute 'trial_component_name'")

  /**
   * `load` refuses exactly when there is neither a name nor a job
   * environment; a file writer is only used inside a training job and only
   * without a name; an explicit name always wins over the environment.
   */
  lemma LoadDecisions(name: Value, env: Option<EnvironmentType>)
    ensures LoadSource(name, env) == NoSource <==> !Truthy(name) && env.None?
    ensures WritesMetricsToFile(name, env) ==> LoadSource(name, env) == FromEnvironment && env == Some(TrainingJob)
    ensures Truthy(name) ==> LoadSource(name, env) == ByName && !WritesMetricsToFile(name, env)
    ensures env == Some(ProcessingJob) ==> !WritesMetricsToFile(name, env)
  {
  }

  /**
   * The tracker `load` and `create` build around a trial component: a fresh
   * file metrics writer when `fileWriter` holds, a fresh uploader for the
   * component's name, the component's maps defaulted.
   */
  method NewTracker(tc: Record, fileWriter: bool, inJob: bool,
                    bucket: Value, prefix: Value, fs: FileSystem, s3: S3, metricsDir: string, pid: int)
    returns (t: Tracker)
    requires tc.Valid() && tc.cls == "TrialComponent"
    modifies tc
    ensures fresh(t) && fresh(t.uploader) && t.Valid() && t.component == tc
    ensures tc.attrs == Defaulted(old(tc.attrs))
    ensures t.inSagemakerJob == inJob && !t.warnedOnMetrics
    ensures t.writer != null <==> fileWriter
    ensures t.writer != null ==>
      && fresh(t.writer) && t.writer.State() == Metrics.FileState(false, false, [], None)
      && t.writer.metricsFilePath == None && t.writer.metricsDir == metricsDir && t.writer.pid == pid
    ensures t.uploader.tcName == AttrOf(old(tc.attrs), "trial_component_name")
    ensures t.uploader.bucket == bucket && t.uploader.fs == fs && t.uploader.s3 == s3
    ensures t.uploader.prefix == (if Truthy(prefix) then prefix else StrV(DefaultArtifactPrefix))
  {
    var writer: Metrics.FileMetricsWriter? := null;
    if fileWriter {
      writer := new Metrics.FileMetricsWriter(None, metricsDir, pid);
    }
    var uploader := new ArtifactUploader(AttrOf(tc.attrs, "trial_component_name"), bucket, prefix, fs, s3);
    t := new Tracker(tc, writer, uploader);
    t.inSagemakerJob := inJob;
  }

  /**
   * The trial component `Tracker.load` tracks: the one loaded by name, or
   * the one the job environment's lookup gave (`resolved`, null when none
   * was found); null with the exception when there is none.
   */
  method LoadComponent(codec: NameCodec, client: Client, name: Value, env: Option<EnvironmentType>, resolved: Record?)
    returns (tc: Record?, raised: Option<Exception>)
    requires WellFormed(TrialComponent.Classes, codec) && "TrialComponent" in TrialComponent.Classes
    requires resolved != null ==> resolved.Valid() && resolved.cls == "TrialComponent"
    ensures tc != null <==> raised.None?
    ensures tc != null ==> tc.Valid() && tc.cls == "TrialComponent"
    ensures LoadSource(name, env) == NoSource ==> raised == Some(CannotLoad)
    ensures LoadSource(name, env) == FromEnvironment ==>
      (if resolved == null then raised == Some(NoComponent) else tc == resolved)
    ensures LoadSource(name, env) == ByName ==>
      var kwargs := map["trial_component_name" := name];
      var r := Invoke(TrialComponent.Classes, codec, "TrialComponent", client, kwargs, TrialComponent.LoadMethod, kwargs.Keys);
      && raised == r.raised
      && (r.raised.None? ==> fresh(tc) && tc.attrs == r.attrs)
  {
    match LoadSource(name, env)
    case NoSource =>
      tc, raised := null, Some(CannotLoad);
    case ByName =>
      var loaded;
      loaded, raised := TrialComponent.Load(codec, client, name);
      tc := if raised.None? then loaded else null;
    case FromEnvironment =>
      tc, raised := resolved, if resolved == null then Some(NoComponent) else None;
  }

  /**
   * `Tracker.load(trial_component_name, artifact_bucket, artifact_prefix, ...)`.
   * `env` is the job environment `TrialComponentEnvironment.load()` found
   * and `resolved` the trial component its lookup gave (null when none was
   * found); `metricsDir` and `pid` are what the file writer would use.
   */
  method Load(codec: NameCodec, client: Client, name: Value, env: Option<EnvironmentType>, resolved: Record?,
              bucket: Value, prefix: Value, fs: FileSystem, s3: S3, metricsDir: string, pid: int)
    returns (t: Tracker?, raised: Option<Exception>)
    requires WellFormed(TrialComponent.Classes, codec) && "TrialComponent" in TrialComponent.Classes
    requires resolved != null ==> resolved.Valid() && resolved.cls == "TrialComponent"
    modifies resolved
    ensures LoadSource(name, env) == NoSource ==> t == null && raised == Some(CannotLoad)
    ensures LoadSource(name, env) == FromEnvironment && resolved == null ==> t == null && raised == Some(NoComponent)
    ensures LoadSource(name, env) == FromEnvironment && resolved != null ==>
      && t != null && raised.None? && t.component == resolved
      && resolved.attrs == Defaulted(old(resolved.attrs))
      && t.uploader.tcName == AttrOf(old(resolved.attrs), "trial_component_name")
    ensures LoadSource(name, env) == ByName ==>
      var kwargs := map["trial_component_name" := name];
      var r := Invoke(TrialComponent.Classes, codec, "TrialComponent", client, kwargs, TrialComponent.LoadMethod, kwargs.Keys);
      && raised == r.raised
      && (r.raised.Some? ==> t == null)
      && (r.raised.None? ==>
            && t != null && fresh(t.component) && t.component.attrs == Defaulted(r.attrs)
            && t.uploader.tcName == AttrOf(r.attrs, "trial_component_name"))
    ensures t != null <==> raised.None?
    ensures t != null ==>
      && fresh(t) && fresh(t.uploader) && t.Valid()
      && t.inSagemakerJob == env.Some? && !t.warnedOnMetrics
      && (t.writer != null <==> WritesMetricsToFile(name, env))
      && (t.writer != null ==>
            (&& fresh(t.writer) && t.writer.State() == Metrics.FileState(false, false, [], None)
             && t.writer.metricsFilePath == None && t.writer.metricsDir == metricsDir && t.writer.pid == pid))
      && t.uploader.bucket == bucket && t.uploader.fs == fs && t.uploader.s3 == s3
      && t.uploader.prefix == (if Truthy(prefix) then prefix else StrV(DefaultArtifactPrefix))
  {
    var tc;
    tc, raised := LoadComponent(codec, client, name, env, resolved);
    if tc == null {
      return null, raised;
    }
    t := NewTracker(tc, WritesMetricsToFile(name, env), env.Some?, bucket, prefix, fs, s3, metricsDir, pid);
  }

  /**
   * `Tracker.create(display_name, artifact_bucket, artifact_prefix, ...)`:
   * a new trial component named `TrialComponent-<suffix>`, tracked with a
   * file metrics writer.
   */
  method Create(codec: NameCodec, client: Client, displayName: Value, suffix: string,
                bucket: Value, prefix: Value, fs: FileSystem, s3: S3, metricsDir: string, pid: int)
    returns (t: Tracker?, raised: Option<Exception>)
    requires WellFormed(TrialComponent.Classes, codec) && "TrialComponent" in TrialComponent.Classes
    ensures var kwargs := map["trial_component_name" := StrV(GeneratedName("TrialComponent", suffix)), "display_name" := displayName];
      var r := Invoke(TrialComponent.Classes, codec, "TrialComponent", client, kwargs, TrialComponent.CreateMethod, kwargs.Keys);
      && raised == r.raised
      && (r.raised.Some? ==> t == null)
      && (r.raised.None? ==>
            && t != null && fresh(t) && fresh(t.component) && fresh(t.uploader) && t.Valid()
            && t.component.attrs == Defaulted(r.attrs)
            && !t.inSagemakerJob && !t.warnedOnMetrics
            && t.writer != null && fresh(t.writer) && t.writer.State() == Metrics.FileState(false, false, [], None)
            && t.writer.metricsFilePath == None && t.writer.metricsDir == metricsDir && t.writer.pid == pid
            && t.uploader.tcName == AttrOf(r.attrs, "trial_component_name")
            && t.uploader.bucket == bucket
            && t.uploader.prefix == (if Truthy(prefix) then prefix else StrV(DefaultArtifactPrefix)))
  {
    var tc;
    tc, raised := TrialComponent.Create(codec, client, StrV(GeneratedName("TrialComponent", suffix)), displayName);
    if raised.Some? {
      return null, raised;
    }
    t := NewTracker(tc, true, false, bucket, prefix, fs, s3, metricsDir, pid);
  }
}
