/**
 * The convention-driven mapping between the library's objects and the
 * remote service's request and response dicts (`ApiObject`), and the
 * active-record conventions built on it (`Record`): invoking a named
 * operation with a subset of the attributes, merging the response back, and
 * paginated listing.
 *
 * The per-name conversion between `lower_snake_case` member names and
 * `UpperCamelCase` boto names lives in a module that is not part of this
 * model; it is the abstract `NameCodec`, assumed to be a bijection. The
 * recursive conversion of values follows what the library's unit tests
 * show: `None` values are dropped on the way out, and a member registered in
 * `_custom_boto_types` is converted through its class, element-wise for a
 * list or a dict when registered as a collection.
 */
module BaseTypes {
  import opened Py

  /** The member-name <-> boto-name conversion (`to_camel_case`/`to_snake_case`). */
  datatype NameCodec = NameCodec(toBoto: string -> string, fromBoto: string -> string)

  ghost predicate Bijective(codec: NameCodec) {
    && (forall n :: codec.fromBoto(codec.toBoto(n)) == n)
    && (forall b :: codec.toBoto(codec.fromBoto(b)) == b)
  }

  /**
   * How a class's `to_boto`/`from_boto` class methods behave: the generic
   * ones of `ApiObject`, or an override (TrialComponentParameters has one).
   */
  datatype Conversion =
    | Generic
    | Override(toBoto: Value -> Result<Value>, fromBoto: Value -> Result<Value>)

  /** An entry of `_custom_boto_types`: the member's class and whether it is a collection. */
  datatype CustomType = CustomType(cls: string, isCollection: bool)

  /** The static tables of one `ApiObject` subclass. */
  datatype ApiClass = ApiClass(
    name: string,
    ancestors: set<string>,                // the class and its base classes, for isinstance
    conversion: Conversion,
    customNames: map<string, string>,      // _custom_boto_names: member name -> boto name
    customTypes: map<string, CustomType>,  // _custom_boto_types
    initDefaults: set<string>)             // __init__ keyword parameters defaulting to None

  type Registry = map<string, ApiClass>

  predicate Injective(names: map<string, string>) {
    forall a, b :: a in names && b in names && names[a] == names[b] ==> a == b
  }

  /** The boto name of a member: the custom name if registered, else the codec's. */
  function BotoName(c: ApiClass, codec: NameCodec, member: string): string {
    if member in c.customNames then c.customNames[member] else codec.toBoto(member)
  }

  /** `{a: b for b, a in cls._custom_boto_names.items()}`. */
  function InverseNames(names: map<string, string>): (inv: map<string, string>)
    requires Injective(names)
    ensures forall m :: m in names ==> names[m] in inv && inv[names[m]] == m
    ensures forall b :: b in inv ==> inv[b] in names && names[inv[b]] == b
  {
    map m | m in names :: names[m] := m
  }

  /** The member name of a boto name: the inverse custom name if registered, else the codec's. */
  function MemberName(c: ApiClass, codec: NameCodec, boto: string): string
    requires Injective(c.customNames)
  {
    var inv := InverseNames(c.customNames);
    if boto in inv then inv[boto] else codec.fromBoto(boto)
  }

  /** The class's two name conversions undo each other. */
  ghost predicate NamesInverse(c: ApiClass, codec: NameCodec) {
    && Injective(c.customNames)
    && (forall m :: MemberName(c, codec, BotoName(c, codec, m)) == m)
    && (forall b :: BotoName(c, codec, MemberName(c, codec, b)) == b)
  }

  /** The registry is closed under custom types and each class's naming is consistent. */
  ghost predicate WellFormed(reg: Registry, codec: NameCodec) {
    forall c :: c in reg ==>
      && reg[c].name == c
      && c in reg[c].ancestors
      && NamesInverse(reg[c], codec)
      && (forall m :: m in reg[c].customTypes ==> reg[c].customTypes[m].cls in reg)
  }

  /** With no custom names (as in every class of the library), a bijective codec makes the naming consistent. */
  lemma PlainNamesInverse(c: ApiClass, codec: NameCodec)
    requires Bijective(codec) && c.customNames == map[]
    ensures NamesInverse(c, codec)
  {
    assert InverseNames(c.customNames) == map[];
  }

  /** `vars(obj)` for an object, or the dict itself. */
  function Fields(h: Value): map<string, Value>
    requires h.DictV? || h.ObjV?
  {
    if h.DictV? then h.entries else h.attrs
  }

  /** The entries of a dict that are not None (what `to_boto` keeps). */
  function NonNone(m: map<string, Value>): (r: map<string, Value>)
    ensures r.Keys <= m.Keys
    ensures forall k :: k in r <==> k in m && m[k] != NoneV
    ensures forall k :: k in r ==> r[k] == m[k]
  {
    map k | k in m && m[k] != NoneV :: m[k]
  }

  /** The attributes `cls(**kwargs)` gives: every defaulted parameter, then the keyword arguments. */
  function InitAttrs(c: ApiClass, kwargs: map<string, Value>): (r: map<string, Value>)
    ensures r.Keys == c.initDefaults + kwargs.Keys
    ensures forall k :: k in kwargs ==> r[k] == kwargs[k]
    ensures forall k :: k in c.initDefaults && k !in kwargs ==> r[k] == NoneV
  {
    (map d | d in c.initDefaults :: NoneV) + kwargs
  }

  const ConversionFailed := TypeError("value cannot be converted through its custom boto type")

  // ---------------------------------------------------------------------------
  // Outbound: _boto_functions.to_boto and ApiObject.to_boto

  /** Converting the non-None members of `h` (a dict or an object) of class `c` to a boto dict. */
  function ToBotoVars(reg: Registry, codec: NameCodec, c: string, h: Value): Result<map<string, Value>>
    requires WellFormed(reg, codec) && c in reg && (h.DictV? || h.ObjV?)
    decreases h, 1
  {
    var vars := Fields(h);
    if forall m | m in vars && vars[m] != NoneV :: ToBotoMember(reg, codec, c, m, vars[m]).Success? then
      Success(ToBotoEntries(reg, codec, c, h))
    else
      Failure(ConversionFailed)
  }

  /** The boto dict of `h`'s non-None members, each renamed and converted. */
  function ToBotoEntries(reg: Registry, codec: NameCodec, c: string, h: Value): map<string, Value>
    requires WellFormed(reg, codec) && c in reg && (h.DictV? || h.ObjV?)
    requires forall m | m in Fields(h) && Fields(h)[m] != NoneV :: ToBotoMember(reg, codec, c, m, Fields(h)[m]).Success?
    decreases h, 0
  {
    var vars := Fields(h);
    map m | m in vars && vars[m] != NoneV :: BotoName(reg[c], codec, m) := ToBotoMember(reg, codec, c, m, vars[m]).value
  }

  /** Converting the value of member `m` of class `c`. */
  function ToBotoMember(reg: Registry, codec: NameCodec, c: string, m: string, v: Value): Result<Value>
    requires WellFormed(reg, codec) && c in reg
    decreases v, 3
  {
    if m !in reg[c].customTypes then Success(v)
    else
      var t := reg[c].customTypes[m];
      if t.isCollection && v.DictV? then
        if forall k | k in v.entries :: ToBoto(reg, codec, t.cls, v.entries[k]).Success? then
          Success(DictV(map k | k in v.entries :: ToBoto(reg, codec, t.cls, v.entries[k]).value))
        else Failure(ConversionFailed)
      else if t.isCollection && v.ListV? then
        if forall i | 0 <= i < |v.items| :: ToBoto(reg, codec, t.cls, v.items[i]).Success? then
          Success(ListV(seq(|v.items|, i requires 0 <= i < |v.items| => ToBoto(reg, codec, t.cls, v.items[i]).value)))
        else Failure(ConversionFailed)
      else
        ToBoto(reg, codec, t.cls, v)
  }

  /** `cls.to_boto(v)`: an object's or dict's members converted, or the class's override. */
  function ToBoto(reg: Registry, codec: NameCodec, c: string, v: Value): (r: Result<Value>)
    requires WellFormed(reg, codec) && c in reg
    ensures reg[c].conversion.Generic? && r.Success? ==> r.value.DictV? && (v.DictV? || v.ObjV?)
    decreases v, 2
  {
    match reg[c].conversion
    case Override(to, _) => to(v)
    case Generic =>
      if v.DictV? || v.ObjV? then
        match ToBotoVars(reg, codec, c, v)
        case Success(d) => Success(DictV(d))
        case Failure(e) => Failure(e)
      else Failure(ConversionFailed)
  }

  // ---------------------------------------------------------------------------
  // Inbound: _boto_functions.from_boto and ApiObject.from_boto

  /** The keyword arguments the boto dict `b` converts to for class `c`. */
  function FromBotoKwargs(reg: Registry, codec: NameCodec, c: string, b: Value): Result<map<string, Value>>
    requires WellFormed(reg, codec) && c in reg && b.DictV?
    decreases b, 1
  {
    var d := b.entries;
    if forall n | n in d :: FromBotoMember(reg, codec, c, MemberName(reg[c], codec, n), d[n]).Success? then
      Success(FromBotoEntries(reg, codec, c, b))
    else
      Failure(ConversionFailed)
  }

  /** The keyword arguments of every entry of `b`, each renamed and converted. */
  function FromBotoEntries(reg: Registry, codec: NameCodec, c: string, b: Value): map<string, Value>
    requires WellFormed(reg, codec) && c in reg && b.DictV?
    requires forall n | n in b.entries :: FromBotoMember(reg, codec, c, MemberName(reg[c], codec, n), b.entries[n]).Success?
    decreases b, 0
  {
    var d := b.entries;
    map n | n in d :: MemberName(reg[c], codec, n) := FromBotoMember(reg, codec, c, MemberName(reg[c], codec, n), d[n]).value
  }

  /** Converting the boto value of member `m` of class `c`. */
  function FromBotoMember(reg: Registry, codec: NameCodec, c: string, m: string, v: Value): Result<Value>
    requires WellFormed(reg, codec) && c in reg
    decreases v, 4
  {
    if m !in reg[c].customTypes then Success(v)
    else
      var t := reg[c].customTypes[m];
      if !t.isCollection then FromBoto(reg, codec, t.cls, v)
      else if v.DictV? then
        if forall k | k in v.entries :: FromBoto(reg, codec, t.cls, v.entries[k]).Success? then
          Success(DictV(map k | k in v.entries :: FromBoto(reg, codec, t.cls, v.entries[k]).value))
        else Failure(ConversionFailed)
      else if v.ListV? then
        if forall i | 0 <= i < |v.items| :: FromBoto(reg, codec, t.cls, v.items[i]).Success? then
          Success(ListV(seq(|v.items|, i requires 0 <= i < |v.items| => FromBoto(reg, codec, t.cls, v.items[i]).value)))
        else Failure(ConversionFailed)
      else if v == StrV("") then
        Success(ListV([]))  // iterating an empty string yields no items
      else
        Failure(ConversionFailed)
  }

  /** `cls.from_boto(v)`: a new instance built by the class's constructor, or the class's override. */
  function FromBoto(reg: Registry, codec: NameCodec, c: string, v: Value): (r: Result<Value>)
    requires WellFormed(reg, codec) && c in reg
    ensures reg[c].conversion.Generic? && r.Success? ==>
      && v.DictV? && r.value.ObjV? && r.value.cls == c
      && (forall k :: k in reg[c].initDefaults ==> k in r.value.attrs)
    decreases v, 3
  {
    FromBotoWith(reg, codec, c, v, map[])
  }

  /** `cls.from_boto(v, **overrides)`: the explicit keyword arguments win over converted fields. */
  function FromBotoWith(reg: Registry, codec: NameCodec, c: string, v: Value, overrides: map<string, Value>): (r: Result<Value>)
    requires WellFormed(reg, codec) && c in reg
    ensures reg[c].conversion.Generic? && r.Success? ==>
      && r.value.ObjV? && r.value.cls == c
      && (forall k :: k in overrides ==> k in r.value.attrs && r.value.attrs[k] == overrides[k])
      && (forall k :: k in reg[c].initDefaults ==> k in r.value.attrs)
    decreases v, 2
  {
    match reg[c].conversion
    case Override(_, from) => from(v)
    case Generic =>
      if !v.DictV? then Failure(AttributeError("object has no attribute 'items'"))
      else
        match FromBotoKwargs(reg, codec, c, v)
        case Success(kwargs) => Success(ObjV(c, InitAttrs(reg[c], kwargs + overrides)))
        case Failure(e) => Failure(e)
  }

  // ---------------------------------------------------------------------------
  // Round trips

  /**
   * The objects that `to_boto` followed by `from_boto` gives back: a nested
   * object's `None` members are exactly constructor defaults it carries, and
   * every custom-typed member holds such objects (a collection as a list or
   * a dict of them).
   */
  ghost predicate CanonicalVars(reg: Registry, codec: NameCodec, c: string, h: Value, nested: bool)
    requires WellFormed(reg, codec) && c in reg && (h.DictV? || h.ObjV?)
    decreases h, 0
  {
    var vars := Fields(h);
    && (nested ==> reg[c].initDefaults <= vars.Keys)
    && (nested ==> forall m | m in vars && vars[m] == NoneV :: m in reg[c].initDefaults)
    && (forall m | m in vars && vars[m] != NoneV :: CanonicalMember(reg, codec, c, m, vars[m]))
  }

  ghost predicate CanonicalMember(reg: Registry, codec: NameCodec, c: string, m: string, v: Value)
    requires WellFormed(reg, codec) && c in reg
    decreases v, 2
  {
    m in reg[c].customTypes ==>
      var t := reg[c].customTypes[m];
      if t.isCollection then
        || (v.DictV? && forall k | k in v.entries :: CanonicalObject(reg, codec, t.cls, v.entries[k]))
        || (v.ListV? && forall i | 0 <= i < |v.items| :: CanonicalObject(reg, codec, t.cls, v.items[i]))
      else CanonicalObject(reg, codec, t.cls, v)
  }

  ghost predicate CanonicalObject(reg: Registry, codec: NameCodec, t: string, v: Value)
    requires WellFormed(reg, codec) && t in reg
    decreases v, 1
  {
    match reg[t].conversion
    case Override(to, from) => to(v).Success? && from(to(v).value) == Success(v)
    case Generic => v.ObjV? && v.cls == t && CanonicalVars(reg, codec, t, v, true)
  }

  /** `from_boto` of the boto dict of `h`'s members gives back its non-None members. */
  lemma {:induction false} VarsRoundTrip(reg: Registry, codec: NameCodec, c: string, h: Value, nested: bool)
    requires WellFormed(reg, codec) && c in reg && (h.DictV? || h.ObjV?)
    requires CanonicalVars(reg, codec, c, h, nested)
    ensures ToBotoVars(reg, codec, c, h).Success?
    ensures FromBotoKwargs(reg, codec, c, DictV(ToBotoVars(reg, codec, c, h).value)) == Success(NonNone(Fields(h)))
    decreases h, 0
  {
    var vars := Fields(h);
    var cls := reg[c];
    forall m | m in vars && vars[m] != NoneV
      ensures ToBotoMember(reg, codec, c, m, vars[m]).Success?
      ensures FromBotoMember(reg, codec, c, m, ToBotoMember(reg, codec, c, m, vars[m]).value) == Success(vars[m])
    {
      MemberRoundTrip(reg, codec, c, m, vars[m]);
    }
    assert ToBotoVars(reg, codec, c, h) == Success(ToBotoEntries(reg, codec, c, h));
    EntriesRoundTrip(reg, codec, c, h);
  }

  /** Renaming back the boto dict of `h`, whose members each convert back, recovers its non-None members. */
  lemma EntriesRoundTrip(reg: Registry, codec: NameCodec, c: string, h: Value)
    requires WellFormed(reg, codec) && c in reg && (h.DictV? || h.ObjV?)
    requires forall m | m in Fields(h) && Fields(h)[m] != NoneV ::
      && ToBotoMember(reg, codec, c, m, Fields(h)[m]).Success?
      && FromBotoMember(reg, codec, c, m, ToBotoMember(reg, codec, c, m, Fields(h)[m]).value) == Success(Fields(h)[m])
    ensures FromBotoKwargs(reg, codec, c, DictV(ToBotoEntries(reg, codec, c, h))) == Success(NonNone(Fields(h)))
  {
    var vars := Fields(h);
    var cls := reg[c];
    var d := ToBotoEntries(reg, codec, c, h);
    forall n | n in d
      ensures MemberName(cls, codec, n) in vars && vars[MemberName(cls, codec, n)] != NoneV
      ensures FromBotoMember(reg, codec, c, MemberName(cls, codec, n), d[n]) == Success(vars[MemberName(cls, codec, n)])
    {
      var m :| m in vars && vars[m] != NoneV && BotoName(cls, codec, m) == n;
      assert MemberName(cls, codec, BotoName(cls, codec, m)) == m;
    }
    forall m | m in vars && vars[m] != NoneV ensures BotoName(cls, codec, m) in d {
    }
    RenamedBack(reg, codec, c, d, vars);
  }

  /** Renaming a boto dict whose entries each come from a non-None member gives back those members. */
  lemma RenamedBack(reg: Registry, codec: NameCodec, c: string, d: map<string, Value>, vars: map<string, Value>)
    requires WellFormed(reg, codec) && c in reg
    requires forall n | n in d ::
      && MemberName(reg[c], codec, n) in vars && vars[MemberName(reg[c], codec, n)] != NoneV
      && FromBotoMember(reg, codec, c, MemberName(reg[c], codec, n), d[n]) == Success(vars[MemberName(reg[c], codec, n)])
    requires forall m | m in vars && vars[m] != NoneV :: BotoName(reg[c], codec, m) in d
    ensures FromBotoEntries(reg, codec, c, DictV(d)) == NonNone(vars)
  {
    var cls := reg[c];
    var back := FromBotoEntries(reg, codec, c, DictV(d));
    forall m | m in NonNone(vars) ensures m in back && back[m] == vars[m] {
      var n := BotoName(cls, codec, m);
      assert MemberName(cls, codec, n) == m;
    }
    forall k | k in back ensures k in NonNone(vars) {
      var n :| n in d && MemberName(cls, codec, n) == k;
    }
    SameEntries(back, NonNone(vars));
  }

  lemma {:induction false} MemberRoundTrip(reg: Registry, codec: NameCodec, c: string, m: string, v: Value)
    requires WellFormed(reg, codec) && c in reg
    requires CanonicalMember(reg, codec, c, m, v)
    ensures ToBotoMember(reg, codec, c, m, v).Success?
    ensures FromBotoMember(reg, codec, c, m, ToBotoMember(reg, codec, c, m, v).value) == Success(v)
    decreases v, 2
  {
    if m in reg[c].customTypes {
      var t := reg[c].customTypes[m];
      if t.isCollection && v.DictV? {
        forall k | k in v.entries
          ensures ToBoto(reg, codec, t.cls, v.entries[k]).Success?
          ensures FromBoto(reg, codec, t.cls, ToBoto(reg, codec, t.cls, v.entries[k]).value) == Success(v.entries[k])
        {
          ObjectRoundTrip(reg, codec, t.cls, v.entries[k]);
        }
        var out := ToBotoMember(reg, codec, c, m, v).value;
        assert FromBotoMember(reg, codec, c, m, out).value == v;
      } else if t.isCollection && v.ListV? {
        forall i | 0 <= i < |v.items|
          ensures ToBoto(reg, codec, t.cls, v.items[i]).Success?
          ensures FromBoto(reg, codec, t.cls, ToBoto(reg, codec, t.cls, v.items[i]).value) == Success(v.items[i])
        {
          ObjectRoundTrip(reg, codec, t.cls, v.items[i]);
        }
        var out := ToBotoMember(reg, codec, c, m, v).value;
        assert FromBotoMember(reg, codec, c, m, out).value == v;
      } else {
        ObjectRoundTrip(reg, codec, t.cls, v);
      }
    }
  }

  /** `cls.from_boto(cls.to_boto(obj)) == obj` for every canonical object of class `t`. */
  lemma {:induction false} ObjectRoundTrip(reg: Registry, codec: NameCodec, t: string, v: Value)
    requires WellFormed(reg, codec) && t in reg
    requires CanonicalObject(reg, codec, t, v)
    ensures ToBoto(reg, codec, t, v).Success?
    ensures FromBoto(reg, codec, t, ToBoto(reg, codec, t, v).value) == Success(v)
    decreases v, 1
  {
    if reg[t].conversion.Generic? {
      var kwargs := NonNone(v.attrs);
      assert ToBotoVars(reg, codec, t, v).Success? && FromBotoKwargs(reg, codec, t, DictV(ToBotoVars(reg, codec, t, v).value)) == Success(kwargs) by {
        VarsRoundTrip(reg, codec, t, v, true);
      }
      var d := ToBotoVars(reg, codec, t, v).value;
      assert ToBoto(reg, codec, t, v) == Success(DictV(d));
      GenericFromBoto(reg, codec, t, d);
      DefaultsRestored(reg[t], v.attrs);
      assert ObjV(t, InitAttrs(reg[t], kwargs)) == v;
    } else {
      assert FromBoto(reg, codec, t, ToBoto(reg, codec, t, v).value) == reg[t].conversion.fromBoto(reg[t].conversion.toBoto(v).value);
    }
  }

  /** `from_boto` of a dict for a class without an override constructs the class from the converted fields. */
  lemma GenericFromBoto(reg: Registry, codec: NameCodec, t: string, d: map<string, Value>)
    requires WellFormed(reg, codec) && t in reg && reg[t].conversion.Generic?
    requires FromBotoKwargs(reg, codec, t, DictV(d)).Success?
    ensures FromBoto(reg, codec, t, DictV(d)) == Success(ObjV(t, InitAttrs(reg[t], FromBotoKwargs(reg, codec, t, DictV(d)).value)))
  {
    var kwargs := FromBotoKwargs(reg, codec, t, DictV(d)).value;
    assert kwargs + map[] == kwargs;
  }

  /** `to_boto` of an object of a class without an override is the dict of its converted members. */
  lemma GenericToBoto(reg: Registry, codec: NameCodec, t: string, h: Value)
    requires WellFormed(reg, codec) && t in reg && reg[t].conversion.Generic? && (h.DictV? || h.ObjV?)
    requires ToBotoVars(reg, codec, t, h).Success?
    ensures ToBoto(reg, codec, t, h) == Success(DictV(ToBotoVars(reg, codec, t, h).value))
  {
  }

  /** Two dicts with the same keys and the same value at each key are equal. */
  lemma SameEntries(a: map<string, Value>, b: map<string, Value>)
    requires forall k | k in a :: k in b && a[k] == b[k]
    requires forall k | k in b :: k in a
    ensures a == b
  {
  }

  /** The constructor's defaults put back exactly the None members that `to_boto` dropped. */
  lemma DefaultsRestored(c: ApiClass, attrs: map<string, Value>)
    requires c.initDefaults <= attrs.Keys
    requires forall m | m in attrs && attrs[m] == NoneV :: m in c.initDefaults
    ensures InitAttrs(c, NonNone(attrs)) == attrs
  {
  }

  /**
   * The boto dicts that `from_boto` followed by `to_boto` gives back: inside
   * a nested object no value is None, and every custom-typed member holds
   * such dicts (a collection as a list or a dict of them).
   */
  ghost predicate BotoCanonicalDict(reg: Registry, codec: NameCodec, c: string, b: Value, nested: bool)
    requires WellFormed(reg, codec) && c in reg && b.DictV?
    decreases b, 0
  {
    forall n | n in b.entries ::
      && (nested ==> b.entries[n] != NoneV)
      && BotoCanonicalMember(reg, codec, c, MemberName(reg[c], codec, n), b.entries[n])
  }

  ghost predicate BotoCanonicalMember(reg: Registry, codec: NameCodec, c: string, m: string, v: Value)
    requires WellFormed(reg, codec) && c in reg
    decreases v, 2
  {
    m in reg[c].customTypes ==>
      var t := reg[c].customTypes[m];
      if t.isCollection then
        || (v.DictV? && forall k | k in v.entries :: BotoCanonicalObject(reg, codec, t.cls, v.entries[k]))
        || (v.ListV? && forall i | 0 <= i < |v.items| :: BotoCanonicalObject(reg, codec, t.cls, v.items[i]))
      else BotoCanonicalObject(reg, codec, t.cls, v)
  }

  ghost predicate BotoCanonicalObject(reg: Registry, codec: NameCodec, t: string, v: Value)
    requires WellFormed(reg, codec) && t in reg
    decreases v, 1
  {
    match reg[t].conversion
    case Override(to, from) =>
      v != NoneV && from(v).Success? && from(v).value != NoneV && to(from(v).value) == Success(v)
    case Generic => v.DictV? && BotoCanonicalDict(reg, codec, t, v, true)
  }

  /**
   * `to_boto` of the object that `from_boto` builds from the boto dict `b`
   * gives back `b`'s non-None entries.
   */
  lemma {:induction false} KwargsRoundTrip(reg: Registry, codec: NameCodec, c: string, b: Value, nested: bool)
    requires WellFormed(reg, codec) && c in reg && b.DictV?
    requires BotoCanonicalDict(reg, codec, c, b, nested)
    ensures FromBotoKwargs(reg, codec, c, b).Success?
    ensures ToBotoVars(reg, codec, c, ObjV(c, InitAttrs(reg[c], FromBotoKwargs(reg, codec, c, b).value))) == Success(NonNone(b.entries))
    decreases b, 0
  {
    var cls := reg[c];
    forall n | n in b.entries
      ensures FromBotoMember(reg, codec, c, MemberName(cls, codec, n), b.entries[n]).Success?
      ensures b.entries[n] == NoneV <==> FromBotoMember(reg, codec, c, MemberName(cls, codec, n), b.entries[n]).value == NoneV
      ensures ToBotoMember(reg, codec, c, MemberName(cls, codec, n), FromBotoMember(reg, codec, c, MemberName(cls, codec, n), b.entries[n]).value) == Success(b.entries[n])
    {
      MemberRoundTripIn(reg, codec, c, MemberName(cls, codec, n), b.entries[n]);
    }
    ConvertedKwargs(reg, codec, c, b);
    KwargsRenamedOut(reg, codec, c, b.entries);
  }

  /** When every entry converts, `from_boto` succeeds with the renamed, converted entries. */
  lemma ConvertedKwargs(reg: Registry, codec: NameCodec, c: string, b: Value)
    requires WellFormed(reg, codec) && c in reg && b.DictV?
    requires forall n | n in b.entries :: FromBotoMember(reg, codec, c, MemberName(reg[c], codec, n), b.entries[n]).Success?
    ensures FromBotoKwargs(reg, codec, c, b) == Success(FromBotoEntries(reg, codec, c, b))
  {
  }

  lemma KwargsRenamedOut(reg: Registry, codec: NameCodec, c: string, d: map<string, Value>)
    requires WellFormed(reg, codec) && c in reg
    requires forall n | n in d ::
      && FromBotoMember(reg, codec, c, MemberName(reg[c], codec, n), d[n]).Success?
      && (d[n] == NoneV <==> FromBotoMember(reg, codec, c, MemberName(reg[c], codec, n), d[n]).value == NoneV)
      && ToBotoMember(reg, codec, c, MemberName(reg[c], codec, n), FromBotoMember(reg, codec, c, MemberName(reg[c], codec, n), d[n]).value) == Success(d[n])
    ensures ToBotoVars(reg, codec, c, ObjV(c, InitAttrs(reg[c], FromBotoEntries(reg, codec, c, DictV(d))))) == Success(NonNone(d))
  {
    var cls := reg[c];
    var b := DictV(d);
    var kwargs := FromBotoEntries(reg, codec, c, b);
    var attrs := InitAttrs(cls, kwargs);
    forall m | m in attrs && attrs[m] != NoneV
      ensures BotoName(cls, codec, m) in b.entries && b.entries[BotoName(cls, codec, m)] != NoneV
      ensures ToBotoMember(reg, codec, c, m, attrs[m]) == Success(b.entries[BotoName(cls, codec, m)])
    {
      var n :| n in b.entries && MemberName(cls, codec, n) == m;
      assert BotoName(cls, codec, MemberName(cls, codec, n)) == n;
    }
    forall n | n in b.entries && b.entries[n] != NoneV
      ensures MemberName(cls, codec, n) in attrs && attrs[MemberName(cls, codec, n)] != NoneV
    {
    }
    RenamedOut(reg, codec, c, ObjV(c, attrs), b.entries);
  }

  /** When every non-None member converts, `to_boto` succeeds with the renamed, converted members. */
  lemma ConvertedVars(reg: Registry, codec: NameCodec, c: string, h: Value)
    requires WellFormed(reg, codec) && c in reg && (h.DictV? || h.ObjV?)
    requires forall m | m in Fields(h) && Fields(h)[m] != NoneV :: ToBotoMember(reg, codec, c, m, Fields(h)[m]).Success?
    ensures ToBotoVars(reg, codec, c, h) == Success(ToBotoEntries(reg, codec, c, h))
  {
  }

  /** Renaming out the non-None attributes of `h`, each of which converts to an entry of `b`, gives `b`'s non-None entries. */
  lemma RenamedOut(reg: Registry, codec: NameCodec, c: string, h: Value, b: map<string, Value>)
    requires WellFormed(reg, codec) && c in reg && (h.DictV? || h.ObjV?)
    requires forall m | m in Fields(h) && Fields(h)[m] != NoneV ::
      && BotoName(reg[c], codec, m) in b && b[BotoName(reg[c], codec, m)] != NoneV
      && ToBotoMember(reg, codec, c, m, Fields(h)[m]) == Success(b[BotoName(reg[c], codec, m)])
    requires forall n | n in b && b[n] != NoneV ::
      MemberName(reg[c], codec, n) in Fields(h) && Fields(h)[MemberName(reg[c], codec, n)] != NoneV
    ensures ToBotoVars(reg, codec, c, h) == Success(NonNone(b))
  {
    var cls := reg[c];
    var vars := Fields(h);
    ConvertedVars(reg, codec, c, h);
    var out := ToBotoEntries(reg, codec, c, h);
    assert forall n | n in NonNone(b) :: n in out && out[n] == b[n] by {
      forall n | n in NonNone(b) ensures n in out && out[n] == b[n] {
        var m := MemberName(cls, codec, n);
        assert BotoName(cls, codec, m) == n;
      }
    }
    assert forall n | n in out :: n in NonNone(b) by {
      forall n | n in out ensures n in NonNone(b) {
        var m :| m in vars && vars[m] != NoneV && BotoName(cls, codec, m) == n;
      }
    }
    SameEntries(out, NonNone(b));
  }

  lemma {:induction false} MemberRoundTripIn(reg: Registry, codec: NameCodec, c: string, m: string, v: Value)
    requires WellFormed(reg, codec) && c in reg
    requires BotoCanonicalMember(reg, codec, c, m, v)
    ensures FromBotoMember(reg, codec, c, m, v).Success?
    ensures v == NoneV <==> FromBotoMember(reg, codec, c, m, v).value == NoneV
    ensures ToBotoMember(reg, codec, c, m, FromBotoMember(reg, codec, c, m, v).value) == Success(v)
    decreases v, 3
  {
    if m in reg[c].customTypes {
      var t := reg[c].customTypes[m];
      if t.isCollection && v.DictV? {
        forall k | k in v.entries
          ensures FromBoto(reg, codec, t.cls, v.entries[k]).Success?
          ensures ToBoto(reg, codec, t.cls, FromBoto(reg, codec, t.cls, v.entries[k]).value) == Success(v.entries[k])
        {
          ObjectRoundTripIn(reg, codec, t.cls, v.entries[k]);
        }
        var back := FromBotoMember(reg, codec, c, m, v).value;
        assert ToBotoMember(reg, codec, c, m, back).value == v;
      } else if t.isCollection && v.ListV? {
        forall i | 0 <= i < |v.items|
          ensures FromBoto(reg, codec, t.cls, v.items[i]).Success?
          ensures ToBoto(reg, codec, t.cls, FromBoto(reg, codec, t.cls, v.items[i]).value) == Success(v.items[i])
        {
          ObjectRoundTripIn(reg, codec, t.cls, v.items[i]);
        }
        var back := FromBotoMember(reg, codec, c, m, v).value;
        assert ToBotoMember(reg, codec, c, m, back).value == v;
      } else {
        ObjectRoundTripIn(reg, codec, t.cls, v);
      }
    }
  }

  /** `cls.to_boto(cls.from_boto(d)) == d` for every canonical boto dict of class `t`. */
  lemma {:induction false} ObjectRoundTripIn(reg: Registry, codec: NameCodec, t: string, v: Value)
    requires WellFormed(reg, codec) && t in reg
    requires BotoCanonicalObject(reg, codec, t, v)
    ensures FromBoto(reg, codec, t, v).Success? && FromBoto(reg, codec, t, v).value != NoneV
    ensures ToBoto(reg, codec, t, FromBoto(reg, codec, t, v).value) == Success(v)
    decreases v, 2
  {
    if reg[t].conversion.Generic? {
      GenericRoundTripIn(reg, codec, t, v.entries);
    }
  }

  lemma {:induction false} GenericRoundTripIn(reg: Registry, codec: NameCodec, t: string, d: map<string, Value>)
    requires WellFormed(reg, codec) && t in reg && reg[t].conversion.Generic?
    requires BotoCanonicalDict(reg, codec, t, DictV(d), true)
    ensures FromBoto(reg, codec, t, DictV(d)).Success? && FromBoto(reg, codec, t, DictV(d)).value != NoneV
    ensures ToBoto(reg, codec, t, FromBoto(reg, codec, t, DictV(d)).value) == Success(DictV(d))
    decreases DictV(d), 1
  {
    KwargsRoundTrip(reg, codec, t, DictV(d), true);
    var kwargs := FromBotoKwargs(reg, codec, t, DictV(d)).value;
    GenericFromBoto(reg, codec, t, d);
    NestedHasNoNones(reg, codec, t, d);
    GenericToBoto(reg, codec, t, ObjV(t, InitAttrs(reg[t], kwargs)));
  }

  lemma NestedHasNoNones(reg: Registry, codec: NameCodec, t: string, d: map<string, Value>)
    requires WellFormed(reg, codec) && t in reg
    requires BotoCanonicalDict(reg, codec, t, DictV(d), true)
    ensures NonNone(d) == d
  {
    assert forall n | n in d :: d[n] != NoneV;
  }

  // ---------------------------------------------------------------------------
  // Equality

  /** `self.__eq__(other)`: `other` is an instance of `self`'s class (or a subclass) with the same attributes. */
  predicate Equal(reg: Registry, self: Value, other: Value)
    requires self.ObjV?
  {
    other.ObjV? && other.cls in reg && self.cls in reg[other.cls].ancestors && self.attrs == other.attrs
  }

  /** `self.__ne__(other)`: the negation of `self.__eq__(other)`. */
  predicate NotEqual(reg: Registry, self: Value, other: Value)
    requires self.ObjV?
  {
    !Equal(reg, self, other)
  }

  /** Whether `y`'s class is a proper subclass of `x`'s. */
  predicate ProperSubclass(reg: Registry, y: Value, x: Value)
    requires x.ObjV?
  {
    y.ObjV? && y.cls != x.cls && y.cls in reg && x.cls in reg[y.cls].ancestors
  }

  /**
   * The operator `x == y` on an `ApiObject` `x`: when `y`'s class is a
   * proper subclass of `x`'s, Python tries the reflected `y.__eq__(x)` first;
   * otherwise `x.__eq__(y)`. Neither returns `NotImplemented`, so the first
   * answer is final.
   */
  predicate OperatorEq(reg: Registry, x: Value, y: Value)
    requires x.ObjV?
    ensures OperatorEq(reg, x, y) ==> y.ObjV? && x.attrs == y.attrs
    ensures OperatorEq(reg, x, y) ==> x.cls == y.cls || ProperSubclass(reg, y, x) || ProperSubclass(reg, x, y)
  {
    if ProperSubclass(reg, y, x) then Equal(reg, y, x) else Equal(reg, x, y)
  }

  /** The operator `x != y`, dispatched like `==` to `__ne__`. */
  predicate OperatorNe(reg: Registry, x: Value, y: Value)
    requires x.ObjV?
  {
    if ProperSubclass(reg, y, x) then NotEqual(reg, y, x) else NotEqual(reg, x, y)
  }

  /** `__eq__` is reflexive on registered classes and symmetric between objects of the same class; `__ne__` is its negation. */
  lemma EqualityLaws(reg: Registry, codec: NameCodec, x: Value, y: Value)
    requires WellFormed(reg, codec) && x.ObjV? && x.cls in reg && y.ObjV?
    ensures Equal(reg, x, x) && !NotEqual(reg, x, x)
    ensures x.cls == y.cls ==> (Equal(reg, x, y) <==> Equal(reg, y, x))
    ensures NotEqual(reg, x, y) <==> !Equal(reg, x, y)
  {
  }

  /**
   * In a class hierarchy without cycles, the operator `==` between two
   * `ApiObject`s holds exactly when they are of the same class and have the
   * same attributes (so it is symmetric), and `!=` is its negation.
   */
  lemma OperatorEqualityExact(reg: Registry, codec: NameCodec, x: Value, y: Value)
    requires WellFormed(reg, codec) && x.ObjV? && y.ObjV? && x.cls in reg && y.cls in reg
    requires x.cls in reg[y.cls].ancestors && y.cls in reg[x.cls].ancestors ==> x.cls == y.cls
    ensures OperatorEq(reg, x, y) <==> x.cls == y.cls && x.attrs == y.attrs
    ensures OperatorEq(reg, x, y) <==> OperatorEq(reg, y, x)
    ensures OperatorNe(reg, x, y) <==> !OperatorEq(reg, x, y)
  {
    if ProperSubclass(reg, y, x) {
      assert !Equal(reg, y, x);
    } else if ProperSubclass(reg, x, y) {
      assert !Equal(reg, x, y);
    }
  }

  /**
   * A base-class instance's `__eq__` accepts a subclass instance with the same
   * attributes, but not the other way round; the operator `==` is False in
   * both orders, because it asks the subclass instance first.
   */
  lemma SubclassEqualityAsymmetric(reg: Registry, base: Value, sub: Value)
    requires base.ObjV? && sub.ObjV? && base.attrs == sub.attrs
    requires sub.cls in reg && base.cls in reg[sub.cls].ancestors
    requires base.cls in reg && sub.cls !in reg[base.cls].ancestors
    ensures Equal(reg, base, sub) && !Equal(reg, sub, base)
    ensures !OperatorEq(reg, base, sub) && !OperatorEq(reg, sub, base)
    ensures OperatorNe(reg, base, sub) && OperatorNe(reg, sub, base)
  {
  }

  /** Adding a class without custom names, whose custom types are registered, keeps a registry well formed. */
  lemma WellFormedExtended(reg: Registry, codec: NameCodec, c: ApiClass)
    requires WellFormed(reg, codec) && Bijective(codec)
    requires c.customNames == map[] && c.name in c.ancestors
    requires forall m :: m in c.customTypes ==> c.customTypes[m].cls in reg
    ensures WellFormed(reg[c.name := c], codec)
  {
    PlainNamesInverse(c, codec);
  }

  // ---------------------------------------------------------------------------
  // Record

  /** `_utils.name(prefix)`: the prefix, a dash, and a suffix made from the clock and randomness (here a parameter). */
  function GeneratedName(prefix: string, suffix: string): (n: string)
    ensures StartsWith(n, prefix + "-") && n != ""
  {
    prefix + "-" + suffix
  }

  /** An attribute of a record: its own value, else the class attribute `None`. */
  function AttrOf(attrs: map<string, Value>, name: string): (v: Value)
    ensures name in attrs ==> v == attrs[name]
    ensures name !in attrs ==> v == NoneV
  {
    if name in attrs then attrs[name] else NoneV
  }

  /** The remote client: an operation name and its keyword arguments to a response, or a raised error. */
  type Client = (string, map<string, Value>) -> Result<Value>

  /** A call of the remote client: the operation and its keyword arguments. */
  datatype Call = Call(operation: string, kwargs: map<string, Value>)

  /** `{k: v for k, v in vars(self).items() if k in members}`. */
  function Select(attrs: map<string, Value>, members: set<string>): (r: map<string, Value>)
    ensures r.Keys == attrs.Keys * members
    ensures forall k :: k in r ==> r[k] == attrs[k]
  {
    map k | k in attrs && k in members :: attrs[k]
  }

  /** The attributes after `with_boto(response)`: the response's converted fields win; a non-dict response is an error. */
  function WithBotoAttrs(reg: Registry, codec: NameCodec, c: string, attrs: map<string, Value>, response: Value): (r: Result<map<string, Value>>)
    requires WellFormed(reg, codec) && c in reg
    ensures r.Success? ==> response.DictV? && FromBotoKwargs(reg, codec, c, response).Success?
    ensures r.Success? ==> r.value == attrs + FromBotoKwargs(reg, codec, c, response).value
  {
    if !response.DictV? then Failure(AttributeError("object has no attribute 'items'"))
    else
      match FromBotoKwargs(reg, codec, c, response)
      case Success(kwargs) => Success(attrs + kwargs)
      case Failure(e) => Failure(e)
  }

  /** The request `_invoke_api` sends: the listed members of `attrs`, converted to boto form. */
  function InvokeRequest(reg: Registry, codec: NameCodec, c: string, attrs: map<string, Value>, members: set<string>): Result<map<string, Value>>
    requires WellFormed(reg, codec) && c in reg
  {
    ToBotoVars(reg, codec, c, DictV(Select(attrs, members)))
  }

  /** The request carries exactly the listed members that are not None, under their boto names. */
  lemma {:induction false} InvokeRequestMembers(reg: Registry, codec: NameCodec, c: string, attrs: map<string, Value>, members: set<string>)
    requires WellFormed(reg, codec) && c in reg
    requires InvokeRequest(reg, codec, c, attrs, members).Success?
    ensures forall k :: k in InvokeRequest(reg, codec, c, attrs, members).value <==>
      exists m :: m in members && m in attrs && attrs[m] != NoneV && BotoName(reg[c], codec, m) == k
  {
    var h := DictV(Select(attrs, members));
    assert forall m | m in Fields(h) && Fields(h)[m] != NoneV :: ToBotoMember(reg, codec, c, m, Fields(h)[m]).Success?;
    ConvertedVars(reg, codec, c, h);
  }

  /** What `_invoke_api` did: the request sent (None when converting the members failed), what it raised, and the attributes after it. */
  datatype Invocation = Invocation(sent: Option<map<string, Value>>, raised: Option<Exception>, attrs: map<string, Value>)

  /** `_invoke_api(operation, members)` on a record of class `c` with attributes `attrs`. */
  function Invoke(reg: Registry, codec: NameCodec, c: string, client: Client, attrs: map<string, Value>,
                  operation: string, members: set<string>): (r: Invocation)
    requires WellFormed(reg, codec) && c in reg
    ensures r.raised.Some? ==> r.attrs == attrs
    ensures r.sent.Some? <==> InvokeRequest(reg, codec, c, attrs, members).Success?
    ensures r.raised.None? ==>
      && r.sent.Some? && client(operation, r.sent.value).Success?
      && WithBotoAttrs(reg, codec, c, attrs, client(operation, r.sent.value).value) == Success(r.attrs)
  {
    match InvokeRequest(reg, codec, c, attrs, members)
    case Failure(e) => Invocation(None, Some(e), attrs)
    case Success(request) =>
      match client(operation, request)
      case Failure(e) => Invocation(Some(request), Some(e), attrs)
      case Success(response) =>
        match WithBotoAttrs(reg, codec, c, attrs, response)
        case Success(a) => Invocation(Some(request), None, a)
        case Failure(e) => Invocation(Some(request), Some(e), attrs)
  }

  /**
   * For a class without custom types, `to_boto` of a dict succeeds and keeps
   * the value of every non-None entry under its boto name.
   */
  lemma PlainVars(reg: Registry, codec: NameCodec, c: string, d: map<string, Value>)
    requires WellFormed(reg, codec) && c in reg && reg[c].customTypes == map[]
    ensures ToBotoVars(reg, codec, c, DictV(d)).Success?
    ensures forall m :: m in d && d[m] != NoneV ==>
      && BotoName(reg[c], codec, m) in ToBotoVars(reg, codec, c, DictV(d)).value
      && ToBotoVars(reg, codec, c, DictV(d)).value[BotoName(reg[c], codec, m)] == d[m]
    ensures forall k :: k in ToBotoVars(reg, codec, c, DictV(d)).value <==>
      exists m :: m in d && d[m] != NoneV && BotoName(reg[c], codec, m) == k
  {
    var h := DictV(d);
    assert forall m | m in Fields(h) && Fields(h)[m] != NoneV :: ToBotoMember(reg, codec, c, m, Fields(h)[m]) == Success(d[m]);
    ConvertedVars(reg, codec, c, h);
  }

  /** For such a class, a member's boto name is in the converted dict exactly when the member is set and not None. */
  lemma PlainVarsKey(reg: Registry, codec: NameCodec, c: string, d: map<string, Value>, m: string)
    requires WellFormed(reg, codec) && c in reg && reg[c].customTypes == map[]
    ensures ToBotoVars(reg, codec, c, DictV(d)).Success?
    ensures BotoName(reg[c], codec, m) in ToBotoVars(reg, codec, c, DictV(d)).value <==> m in d && d[m] != NoneV
  {
    PlainVars(reg, codec, c, d);
    if BotoName(reg[c], codec, m) in ToBotoVars(reg, codec, c, DictV(d)).value {
      var m' :| m' in d && d[m'] != NoneV && BotoName(reg[c], codec, m') == BotoName(reg[c], codec, m);
      assert MemberName(reg[c], codec, BotoName(reg[c], codec, m')) == m';
      assert MemberName(reg[c], codec, BotoName(reg[c], codec, m)) == m;
    }
  }

  /** For such a class, `_invoke_api` sends the listed members that are set and not None, renamed, and nothing else. */
  lemma PlainRequest(reg: Registry, codec: NameCodec, c: string, attrs: map<string, Value>, members: set<string>)
    requires WellFormed(reg, codec) && c in reg && reg[c].customTypes == map[]
    ensures InvokeRequest(reg, codec, c, attrs, members).Success?
    ensures forall m :: m in members && m in attrs && attrs[m] != NoneV ==>
      && BotoName(reg[c], codec, m) in InvokeRequest(reg, codec, c, attrs, members).value
      && InvokeRequest(reg, codec, c, attrs, members).value[BotoName(reg[c], codec, m)] == attrs[m]
    ensures forall k :: k in InvokeRequest(reg, codec, c, attrs, members).value <==>
      exists m :: m in members && m in attrs && attrs[m] != NoneV && BotoName(reg[c], codec, m) == k
  {
    PlainVars(reg, codec, c, Select(attrs, members));
  }

  /** A record of class `cls` holding the client it calls. */
  class Record {
    const reg: Registry
    const codec: NameCodec
    const cls: string
    const client: Client
    var attrs: map<string, Value>

    ghost predicate Valid()
    {
      WellFormed(reg, codec) && cls in reg
    }

    /** `cls(sagemaker_boto_client, **kwargs)`. */
    constructor(reg: Registry, codec: NameCodec, cls: string, client: Client, kwargs: map<string, Value>)
      requires WellFormed(reg, codec) && cls in reg
      ensures Valid()
      ensures this.reg == reg && this.codec == codec && this.cls == cls && this.client == client
      ensures attrs == kwargs
    {
      this.reg := reg;
      this.codec := codec;
      this.cls := cls;
      this.client := client;
      attrs := kwargs;
    }

    /** `with_boto(response)`: merge a response into the attributes; a failed conversion changes nothing. */
    method WithBoto(response: Value) returns (raised: Option<Exception>)
      requires Valid()
      modifies this
      ensures match WithBotoAttrs(reg, codec, cls, old(attrs), response)
        case Success(a) => raised == None && attrs == a
        case Failure(e) => raised == Some(e) && attrs == old(attrs)
    {
      match WithBotoAttrs(reg, codec, cls, attrs, response)
      case Success(a) => attrs := a; raised := None;
      case Failure(e) => raised := Some(e);
    }

    /**
     * `_invoke_api(method, members)`: send the listed members to the named
     * operation and merge the response. `sent` is the request the client
     * received, None when converting the members failed before any call.
     */
    method InvokeApi(operation: string, members: set<string>) returns (sent: Option<map<string, Value>>, raised: Option<Exception>)
      requires Valid()
      modifies this
      ensures Invocation(sent, raised, attrs) == Invoke(reg, codec, cls, client, old(attrs), operation, members)
      ensures match InvokeRequest(reg, codec, cls, old(attrs), members)
        case Failure(e) => sent == None && raised == Some(e) && attrs == old(attrs)
        case Success(request) =>
          && sent == Some(request)
          && match client(operation, request)
             case Failure(e) => raised == Some(e) && attrs == old(attrs)
             case Success(response) =>
               match WithBotoAttrs(reg, codec, cls, old(attrs), response)
               case Success(a) => raised == None && attrs == a
               case Failure(e) => raised == Some(e) && attrs == old(attrs)
    {
      match InvokeRequest(reg, codec, cls, attrs, members)
      case Failure(e) =>
        sent := None;
        raised := Some(e);
      case Success(request) =>
        sent := Some(request);
        match client(operation, request)
        case Failure(e) => raised := Some(e);
        case Success(response) => raised := WithBoto(response);
    }
  }

  /** `cls._construct(method, client, **kwargs)`: a new record whose keyword arguments are sent to the operation. */
  method Construct(reg: Registry, codec: NameCodec, cls: string, client: Client, operation: string, kwargs: map<string, Value>)
    returns (r: Record, sent: Option<map<string, Value>>, raised: Option<Exception>)
    requires WellFormed(reg, codec) && cls in reg
    ensures fresh(r) && r.Valid() && r.reg == reg && r.codec == codec && r.cls == cls && r.client == client
    ensures Invocation(sent, raised, r.attrs) == Invoke(reg, codec, cls, client, kwargs, operation, kwargs.Keys)
    ensures sent == (if InvokeRequest(reg, codec, cls, kwargs, kwargs.Keys).Success? then Some(InvokeRequest(reg, codec, cls, kwargs, kwargs.Keys).value) else None)
    ensures raised.None? ==>
      (&& sent.Some? && client(operation, sent.value).Success?
       && WithBotoAttrs(reg, codec, cls, kwargs, client(operation, sent.value).value) == Success(r.attrs))
  {
    r := new Record(reg, codec, cls, client, kwargs);
    sent, raised := r.InvokeApi(operation, kwargs.Keys);
  }

  // ---------------------------------------------------------------------------
  // Paginated listing: Record._list

  /** The list operation of the client: the page number (counting calls) and the request, to a response. */
  type Lister = (nat, map<string, Value>) -> Result<Value>

  datatype ListOutcome = Exhausted | Raised(error: Exception) | OutOfFuel

  /** What a listing did: the requests it sent, the items it yielded, and how it ended. */
  datatype ListTrace = ListTrace(requests: seq<map<string, Value>>, items: seq<Value>, outcome: ListOutcome)

  /** The request for one page: the base request, plus the token when it is truthy. */
  function PageRequest(base: map<string, Value>, tokenName: string, token: Value): map<string, Value> {
    if Truthy(token) then base[tokenName := token] else base
  }

  /** `response.get(name, default)`; a response that is not a dict has no `get`. */
  function Get(response: Value, name: string, default: Value): Result<Value> {
    if !response.DictV? then Failure(AttributeError("object has no attribute 'get'"))
    else if name in response.entries then Success(response.entries[name])
    else Success(default)
  }

  /** The items of one page; iterating anything but a list is not modelled and counts as a TypeError. */
  function PageItems(response: Value, itemsName: string): Result<seq<Value>> {
    match Get(response, itemsName, ListV([]))
    case Failure(e) => Failure(e)
    case Success(v) => if v.ListV? then Success(v.items) else Failure(TypeError("object is not iterable"))
  }

  /** The next token of a page (None when absent). */
  function NextToken(response: Value, tokenName: string): Value {
    if response.DictV? && tokenName in response.entries then response.entries[tokenName] else NoneV
  }

  /** `[factory(item) for item in items]`, stopping at the first item the factory cannot build. */
  function Produce(factory: Value -> Result<Value>, items: seq<Value>): (r: (seq<Value>, Option<Exception>))
    ensures |r.0| <= |items|
    ensures r.1.None? ==> |r.0| == |items|
    ensures forall i :: 0 <= i < |r.0| ==> factory(items[i]) == Success(r.0[i])
    ensures r.1.Some? ==> |r.0| < |items| && factory(items[|r.0|]) == Failure(r.1.value)
  {
    if |items| == 0 then ([], None)
    else match factory(items[0])
      case Failure(e) => ([], Some(e))
      case Success(x) =>
        var rest := Produce(factory, items[1..]);
        ([x] + rest.0, rest.1)
  }

  /** What fetching one page does: the request, the items built, the outcome if the listing ends here, and the next token. */
  datatype PageStep = PageStep(request: map<string, Value>, built: seq<Value>, ended: Option<ListOutcome>, next: Value)

  function Step(lister: Lister, base: map<string, Value>, itemsName: string, tokenName: string,
                factory: Value -> Result<Value>, page: nat, token: Value): (st: PageStep)
    ensures st.ended.None? ==> Truthy(st.next)
    ensures st.ended != Some(OutOfFuel)
  {
    var request := PageRequest(base, tokenName, token);
    match lister(page, request)
    case Failure(e) => PageStep(request, [], Some(Raised(e)), NoneV)
    case Success(response) =>
      match PageItems(response, itemsName)
      case Failure(e) => PageStep(request, [], Some(Raised(e)), NoneV)
      case Success(items) =>
        var (built, failed) := Produce(factory, items);
        var next := NextToken(response, tokenName);
        if failed.Some? then PageStep(request, built, Some(Raised(failed.value)), next)
        else if !Truthy(next) then PageStep(request, built, Some(Exhausted), next)
        else PageStep(request, built, None, next)
  }

  /**
   * The listing from page `page` on, with token `token`, making at most
   * `fuel` more calls, each page fetched by `step`.
   */
  function Pages(step: (nat, Value) -> PageStep, page: nat, token: Value, fuel: nat): ListTrace
    decreases fuel
  {
    if fuel == 0 then ListTrace([], [], OutOfFuel)
    else
      var st := step(page, token);
      if st.ended.Some? then ListTrace([st.request], st.built, st.ended.value)
      else
        var rest := Pages(step, page + 1, st.next, fuel - 1);
        ListTrace([st.request] + rest.requests, st.built + rest.items, rest.outcome)
  }

  /** The listing of `lister` from page `page` on, with token `token`, making at most `fuel` more calls. */
  function Walk(lister: Lister, base: map<string, Value>, itemsName: string, tokenName: string,
                factory: Value -> Result<Value>, page: nat, token: Value, fuel: nat): ListTrace
  {
    Pages(Stepper(lister, base, itemsName, tokenName, factory), page, token, fuel)
  }

  /** Fetching one page of `lister`'s listing, as a function of the page number and the token. */
  function Stepper(lister: Lister, base: map<string, Value>, itemsName: string, tokenName: string,
                   factory: Value -> Result<Value>): (nat, Value) -> PageStep
  {
    (p: nat, t: Value) => Step(lister, base, itemsName, tokenName, factory, p, t)
  }

  /** One page of a listing: it ends the listing, or its request and items come before the rest. */
  lemma WalkStep(lister: Lister, base: map<string, Value>, itemsName: string, tokenName: string,
                 factory: Value -> Result<Value>, page: nat, token: Value, fuel: nat)
    requires fuel > 0
    ensures var st := Step(lister, base, itemsName, tokenName, factory, page, token);
      Walk(lister, base, itemsName, tokenName, factory, page, token, fuel)
      == if st.ended.Some? then ListTrace([st.request], st.built, st.ended.value)
         else Glue([st.request], st.built, Walk(lister, base, itemsName, tokenName, factory, page + 1, st.next, fuel - 1))
  {
    assert Stepper(lister, base, itemsName, tokenName, factory)(page, token) == Step(lister, base, itemsName, tokenName, factory, page, token);
  }

  /** `for item in items: yield factory(item)`, stopping at the first failure. */
  method BuildItems(factory: Value -> Result<Value>, items: seq<Value>) returns (built: seq<Value>, failed: Option<Exception>)
    ensures (built, failed) == Produce(factory, items)
  {
    built, failed := [], None;
    var i := 0;
    assert items[0..] == items;
    assert built + Produce(factory, items).0 == Produce(factory, items).0;
    while i < |items|
      invariant 0 <= i <= |items|
      invariant Produce(factory, items).0 == built + Produce(factory, items[i..]).0
      invariant Produce(factory, items).1 == Produce(factory, items[i..]).1
    {
      match factory(items[i])
      case Failure(e) =>
        assert Produce(factory, items[i..]) == ([], Some(e));
        failed := Some(e);
        assert Produce(factory, items).0 == built;
        assert Produce(factory, items).1 == failed;
        return;
      case Success(x) =>
        assert items[i..][1..] == items[i + 1..];
        assert Produce(factory, items[i..]).0 == [x] + Produce(factory, items[i + 1..]).0;
        built := built + [x];
        i := i + 1;
    }
    assert items[i..] == [];
    assert Produce(factory, items).0 == built;
    assert Produce(factory, items).1 == failed;
  }

  /** Fetch one page and build its items. */
  method FetchPage(lister: Lister, base: map<string, Value>, itemsName: string, tokenName: string,
                   factory: Value -> Result<Value>, page: nat, token: Value) returns (st: PageStep)
    ensures st == Step(lister, base, itemsName, tokenName, factory, page, token)
  {
    var request := PageRequest(base, tokenName, token);
    var response := lister(page, request);
    if response.Failure? {
      return PageStep(request, [], Some(Raised(response.error)), NoneV);
    }
    var pageItems := PageItems(response.value, itemsName);
    if pageItems.Failure? {
      return PageStep(request, [], Some(Raised(pageItems.error)), NoneV);
    }
    var built, failed := BuildItems(factory, pageItems.value);
    var next := NextToken(response.value, tokenName);
    if failed.Some? {
      st := PageStep(request, built, Some(Raised(failed.value)), next);
    } else if !Truthy(next) {
      st := PageStep(request, built, Some(Exhausted), next);
    } else {
      st := PageStep(request, built, None, next);
    }
  }

  /** `list(cls._list(...))` with at most `fuel` calls: the kwargs are converted once; then pages are fetched until a falsy token. */
  method List(reg: Registry, codec: NameCodec, c: string, lister: Lister, kwargs: map<string, Value>,
              itemsName: string, tokenName: string, factory: Value -> Result<Value>, fuel: nat)
    returns (requests: seq<map<string, Value>>, items: seq<Value>, outcome: ListOutcome)
    requires WellFormed(reg, codec) && c in reg
    ensures ToBotoVars(reg, codec, c, DictV(kwargs)).Failure? ==>
      requests == [] && items == [] && outcome == Raised(ToBotoVars(reg, codec, c, DictV(kwargs)).error)
    ensures ToBotoVars(reg, codec, c, DictV(kwargs)).Success? ==>
      ListTrace(requests, items, outcome) == Walk(lister, ToBotoVars(reg, codec, c, DictV(kwargs)).value, itemsName, tokenName, factory, 0, NoneV, fuel)
  {
    requests, items := [], [];
    var converted := ToBotoVars(reg, codec, c, DictV(kwargs));
    if converted.Failure? {
      outcome := Raised(converted.error);
      return;
    }
    var base := converted.value;
    ghost var whole := Walk(lister, base, itemsName, tokenName, factory, 0, NoneV, fuel);
    GlueEmpty(whole);
    var page: nat := 0;
    var token := NoneV;
    while page < fuel
      invariant page <= fuel
      invariant Glue(requests, items, Walk(lister, base, itemsName, tokenName, factory, page, token, fuel - page)) == whole
      decreases fuel - page
    {
      var st := FetchPage(lister, base, itemsName, tokenName, factory, page, token);
      ghost var rest := Walk(lister, base, itemsName, tokenName, factory, page + 1, st.next, fuel - page - 1);
      WalkStep(lister, base, itemsName, tokenName, factory, page, token, fuel - page);
      GlueAssoc(requests, items, [st.request], st.built, rest);
      requests, items := requests + [st.request], items + st.built;
      if st.ended.Some? {
        outcome := st.ended.value;
        return;
      }
      page, token := page + 1, st.next;
    }
    outcome := OutOfFuel;
    assert Walk(lister, base, itemsName, tokenName, factory, page, token, fuel - page) == ListTrace([], [], OutOfFuel);
    GlueEmpty(ListTrace(requests, items, outcome));
  }

  /** A trace preceded by requests already sent and items already yielded. */
  function Glue(requests: seq<map<string, Value>>, items: seq<Value>, rest: ListTrace): ListTrace {
    ListTrace(requests + rest.requests, items + rest.items, rest.outcome)
  }

  lemma GlueEmpty(t: ListTrace)
    ensures Glue([], [], t) == t
    ensures Glue(t.requests, t.items, ListTrace([], [], t.outcome)) == t
  {
    assert [] + t.requests == t.requests + [] == t.requests;
    assert [] + t.items == t.items + [] == t.items;
  }

  lemma GlueAssoc(r1: seq<map<string, Value>>, i1: seq<Value>, r2: seq<map<string, Value>>, i2: seq<Value>, rest: ListTrace)
    ensures Glue(r1, i1, Glue(r2, i2, rest)) == Glue(r1 + r2, i1 + i2, rest)
  {
    assert r1 + (r2 + rest.requests) == r1 + r2 + rest.requests;
    assert i1 + (i2 + rest.items) == i1 + i2 + rest.items;
  }

  /** The items one page's response yields (none when the call or the iteration fails). */
  function PageBuilt(lister: Lister, itemsName: string, factory: Value -> Result<Value>, page: nat, request: map<string, Value>): seq<Value> {
    match lister(page, request)
    case Failure(_) => []
    case Success(response) =>
      match PageItems(response, itemsName)
      case Failure(_) => []
      case Success(items) => Produce(factory, items).0
  }

  function Flatten(xs: seq<seq<Value>>): seq<Value> {
    if |xs| == 0 then [] else xs[0] + Flatten(xs[1..])
  }

  /** The items of each page a listing requested, in order. */
  function PagesBuilt(lister: Lister, itemsName: string, factory: Value -> Result<Value>, page: nat, requests: seq<map<string, Value>>): (r: seq<seq<Value>>)
    ensures |r| == |requests|
    ensures forall i :: 0 <= i < |requests| ==> r[i] == PageBuilt(lister, itemsName, factory, page + i, requests[i])
  {
    seq(|requests|, i requires 0 <= i < |requests| => PageBuilt(lister, itemsName, factory, page + i, requests[i]))
  }

  /**
   * The requests of a walk: at most `fuel` calls, the first one the request
   * of the starting step, and every two consecutive requests in relation
   * `link` when every continuing step is followed by a request in that
   * relation.
   */
  lemma {:induction false} PagesRequests(step: (nat, Value) -> PageStep, link: (nat, map<string, Value>, map<string, Value>) -> bool,
                                         page: nat, token: Value, fuel: nat)
    requires forall p: nat, tok: Value :: step(p, tok).ended.None? ==> link(p, step(p, tok).request, step(p + 1, step(p, tok).next).request)
    ensures var t := Pages(step, page, token, fuel);
      && |t.requests| <= fuel
      && (fuel > 0 <==> |t.requests| > 0)
      && (fuel > 0 ==> t.requests[0] == step(page, token).request)
      && (forall i :: 0 <= i < |t.requests| - 1 ==> link(page + i, t.requests[i], t.requests[i + 1]))
    decreases fuel
  {
    if fuel > 0 {
      var st := step(page, token);
      if st.ended.None? {
        PagesRequests(step, link, page + 1, st.next, fuel - 1);
        var rest := Pages(step, page + 1, st.next, fuel - 1);
        var t := Pages(step, page, token, fuel);
        assert t.requests == [st.request] + rest.requests;
        forall i | 0 <= i < |t.requests| - 1
          ensures link(page + i, t.requests[i], t.requests[i + 1])
        {
          if i > 0 {
            assert t.requests[i] == rest.requests[i - 1];
            assert page + i == (page + 1) + (i - 1);
          }
        }
      }
    }
  }

  /**
   * How a walk ends: `Exhausted` only at a last request for which `done`
   * holds, when every exhausted step satisfies `done`; `OutOfFuel` only after
   * `fuel` calls, when no step runs out of fuel itself.
   */
  lemma {:induction false} PagesEnd(step: (nat, Value) -> PageStep, done: (nat, map<string, Value>) -> bool,
                                    page: nat, token: Value, fuel: nat)
    requires forall p: nat, tok: Value :: step(p, tok).ended == Some(Exhausted) ==> done(p, step(p, tok).request)
    requires forall p: nat, tok: Value :: step(p, tok).ended != Some(OutOfFuel)
    ensures var t := Pages(step, page, token, fuel);
      && (t.outcome == Exhausted ==> 0 < |t.requests| && done(page + |t.requests| - 1, t.requests[|t.requests| - 1]))
      && (t.outcome == OutOfFuel ==> |t.requests| == fuel)
    decreases fuel
  {
    if fuel > 0 {
      var st := step(page, token);
      if st.ended.None? {
        PagesEnd(step, done, page + 1, st.next, fuel - 1);
        var rest := Pages(step, page + 1, st.next, fuel - 1);
        var t := Pages(step, page, token, fuel);
        assert t.requests == [st.request] + rest.requests && t.outcome == rest.outcome;
        if t.outcome == Exhausted {
          assert page + |t.requests| - 1 == (page + 1) + |rest.requests| - 1;
          assert t.requests[|t.requests| - 1] == rest.requests[|rest.requests| - 1];
        }
      }
    }
  }

  /** The items of each request, in order, under `built`. */
  function Built(built: (nat, map<string, Value>) -> seq<Value>, page: nat, requests: seq<map<string, Value>>): (r: seq<seq<Value>>)
    ensures |r| == |requests|
    ensures forall i :: 0 <= i < |requests| ==> r[i] == built(page + i, requests[i])
  {
    seq(|requests|, i requires 0 <= i < |requests| => built(page + i, requests[i]))
  }

  /** The items a walk yields are the items of its pages, in order, when each step builds the items `built` gives its request. */
  lemma {:induction false} PagesItems(step: (nat, Value) -> PageStep, built: (nat, map<string, Value>) -> seq<Value>,
                                      page: nat, token: Value, fuel: nat)
    requires forall p: nat, tok: Value :: step(p, tok).built == built(p, step(p, tok).request)
    ensures var t := Pages(step, page, token, fuel);
      t.items == Flatten(Built(built, page, t.requests))
    decreases fuel
  {
    if fuel > 0 {
      var st := step(page, token);
      var t := Pages(step, page, token, fuel);
      if st.ended.None? {
        PagesItems(step, built, page + 1, st.next, fuel - 1);
        var rest := Pages(step, page + 1, st.next, fuel - 1);
        assert t.requests == [st.request] + rest.requests && t.items == st.built + rest.items;
        var whole := Built(built, page, t.requests);
        assert whole[1..] == Built(built, page + 1, rest.requests);
      } else {
        assert t.requests == [st.request] && t.items == st.built;
        assert Built(built, page, t.requests) == [st.built];
      }
    }
  }

  /**
   * The requests of a listing: at most `fuel` calls; the first request
   * carries the starting token only when it is truthy; each later request is
   * the base request with the previous page's truthy next token.
   */
  lemma WalkRequests(lister: Lister, base: map<string, Value>, itemsName: string, tokenName: string,
                     factory: Value -> Result<Value>, page: nat, token: Value, fuel: nat)
    ensures var t := Walk(lister, base, itemsName, tokenName, factory, page, token, fuel);
      && |t.requests| <= fuel
      && (fuel > 0 <==> |t.requests| > 0)
      && (fuel > 0 ==> t.requests[0] == PageRequest(base, tokenName, token))
      && (forall i :: 0 <= i < |t.requests| - 1 ==>
            && lister(page + i, t.requests[i]).Success?
            && Truthy(NextToken(lister(page + i, t.requests[i]).value, tokenName))
            && t.requests[i + 1] == base[tokenName := NextToken(lister(page + i, t.requests[i]).value, tokenName)])
  {
    var step := Stepper(lister, base, itemsName, tokenName, factory);
    var link := (p: nat, r: map<string, Value>, r': map<string, Value>) =>
      && lister(p, r).Success?
      && Truthy(NextToken(lister(p, r).value, tokenName))
      && r' == base[tokenName := NextToken(lister(p, r).value, tokenName)];
    forall p: nat, tok: Value | step(p, tok).ended.None?
      ensures link(p, step(p, tok).request, step(p + 1, step(p, tok).next).request)
    {
      var st := Step(lister, base, itemsName, tokenName, factory, p, tok);
      assert step(p, tok) == st;
      assert step(p + 1, st.next) == Step(lister, base, itemsName, tokenName, factory, p + 1, st.next);
      StepFacts(lister, base, itemsName, tokenName, factory, p, tok);
      StepFacts(lister, base, itemsName, tokenName, factory, p + 1, st.next);
    }
    PagesRequests(step, link, page, token, fuel);
    var t := Walk(lister, base, itemsName, tokenName, factory, page, token, fuel);
    assert t == Pages(step, page, token, fuel);
    forall i | 0 <= i < |t.requests| - 1
      ensures lister(page + i, t.requests[i]).Success?
      ensures Truthy(NextToken(lister(page + i, t.requests[i]).value, tokenName))
      ensures t.requests[i + 1] == base[tokenName := NextToken(lister(page + i, t.requests[i]).value, tokenName)]
    {
      assert link(page + i, t.requests[i], t.requests[i + 1]);
    }
  }

  /**
   * How a listing ends: `Exhausted` only at a page that was fetched and whose
   * next token is falsy, `OutOfFuel` only after `fuel` calls.
   */
  lemma WalkEnd(lister: Lister, base: map<string, Value>, itemsName: string, tokenName: string,
                factory: Value -> Result<Value>, page: nat, token: Value, fuel: nat)
    ensures var t := Walk(lister, base, itemsName, tokenName, factory, page, token, fuel);
      && (t.outcome == Exhausted ==>
            && 0 < |t.requests|
            && lister(page + |t.requests| - 1, t.requests[|t.requests| - 1]).Success?
            && !Truthy(NextToken(lister(page + |t.requests| - 1, t.requests[|t.requests| - 1]).value, tokenName)))
      && (t.outcome == OutOfFuel ==> |t.requests| == fuel)
  {
    var step := Stepper(lister, base, itemsName, tokenName, factory);
    var done := (p: nat, r: map<string, Value>) => lister(p, r).Success? && !Truthy(NextToken(lister(p, r).value, tokenName));
    forall p: nat, tok: Value | step(p, tok).ended == Some(Exhausted)
      ensures done(p, step(p, tok).request)
    {
      assert step(p, tok) == Step(lister, base, itemsName, tokenName, factory, p, tok);
      StepFacts(lister, base, itemsName, tokenName, factory, p, tok);
    }
    PagesEnd(step, done, page, token, fuel);
    var t := Walk(lister, base, itemsName, tokenName, factory, page, token, fuel);
    assert t == Pages(step, page, token, fuel);
    if t.outcome == Exhausted {
      assert done(page + |t.requests| - 1, t.requests[|t.requests| - 1]);
    }
  }

  /** The items a listing yields are the items of its pages, in order. */
  lemma WalkItems(lister: Lister, base: map<string, Value>, itemsName: string, tokenName: string,
                  factory: Value -> Result<Value>, page: nat, token: Value, fuel: nat)
    ensures var t := Walk(lister, base, itemsName, tokenName, factory, page, token, fuel);
      t.items == Flatten(PagesBuilt(lister, itemsName, factory, page, t.requests))
  {
    var step := Stepper(lister, base, itemsName, tokenName, factory);
    var built := (p: nat, r: map<string, Value>) => PageBuilt(lister, itemsName, factory, p, r);
    forall p: nat, tok: Value
      ensures step(p, tok).built == built(p, step(p, tok).request)
    {
      assert step(p, tok) == Step(lister, base, itemsName, tokenName, factory, p, tok);
      StepBuilt(lister, base, itemsName, tokenName, factory, p, tok);
    }
    PagesItems(step, built, page, token, fuel);
    var t := Walk(lister, base, itemsName, tokenName, factory, page, token, fuel);
    assert Built(built, page, t.requests) == PagesBuilt(lister, itemsName, factory, page, t.requests);
  }

  /** A page step continues only after a fetched page with a truthy next token, and ends `Exhausted` only after one with a falsy token. */
  lemma StepFacts(lister: Lister, base: map<string, Value>, itemsName: string, tokenName: string,
                  factory: Value -> Result<Value>, page: nat, token: Value)
    ensures var st := Step(lister, base, itemsName, tokenName, factory, page, token);
      && st.request == PageRequest(base, tokenName, token)
      && (st.ended.None? || st.ended == Some(Exhausted) ==>
            && lister(page, st.request).Success?
            && st.next == NextToken(lister(page, st.request).value, tokenName))
      && (st.ended.None? ==> Truthy(st.next))
      && (st.ended == Some(Exhausted) ==> !Truthy(st.next))
  {
  }

  /** The items a page step builds are the items of that page. */
  lemma StepBuilt(lister: Lister, base: map<string, Value>, itemsName: string, tokenName: string,
                  factory: Value -> Result<Value>, page: nat, token: Value)
    ensures var st := Step(lister, base, itemsName, tokenName, factory, page, token);
      st.request == PageRequest(base, tokenName, token) && st.built == PageBuilt(lister, itemsName, factory, page, st.request)
  {
  }
}
