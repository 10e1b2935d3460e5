/**
 * The release tooling's commit-subject classifier: each subject's leading
 * label (`feature:`, `break:` ...) is read, canonicalised and recorded in a
 * group, and the increment type is that of the most significant group
 * present. The groups start empty and recording only extends a group that
 * already exists, so the increment type is always `patch`.
 */
module SubjectParser {
  import opened Py

  /** `_CHANGE_TYPES`, most significant first. */
  const ChangeTypes: seq<string> := ["breaking", "deprecation", "feature", "fix", "documentation", "infrastructure"]

  /** `_CANONICAL_LABELS`: short labels to their change type (looked up case-sensitively). */
  const CanonicalLabels: map<string, string> :=
    map["break" := "breaking", "feat" := "feature", "depr" := "deprecation", "change" := "fix", "doc" := "documentation"]

  /** `_CHANGE_TO_INCREMENT_TYPE_MAP`; it has no entry for `infrastructure`. */
  const ChangeToIncrementType: map<string, string> :=
    map["breaking" := "major", "feature" := "minor", "deprecation" := "minor",
        "fix" := "patch", "change" := "patch", "documentation" := "patch"]

  const DefaultLabel := "fix"

  /**
   * The labels the label group of `_PARSE_SUBJECT_REGEX` can match, in the
   * order the alternation tries them: each alternative with its optional
   * suffix first (the `?` is greedy), then without.
   */
  const LabelForms: seq<string> :=
    ["breaking", "break", "feature", "feat", "deprecation", "depr", "change", "fix", "documentation", "doc"]

  // ---------------------------------------------------------------------------
  // The label of a subject

  /**
   * Whether the subject character `c` matches the pattern's lowercase ASCII
   * letter `l` under `re.IGNORECASE`: the letter, its capital, and the
   * characters Python's `re` also folds to it (KELVIN SIGN for `k`; dotted
   * capital I and dotless i for `i`).
   */
  predicate SameLetter(c: char, l: char) {
    c == l
    || ('a' <= l <= 'z' && c as int == l as int - 32)
    || (l == 'k' && c == 'K')
    || (l == 'i' && (c == 'İ' || c == 'ı'))
  }

  /** The start of `s` spells `form` ignoring case. */
  predicate SpellsAtStart(s: string, form: string) {
    |form| <= |s| && forall i :: 0 <= i < |form| ==> SameLetter(s[i], form[i])
  }

  /** `\s*:` at the start of `t`. */
  predicate ColonFollows(t: string) {
    SpanSpaces(t) < |t| && t[SpanSpaces(t)] == ':'
  }

  /** The first of `forms` that the subject starts with, followed by `\s*:`; the text it matched. */
  function LabelFrom(subject: string, forms: seq<string>): (r: Option<string>)
    ensures r.Some? <==> exists i :: 0 <= i < |forms| && SpellsAtStart(subject, forms[i]) && ColonFollows(subject[|forms[i]|..])
    ensures r.Some? ==> exists i :: (0 <= i < |forms| && SpellsAtStart(subject, forms[i]) && ColonFollows(subject[|forms[i]|..])
      && r.value == subject[..|forms[i]|]
      && forall j :: 0 <= j < i ==> !(SpellsAtStart(subject, forms[j]) && ColonFollows(subject[|forms[j]|..])))
    decreases |forms|
  {
    if |forms| == 0 then None
    else if SpellsAtStart(subject, forms[0]) && ColonFollows(subject[|forms[0]|..]) then Some(subject[..|forms[0]|])
    else
      var r := LabelFrom(subject, forms[1..]);
      assert forall i :: 1 <= i < |forms| ==> forms[1..][i - 1] == forms[i];
      r
  }

  /**
   * `match.group("label")`: the pattern is optional as a whole, so `search`
   * always matches at the start of the subject, with or without a label.
   */
  function Label(subject: string): Option<string> {
    LabelFrom(subject, LabelForms)
  }

  /** The label `_parse_subject` files a subject under: the matched label or `fix`, canonicalised. */
  function CanonicalLabel(subject: string): (c: string)
    ensures Label(subject).None? ==> c == DefaultLabel
    ensures Label(subject).Some? && Label(subject).value in CanonicalLabels ==> c == CanonicalLabels[Label(subject).value]
    ensures Label(subject).Some? && Label(subject).value !in CanonicalLabels ==> c == Label(subject).value
  {
    var l := if Label(subject).Some? then Label(subject).value else DefaultLabel;
    if l in CanonicalLabels then CanonicalLabels[l] else l
  }

  // ---------------------------------------------------------------------------
  // Groups and the increment type

  /** What `_parse_subject` does to the groups: the subject is appended to its label's group if that group exists. */
  function Recorded(groups: map<string, seq<string>>, subject: string): (r: map<string, seq<string>>)
    ensures r.Keys == groups.Keys
    ensures forall k :: k in groups && k != CanonicalLabel(subject) ==> r[k] == groups[k]
    ensures CanonicalLabel(subject) in groups ==> r[CanonicalLabel(subject)] == groups[CanonicalLabel(subject)] + [subject]
  {
    var l := CanonicalLabel(subject);
    if l in groups then groups[l := groups[l] + [subject]] else groups
  }

  /** The groups after `_add_subjects(subjects)`. */
  function AfterSubjects(groups: map<string, seq<string>>, subjects: seq<string>): map<string, seq<string>>
    decreases |subjects|
  {
    if |subjects| == 0 then groups else AfterSubjects(Recorded(groups, subjects[0]), subjects[1..])
  }

  /** Recording subjects never creates a group. */
  lemma {:induction false} AfterSubjectsKeys(groups: map<string, seq<string>>, subjects: seq<string>)
    ensures AfterSubjects(groups, subjects).Keys == groups.Keys
    decreases |subjects|
  {
    if |subjects| > 0 {
      AfterSubjectsKeys(Recorded(groups, subjects[0]), subjects[1..]);
    }
  }

  /** The first of `types` that is a group. */
  function FirstChange(types: seq<string>, keys: set<string>): (r: Option<string>)
    ensures r.Some? <==> exists i :: 0 <= i < |types| && types[i] in keys
    ensures r.Some? ==> exists i :: (0 <= i < |types| && types[i] == r.value && r.value in keys
      && forall j :: 0 <= j < i ==> types[j] !in keys)
    decreases |types|
  {
    if |types| == 0 then None
    else if types[0] in keys then Some(types[0])
    else
      var r := FirstChange(types[1..], keys);
      assert forall i :: 1 <= i < |types| ==> types[1..][i - 1] == types[i];
      r
  }

  /**
   * `increment_type()`: the increment of the most significant change type
   * that has a group (a `KeyError` for `infrastructure`, which the table
   * lacks), else `patch`.
   */
  function IncrementFor(groups: map<string, seq<string>>): (r: Result<string>)
    ensures r.Success? ==> r.value in {"major", "minor", "patch"}
    ensures r.Failure? ==> r.error == KeyError(r.error.message) && r.error.message in groups && r.error.message !in ChangeToIncrementType
  {
    match FirstChange(ChangeTypes, groups.Keys)
    case None => Success("patch")
    case Some(t) => if t in ChangeToIncrementType then Success(ChangeToIncrementType[t]) else Failure(KeyError(t))
  }

  /** The priority the change types give, for any groups. */
  lemma IncrementPriority(groups: map<string, seq<string>>)
    ensures var keys := groups.Keys;
      IncrementFor(groups) ==
        if "breaking" in keys then Success("major")
        else if "deprecation" in keys || "feature" in keys then Success("minor")
        else if "fix" in keys || "documentation" in keys then Success("patch")
        else if "infrastructure" in keys then Failure(KeyError("infrastructure"))
        else Success("patch")
  {
    FirstChangeUnrolled(groups.Keys);
    IncrementTable();
  }

  /** The entries of the increment table for the change types. */
  lemma IncrementTable()
    ensures "breaking" in ChangeToIncrementType && ChangeToIncrementType["breaking"] == "major"
    ensures "deprecation" in ChangeToIncrementType && ChangeToIncrementType["deprecation"] == "minor"
    ensures "feature" in ChangeToIncrementType && ChangeToIncrementType["feature"] == "minor"
    ensures "fix" in ChangeToIncrementType && ChangeToIncrementType["fix"] == "patch"
    ensures "documentation" in ChangeToIncrementType && ChangeToIncrementType["documentation"] == "patch"
    ensures "infrastructure" !in ChangeToIncrementType
  {
  }

  /** The scan over the change types, written out. */
  lemma FirstChangeUnrolled(keys: set<string>)
    ensures FirstChange(ChangeTypes, keys) ==
      if "breaking" in keys then Some("breaking")
      else if "deprecation" in keys then Some("deprecation")
      else if "feature" in keys then Some("feature")
      else if "fix" in keys then Some("fix")
      else if "documentation" in keys then Some("documentation")
      else if "infrastructure" in keys then Some("infrastructure")
      else None
  {
    var t := ChangeTypes;
    assert t[1..] == ["deprecation", "feature", "fix", "documentation", "infrastructure"];
    assert t[1..][1..] == ["feature", "fix", "documentation", "infrastructure"];
    assert t[1..][1..][1..] == ["fix", "documentation", "infrastructure"];
    assert t[1..][1..][1..][1..] == ["documentation", "infrastructure"];
    assert t[1..][1..][1..][1..][1..] == ["infrastructure"];
    assert t[1..][1..][1..][1..][1..][1..] == [];
  }

  /** Whatever the subjects, a parser built from them gives `patch`: its groups stay empty. */
  lemma AlwaysPatch(subjects: seq<string>)
    ensures AfterSubjects(map[], subjects) == map[]
    ensures IncrementFor(AfterSubjects(map[], subjects)) == Success("patch")
  {
    AfterSubjectsKeys(map[], subjects);
    var g := AfterSubjects(map[], subjects);
    assert g.Keys == {};
    assert g == map[];
    IncrementPriority(g);
  }

  /** A short label is canonicalised: a subject starting `break:` is filed under `breaking`. */
  lemma BreakIsBreaking(rest: string)
    ensures CanonicalLabel("break:" + rest) == "breaking"
  {
    var s := "break:" + rest;
    assert s[..5] == "break" && s[5] == ':';
    assert LabelForms[0] == "breaking" && LabelForms[1] == "break";
    assert !SpellsAtStart(s, LabelForms[0]) by {
      assert !SameLetter(s[5], LabelForms[0][5]);
    }
    assert SpellsAtStart(s, LabelForms[1]) by {
      forall i | 0 <= i < 5 ensures SameLetter(s[i], LabelForms[1][i]) {
        assert s[i] == s[..5][i];
      }
    }
    assert s[5..][0] == ':' && SpanSpaces(s[5..]) == 0;
    LabelOf(s, 1);
  }

  /** A subject without a label is filed under `fix`. */
  lemma NoLabelIsFix()
    ensures CanonicalLabel("update docs") == "fix"
  {
    var s := "update docs";
    forall i | 0 <= i < |LabelForms|
      ensures !SpellsAtStart(s, LabelForms[i])
    {
      assert !SameLetter(s[0], LabelForms[i][0]);
    }
    assert Label(s).None?;
  }

  /** The label of a subject that spells `LabelForms[k]` followed by a colon, and spells no earlier form so. */
  lemma LabelOf(subject: string, k: nat)
    requires k < |LabelForms| && SpellsAtStart(subject, LabelForms[k]) && ColonFollows(subject[|LabelForms[k]|..])
    requires forall j :: 0 <= j < k ==> !(SpellsAtStart(subject, LabelForms[j]) && ColonFollows(subject[|LabelForms[j]|..]))
    ensures Label(subject) == Some(subject[..|LabelForms[k]|])
  {
    var r := Label(subject);
    var i :| 0 <= i < |LabelForms| && SpellsAtStart(subject, LabelForms[i]) && ColonFollows(subject[|LabelForms[i]|..])
      && r.value == subject[..|LabelForms[i]|]
      && forall j :: 0 <= j < i ==> !(SpellsAtStart(subject, LabelForms[j]) && ColonFollows(subject[|LabelForms[j]|..]));
    assert i == k;
  }

  // ---------------------------------------------------------------------------
  // The parser object

  /** `SubjectParser`: the groups of subjects by change type. */
  class SubjectParser {
    var groups: map<string, seq<string>>

    /** `SubjectParser(subjects)`: empty groups, then every subject parsed. */
    constructor(subjects: seq<string>)
      ensures groups == AfterSubjects(map[], subjects)
      ensures groups == map[]
    {
      groups := map[];
      new;
      AddSubjects(subjects);
      AlwaysPatch(subjects);
    }

    /** `_add_subjects`: each subject in turn. */
    method AddSubjects(subjects: seq<string>)
      modifies this
      ensures groups == AfterSubjects(old(groups), subjects)
    {
      var i := 0;
      while i < |subjects|
        invariant 0 <= i <= |subjects|
        invariant AfterSubjects(groups, subjects[i..]) == AfterSubjects(old(groups), subjects)
      {
        assert subjects[i..][1..] == subjects[i + 1..];
        ParseSubject(subjects[i]);
        i := i + 1;
      }
    }

    /** `_parse_subject`: the subject's label, then the subject appended to that label's group if there is one. */
    method ParseSubject(subject: string)
      modifies this
      ensures groups == Recorded(old(groups), subject)
    {
      var found := Label(subject);
      var name := if found.Some? then found.value else DefaultLabel;
      name := if name in CanonicalLabels then CanonicalLabels[name] else name;
      if name in groups {
        groups := groups[name := groups[name] + [subject]];
      }
    }

    /** `increment_type()`: the change types in order of significance, the first with a group deciding. */
    method IncrementType() returns (r: Result<string>)
      ensures r == IncrementFor(groups)
    {
      var i := 0;
      while i < |ChangeTypes|
        invariant 0 <= i <= |ChangeTypes|
        invariant FirstChange(ChangeTypes[i..], groups.Keys) == FirstChange(ChangeTypes, groups.Keys)
      {
        var changeType := ChangeTypes[i];
        if changeType in groups {
          if changeType in ChangeToIncrementType {
            return Success(ChangeToIncrementType[changeType]);
          }
          return Failure(KeyError(changeType));
        }
        assert ChangeTypes[i..][1..] == ChangeTypes[i + 1..];
        i := i + 1;
      }
      return Success("patch");
    }
  }
}
