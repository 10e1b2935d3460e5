/**
 * The release tooling's version numbers: `major.minor.patch`, the release
 * segment of PEP 440 ("Final releases"), with the optional leading `v` that
 * PEP 440's "Preceding v character" rule allows, surrounding whitespace, and
 * missing minor and patch numbers read as 0.
 */
module Version {
  import opened Py

  datatype Version = Version(major: int, minor: int, patch: int)

  /** A version whose numbers are all non-negative, as every parsed version is. */
  predicate Natural(v: Version) {
    v.major >= 0 && v.minor >= 0 && v.patch >= 0
  }

  /** `str(version)`: the three numbers joined by dots, a string the version pattern matches. */
  function ToString(v: Version): (s: string)
    ensures Natural(v) ==>
      Spells(s, "", "", NatToDigits(v.major), Some(NatToDigits(v.minor)), Some(NatToDigits(v.patch)), "")
  {
    JoinedPieces(IntToString(v.major), IntToString(v.minor), IntToString(v.patch));
    IntToString(v.major) + "." + IntToString(v.minor) + "." + IntToString(v.patch)
  }

  /** The `tag` attribute: `v` followed by the version, a string the version pattern matches. */
  function Tag(v: Version): (s: string)
    ensures Natural(v) ==>
      Spells(s, "", "v", NatToDigits(v.major), Some(NatToDigits(v.minor)), Some(NatToDigits(v.patch)), "")
  {
    JoinedPieces(IntToString(v.major), IntToString(v.minor), IntToString(v.patch));
    "v" + ToString(v)
  }

  /**
   * `version.increment(increment_type)`: a new major version with minor and
   * patch 0, a new minor version with patch 0, a new patch version, or None
   * for any other increment type.
   */
  function Increment(v: Version, incrementType: string): (r: Option<Version>)
    ensures r.Some? <==> incrementType in {"major", "minor", "patch"}
    ensures r.Some? ==> Below(v, r.value)
    ensures r.Some? && incrementType != "patch" ==> r.value.patch == 0
    ensures r.Some? && incrementType == "major" ==> r.value.minor == 0
    ensures incrementType == "major" ==> r.value.major == v.major + 1
    ensures incrementType == "minor" ==> r.value.major == v.major && r.value.minor == v.minor + 1
    ensures incrementType == "patch" ==> r.value.major == v.major && r.value.minor == v.minor && r.value.patch == v.patch + 1
  {
    if incrementType == "major" then Some(Version(v.major + 1, 0, 0))
    else if incrementType == "minor" then Some(Version(v.major, v.minor + 1, 0))
    else if incrementType == "patch" then Some(Version(v.major, v.minor, v.patch + 1))
    else None
  }

  /** Version precedence: major, then minor, then patch. */
  predicate Below(a: Version, b: Version) {
    a.major < b.major
    || (a.major == b.major && a.minor < b.minor)
    || (a.major == b.major && a.minor == b.minor && a.patch < b.patch)
  }

  // ---------------------------------------------------------------------------
  // Parsing

  /** `v?` under IGNORECASE: one leading `v` or `V` is dropped. */
  function SkipV(t: string): (r: string)
    ensures |r| <= |t|
  {
    if |t| > 0 && (t[0] == 'v' || t[0] == 'V') then t[1..] else t
  }

  /** `(?:\.(?P<name>\d+))?` followed by `int(match.group(name) or 0)`: the number and what is left. */
  function OptionalPart(t: string): (r: (nat, string))
    ensures |r.1| <= |t|
  {
    if |t| > 0 && t[0] == '.' && SpanDigits(t[1..]) > 0 then
      var n := SpanDigits(t[1..]);
      (DigitsToNat(t[1..][..n]), t[1..][n..])
    else (0, t)
  }

  /** The part of the pattern after the `v`: `\d+`, two optional parts, then `\s*$`. */
  function ParseNumbers(t: string): (r: Option<Version>)
    ensures r.Some? ==> Natural(r.value)
  {
    var n := SpanDigits(t);
    if n == 0 then None
    else
      var (minor, t2) := OptionalPart(t[n..]);
      var (patch, t3) := OptionalPart(t2);
      if SpanSpaces(t3) == |t3| then Some(Version(DigitsToNat(t[..n]), minor, patch)) else None
  }

  /**
   * `parse(version)`: the version the pattern `^\s*v?(\d+)(\.\d+)?(\.\d+)?\s*$`
   * (case-insensitive) reads, or `ValueError` when it does not match.
   */
  function Parse(s: string): (r: Result<Version>)
    ensures r.Failure? ==> r.error == ValueError("invalid version: " + s)
    ensures r.Success? ==> Natural(r.value)
  {
    match ParseNumbers(SkipV(s[SpanSpaces(s)..]))
    case None => Failure(ValueError("invalid version: " + s))
    case Some(v) => Success(v)
  }

  /** `next_version_from_current_version(current_version, increment_type)`. */
  function NextVersionFromCurrentVersion(currentVersion: string, incrementType: string): (r: Result<Option<Version>>)
    ensures Parse(currentVersion).Failure? ==> r == Failure(Parse(currentVersion).error)
    ensures Parse(currentVersion).Success? ==> r == Success(Increment(Parse(currentVersion).value, incrementType))
  {
    match Parse(currentVersion)
    case Failure(e) => Failure(e)
    case Success(v) => Success(Increment(v, incrementType))
  }

  // ---------------------------------------------------------------------------
  // What parse accepts

  predicate AllSpaces(w: string) {
    forall i :: 0 <= i < |w| ==> IsSpace(w[i])
  }

  /** A run of spaces stops at the first character that is not one. */
  lemma {:induction false} SpanSpacesOver(w: string, t: string)
    requires AllSpaces(w) && (|t| == 0 || !IsSpace(t[0]))
    ensures SpanSpaces(w + t) == |w|
    decreases |w|
  {
    if |w| > 0 {
      assert (w + t)[1..] == w[1..] + t;
      SpanSpacesOver(w[1..], t);
    } else {
      assert w + t == t;
    }
  }

  /** A run of digits stops at the first character that is not one. */
  lemma {:induction false} SpanDigitsOver(d: string, t: string)
    requires AllDigits(d) && (|t| == 0 || !IsDigit(t[0]))
    ensures SpanDigits(d + t) == |d|
    decreases |d|
  {
    if |d| > 0 {
      assert (d + t)[1..] == d[1..] + t;
      SpanDigitsOver(d[1..], t);
    } else {
      assert d + t == t;
    }
  }

  /** The text of an optional `.number` part: empty, or a dot and its digits. */
  function Part(d: Option<string>): string {
    if d.Some? then "." + d.value else ""
  }

  predicate DigitPart(d: Option<string>) {
    d.Some? ==> |d.value| > 0 && AllDigits(d.value)
  }

  function PartValue(d: Option<string>): nat {
    if d.Some? then DigitsToNat(d.value) else 0
  }

  /** One optional part reads its number and leaves what follows, when what follows does not start with a digit. */
  lemma OptionalPartReads(d: Option<string>, t: string)
    requires DigitPart(d) && (|t| == 0 || !IsDigit(t[0])) && (d.None? ==> |t| == 0 || t[0] != '.')
    ensures OptionalPart(Part(d) + t) == (PartValue(d), t)
  {
    if d.Some? {
      var u := Part(d) + t;
      assert u[1..] == d.value + t;
      SpanDigitsOver(d.value, t);
      assert (d.value + t)[..|d.value|] == d.value;
      assert (d.value + t)[|d.value|..] == t;
    } else {
      assert Part(d) + t == t;
    }
  }

  /** What follows the optional `v`: the major digits, the optional parts and the trailing whitespace. */
  lemma NumbersAccepted(major: string, minor: Option<string>, patch: Option<string>, trail: string)
    requires AllSpaces(trail) && |major| > 0 && AllDigits(major) && DigitPart(minor) && DigitPart(patch)
    requires minor.None? ==> patch.None?
    ensures ParseNumbers(major + (Part(minor) + (Part(patch) + trail)))
      == Some(Version(DigitsToNat(major), PartValue(minor), PartValue(patch)))
  {
    var afterMajor := Part(minor) + (Part(patch) + trail);
    var body := major + afterMajor;
    var n := SpanDigits(body);
    assert n == |major| by {
      SpanDigitsOver(major, afterMajor);
    }
    assert body[..n] == major && body[n..] == afterMajor;
    assert OptionalPart(afterMajor) == (PartValue(minor), Part(patch) + trail) by {
      OptionalPartReads(minor, Part(patch) + trail);
    }
    assert OptionalPart(Part(patch) + trail) == (PartValue(patch), trail) by {
      OptionalPartReads(patch, trail);
    }
    assert SpanSpaces(trail) == |trail| by {
      SpanSpacesOver(trail, "");
      assert trail + "" == trail;
    }
  }

  /** Leading whitespace and the optional `v` are skipped. */
  lemma PrefixSkipped(lead: string, v: string, body: string)
    requires AllSpaces(lead) && v in {"", "v", "V"} && |body| > 0 && IsDigit(body[0])
    ensures Parse(lead + (v + body)) == match ParseNumbers(body)
      case None => Failure(ValueError("invalid version: " + (lead + (v + body))))
      case Some(x) => Success(x)
  {
    var s := lead + (v + body);
    SpanSpacesOver(lead, v + body);
    assert s[|lead|..] == v + body;
    assert SkipV(v + body) == body;
  }

  /**
   * `parse` accepts leading whitespace, an optional `v` or `V`, the major
   * digits, an optional `.minor` and an optional `.patch`, and trailing
   * whitespace, and reads the missing parts as 0 (leading zeros allowed).
   */
  lemma ParseAccepts(lead: string, v: string, major: string, minor: Option<string>, patch: Option<string>, trail: string)
    requires AllSpaces(lead) && AllSpaces(trail) && v in {"", "v", "V"}
    requires |major| > 0 && AllDigits(major) && DigitPart(minor) && DigitPart(patch)
    requires minor.None? ==> patch.None?
    ensures Parse(lead + (v + (major + (Part(minor) + (Part(patch) + trail)))))
      == Success(Version(DigitsToNat(major), PartValue(minor), PartValue(patch)))
  {
    NumbersAccepted(major, minor, patch, trail);
    PrefixSkipped(lead, v, major + (Part(minor) + (Part(patch) + trail)));
  }

  /**
   * `s` is leading whitespace, an optional `v` or `V`, the major digits, an
   * optional `.minor`, an optional `.patch` (only after a minor part) and
   * trailing whitespace: the strings the pattern matches.
   */
  predicate Spells(s: string, lead: string, v: string, major: string, minor: Option<string>, patch: Option<string>, trail: string) {
    && AllSpaces(lead) && AllSpaces(trail) && v in {"", "v", "V"}
    && |major| > 0 && AllDigits(major) && DigitPart(minor) && DigitPart(patch)
    && (minor.None? ==> patch.None?)
    && s == lead + (v + (major + (Part(minor) + (Part(patch) + trail))))
  }

  /** The whitespace `SpanSpaces` counts is all whitespace. */
  lemma {:induction false} SpanSpacesPrefix(s: string)
    ensures AllSpaces(s[..SpanSpaces(s)])
    decreases |s|
  {
    if |s| > 0 && IsSpace(s[0]) {
      SpanSpacesPrefix(s[1..]);
      assert s[..SpanSpaces(s)] == [s[0]] + s[1..][..SpanSpaces(s[1..])];
    }
  }

  /** The digits `SpanDigits` counts are all digits. */
  lemma {:induction false} SpanDigitsPrefix(s: string)
    ensures AllDigits(s[..SpanDigits(s)])
    decreases |s|
  {
    if |s| > 0 && IsDigit(s[0]) {
      SpanDigitsPrefix(s[1..]);
      assert s[..SpanDigits(s)] == [s[0]] + s[1..][..SpanDigits(s[1..])];
    }
  }

  /** What `OptionalPart` consumes is a part, and it reads that part's value. */
  lemma OptionalPartSplits(t: string) returns (d: Option<string>)
    ensures DigitPart(d) && t == Part(d) + OptionalPart(t).1 && OptionalPart(t).0 == PartValue(d)
    ensures d.Some? <==> |t| > 0 && t[0] == '.' && SpanDigits(t[1..]) > 0
  {
    if |t| > 0 && t[0] == '.' && SpanDigits(t[1..]) > 0 {
      var n := SpanDigits(t[1..]);
      d := Some(t[1..][..n]);
      SpanDigitsPrefix(t[1..]);
      assert t == "." + t[1..][..n] + t[1..][n..];
    } else {
      d := None;
      assert t == "" + t;
    }
  }

  /** Leading whitespace and an optional `v` or `V` come before what `parse` hands to `ParseNumbers`. */
  lemma PrefixSpelled(s: string) returns (lead: string, v: string)
    ensures AllSpaces(lead) && v in {"", "v", "V"} && s == lead + (v + SkipV(s[SpanSpaces(s)..]))
  {
    var k := SpanSpaces(s);
    SpanSpacesPrefix(s);
    lead := s[..k];
    var rest := s[k..];
    v := if |rest| > 0 && rest[0] == 'v' then "v" else if |rest| > 0 && rest[0] == 'V' then "V" else "";
    assert rest == v + SkipV(rest);
    assert s == lead + rest;
  }

  /** What `ParseNumbers` accepts is major digits, optional parts and trailing whitespace. */
  lemma NumbersSpelled(t: string) returns (major: string, minor: Option<string>, patch: Option<string>, trail: string)
    requires ParseNumbers(t).Some?
    ensures AllSpaces(trail) && |major| > 0 && AllDigits(major) && DigitPart(minor) && DigitPart(patch)
    ensures minor.None? ==> patch.None?
    ensures t == major + (Part(minor) + (Part(patch) + trail))
  {
    var n := SpanDigits(t);
    SpanDigitsPrefix(t);
    major := t[..n];
    var t1 := t[n..];
    assert t == major + t1;
    minor := OptionalPartSplits(t1);
    var t2 := OptionalPart(t1).1;
    patch := OptionalPartSplits(t2);
    trail := OptionalPart(t2).1;
    SpanSpacesPrefix(trail);
    assert trail[..|trail|] == trail;
  }

  /** `parse` succeeds on exactly the strings the pattern spells. */
  lemma ParseExactly(s: string)
    ensures Parse(s).Success? <==> exists lead, v, major, minor, patch, trail :: Spells(s, lead, v, major, minor, patch, trail)
  {
    if exists lead, v, major, minor, patch, trail :: Spells(s, lead, v, major, minor, patch, trail) {
      var lead, v, major, minor, patch, trail :| Spells(s, lead, v, major, minor, patch, trail);
      ParseAccepts(lead, v, major, minor, patch, trail);
    }
    if Parse(s).Success? {
      var lead, v := PrefixSpelled(s);
      var major, minor, patch, trail := NumbersSpelled(SkipV(s[SpanSpaces(s)..]));
      assert Spells(s, lead, v, major, minor, patch, trail);
    }
  }

  /** Digits other than ASCII ones are read too: Arabic-Indic one, dot, two. */
  lemma ParseArabicIndic()
    ensures Parse("\U{661}.\U{662}") == Success(Version(1, 2, 0))
  {
    var s := "\U{661}.\U{662}";
    assert IsDigit(s[0]) && DigitValue(s[0]) == 1 && IsDigit(s[2]) && DigitValue(s[2]) == 2;
    ParseAccepts("", "", s[..1], Some(s[2..]), None, "");
    assert s == "" + ("" + (s[..1] + (Part(Some(s[2..])) + (Part(None) + ""))));
  }

  /** `str(v)` written as the pieces `parse` reads. */
  lemma ToStringPieces(v: Version)
    requires Natural(v)
    ensures ToString(v) == "" + ("" + (NatToDigits(v.major) + (Part(Some(NatToDigits(v.minor))) + (Part(Some(NatToDigits(v.patch))) + ""))))
    ensures Tag(v) == "" + ("v" + (NatToDigits(v.major) + (Part(Some(NatToDigits(v.minor))) + (Part(Some(NatToDigits(v.patch))) + ""))))
  {
    var a, b, c := NatToDigits(v.major), NatToDigits(v.minor), NatToDigits(v.patch);
    assert ToString(v) == a + "." + b + "." + c;
    assert Part(Some(b)) == "." + b && Part(Some(c)) == "." + c;
    JoinedPieces(a, b, c);
  }

  lemma JoinedPieces(a: string, b: string, c: string)
    ensures a + "." + b + "." + c == "" + ("" + (a + (("." + b) + (("." + c) + ""))))
    ensures "v" + (a + "." + b + "." + c) == "" + ("v" + (a + (("." + b) + (("." + c) + ""))))
  {
    var r := a + (("." + b) + ("." + c));
    assert ("." + c) + "" == "." + c;
    assert a + "." + b + "." + c == r by {
      assert a + "." + b == a + ("." + b);
      assert a + ("." + b) + ("." + c) == r;
    }
    assert "" + ("" + r) == r;
    assert "" + ("v" + r) == "v" + r;
  }

  /** `parse(str(v))` gives back any version with non-negative numbers, and so does `parse(v.tag)`. */
  lemma ParseToString(v: Version)
    requires Natural(v)
    ensures Parse(ToString(v)) == Success(v)
    ensures Parse(Tag(v)) == Success(v)
  {
    var major := NatToDigits(v.major);
    var minor := Some(NatToDigits(v.minor));
    var patch := Some(NatToDigits(v.patch));
    DigitsRoundTrip(v.major);
    DigitsRoundTrip(v.minor);
    DigitsRoundTrip(v.patch);
    ToStringPieces(v);
    ParseAccepts("", "", major, minor, patch, "");
    ParseAccepts("", "v", major, minor, patch, "");
  }

  /** The pattern rejects a dangling dot. */
  lemma ParseRejectsDanglingDot()
    ensures Parse("1.").Failure?
  {
    assert SpanSpaces("1.") == 0;
    assert SpanDigits("1.") == 1 by {
      assert "1."[1..] == ".";
    }
    assert "1."[..1] == "1" && "1."[1..] == ".";
    assert SpanDigits(""[..]) == 0;
  }

  /** The pattern rejects a fourth part. */
  lemma ParseRejectsFourthPart()
    ensures Parse("1.2.3.4").Failure?
  {
    var s := "1.2.3.4";
    assert SpanSpaces(s) == 0;
    assert SpanDigits(s) == 1 by {
      assert s[1..] == ".2.3.4";
    }
    assert s[1..] == ".2.3.4" && ".2.3.4"[1..] == "2.3.4";
    assert SpanDigits("2.3.4") == 1 by {
      assert "2.3.4"[1..] == ".3.4";
    }
    assert "2.3.4"[1..] == ".3.4" && ".3.4"[1..] == "3.4";
    assert SpanDigits("3.4") == 1 by {
      assert "3.4"[1..] == ".4";
    }
    assert "3.4"[1..] == ".4";
    assert SpanSpaces(".4") == 0;
  }

  /** The pattern rejects a `v` that is not directly followed by the number. */
  lemma ParseRejectsSpacedTag()
    ensures Parse("v 1").Failure?
  {
    assert SpanSpaces("v 1") == 0;
    assert "v 1"[1..] == " 1";
    assert SpanDigits(" 1") == 0;
  }
}
