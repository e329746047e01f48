/** The SSH version strings (version.go): printing and parsing. */
module Versions {
  import opened Wire
  import opened Text

  datatype VersionError =
    | InvalidSshVersion(text: string)
    | InvalidProtocolVersion(text: string)
    | InvalidSoftwareVersion(text: string)

  datatype ProtocolVersion = ProtocolVersion(major: int64, minor: int64, spec: string)

  datatype SoftwareVersion = SoftwareVersion(name: string, major: int64, minor: int64, patch: int64)

  datatype Version = Version(protocolName: string, protocol: ProtocolVersion, software: SoftwareVersion)

  const SPEC_KEY: string := "experimental_spec_version"

  const SOFTWARE_NAME: string := "francoismichel/ssh3"

  const THIS_VERSION: Version :=
    Version("SSH", ProtocolVersion(3, 0, "alpha-00"), SoftwareVersion(SOFTWARE_NAME, 0, 1, 7))

  /** The versions the client can fall back to. */
  const AVAILABLE_CLIENT_VERSIONS: seq<Version> := [THIS_VERSION, OldVersion(5), OldVersion(4), OldVersion(3)]

  function OldVersion(patch: int64): Version {
    Version("SSH", ProtocolVersion(3, 0, ""), SoftwareVersion(SOFTWARE_NAME, 0, 1, patch))
  }

  /** Go's zero value: what a server string that does not parse leaves behind. */
  const ZERO_VERSION: Version := Version("", ProtocolVersion(0, 0, ""), SoftwareVersion("", 0, 0, 0))

  // ----- Printing -----

  function MajorMinor(p: ProtocolVersion): string {
    Format(p.major) + ("." + Format(p.minor))
  }

  function MajorMinorPatch(v: SoftwareVersion): string {
    Format(v.major) + ("." + (Format(v.minor) + ("." + Format(v.patch))))
  }

  function SpecField(spec: string): string {
    SPEC_KEY + ("=" + spec)
  }

  /** `GetVersionString`. */
  function Print(v: Version): string {
    v.protocolName + (" " + (MajorMinor(v.protocol) + (" " + (v.software.name + (" " + PrintEnd(v))))))
  }

  function PrintEnd(v: Version): string {
    if v.protocol.spec == "" then MajorMinorPatch(v.software)
    else MajorMinorPatch(v.software) + (" " + SpecField(v.protocol.spec))
  }

  // ----- Parsing -----

  function ToNumber(s: string, error: VersionError): Result<int64, VersionError> {
    var n := Atoi(s);
    if n.Some? then Ok(n.value) else Err(error)
  }

  function ParseProtocolVersion(s: string): Result<ProtocolVersion, VersionError> {
    var fields := Split(s, '_');
    if |fields| > 2 then Err(InvalidProtocolVersion(s)) else
    var majorDotMinor := Split(fields[0], '.');
    if |majorDotMinor| != 2 then Err(InvalidProtocolVersion(s)) else
    var major :- ToNumber(majorDotMinor[0], InvalidSshVersion(s));
    var minor :- ToNumber(majorDotMinor[1], InvalidSshVersion(s));
    Ok(ProtocolVersion(major, minor, if |fields| == 2 then fields[1] else ""))
  }

  function ParseSoftwareVersion(name: string, s: string): Result<SoftwareVersion, VersionError> {
    var parts := Split(s, '.');
    if |parts| != 3 then Err(InvalidSoftwareVersion(s)) else
    var major :- ToNumber(parts[0], InvalidSoftwareVersion(s));
    var minor :- ToNumber(parts[1], InvalidSoftwareVersion(s));
    var patch :- ToNumber(parts[2], InvalidSoftwareVersion(s));
    Ok(SoftwareVersion(name, major, minor, patch))
  }

  /** One additional field: a spec version, or skipped. */
  function NextSpec(spec: string, field: string): string {
    var subfields := Split(field, '=');
    if |subfields| == 2 && subfields[0] == SPEC_KEY then subfields[1] else spec
  }

  function SpecAfter(spec: string, fields: seq<string>): string {
    if fields == [] then spec else NextSpec(SpecAfter(spec, fields[..|fields| - 1]), fields[|fields| - 1])
  }

  function Parse(s: string): Result<Version, VersionError> {
    var fields := Fields(s);
    if |fields| < 4 then Err(InvalidSshVersion(s)) else
    var protocol :- ParseProtocolVersion(fields[1]);
    var software :- ParseSoftwareVersion(fields[2], fields[3]);
    Ok(Version(fields[0], protocol.(spec := SpecAfter(protocol.spec, fields[4..])), software))
  }

  method ParseVersionString(s: string) returns (r: Result<Version, VersionError>)
    ensures r == Parse(s)
  {
    hide Fields, ParseProtocolVersion, ParseSoftwareVersion, NextSpec;
    var fields := Fields(s);
    if |fields| < 4 {
      return Err(InvalidSshVersion(s));
    }
    var protocol := ParseProtocolVersion(fields[1]);
    if protocol.Err? {
      return Err(protocol.error);
    }
    var software := ParseSoftwareVersion(fields[2], fields[3]);
    if software.Err? {
      return Err(software.error);
    }
    var spec, extra := protocol.value.spec, fields[4..];
    for i := 0 to |extra|
      invariant spec == SpecAfter(protocol.value.spec, extra[..i])
    {
      assert extra[..i + 1][..i] == extra[..i];
      spec := NextSpec(spec, extra[i]);
    }
    assert extra[..|extra|] == extra;
    r := Ok(Version(fields[0], protocol.value.(spec := spec), software.value));
  }

  // ----- Reading a printed version -----

  /** Names that survive: words for the two names, and a spec version without white space or '='. */
  predicate Printable(v: Version) {
    IsWord(v.protocolName) && IsWord(v.software.name) && NoSpace(v.protocol.spec) && '=' !in v.protocol.spec
  }

  predicate IsNumeral(c: char) { IsDigit(c) || c == '-' || c == '.' }

  predicate AllNumerals(s: string) { forall c :: c in s ==> IsNumeral(c) }

  lemma NumberFields(v: Version)
    ensures MajorMinor(v.protocol) != "" && AllNumerals(MajorMinor(v.protocol))
    ensures MajorMinorPatch(v.software) != "" && AllNumerals(MajorMinorPatch(v.software))
  {
    hide Format;
  }

  lemma NumeralsAreWords(s: string)
    requires s != "" && AllNumerals(s)
    ensures IsWord(s) && '_' !in s && '=' !in s && ' ' !in s
  {
  }

  lemma KeyHasNoSpace()
    ensures NoSpace(SPEC_KEY)
  {
  }

  lemma SpecFieldChars(key: string, spec: string)
    requires NoSpace(key) && NoSpace(spec)
    ensures NoSpace(key + ("=" + spec))
  {
  }

  lemma SpecFieldWord(spec: string)
    requires NoSpace(spec)
    ensures IsWord(SpecField(spec))
  {
    KeyHasNoSpace();
    SpecFieldChars(SPEC_KEY, spec);
  }

  lemma NoDot(x: int)
    ensures '.' !in Format(x)
  {
    hide Format;
  }

  lemma ReadMajorMinor(p: ProtocolVersion)
    ensures Split(MajorMinor(p), '.') == [Format(p.major), Format(p.minor)]
    ensures ParseProtocolVersion(MajorMinor(p)) == Ok(p.(spec := ""))
  {
    hide Format, Atoi, Split;
    NumberFields(Version("", p, SoftwareVersion("", 0, 0, 0)));
    NumeralsAreWords(MajorMinor(p));
    SplitNone(MajorMinor(p), '_');
    SplitConcat(Format(p.major), '.', Format(p.minor));
    NoDot(p.major);
    NoDot(p.minor);
    SplitNone(Format(p.major), '.');
    SplitNone(Format(p.minor), '.');
    FormatRoundTrip(p.major);
    FormatRoundTrip(p.minor);
  }

  lemma ReadMajorMinorPatch(v: SoftwareVersion)
    ensures Split(MajorMinorPatch(v), '.') == [Format(v.major), Format(v.minor), Format(v.patch)]
    ensures ParseSoftwareVersion(v.name, MajorMinorPatch(v)) == Ok(v)
  {
    hide Format, Atoi, Split;
    SplitConcat(Format(v.major), '.', Format(v.minor) + ("." + Format(v.patch)));
    SplitConcat(Format(v.minor), '.', Format(v.patch));
    NoDot(v.major);
    NoDot(v.minor);
    NoDot(v.patch);
    SplitNone(Format(v.major), '.');
    SplitNone(Format(v.minor), '.');
    SplitNone(Format(v.patch), '.');
    FormatRoundTrip(v.major);
    FormatRoundTrip(v.minor);
    FormatRoundTrip(v.patch);
  }

  lemma PrintedEnd(v: Version)
    ensures Fields(PrintEnd(v)) ==
      [MajorMinorPatch(v.software)] + if v.protocol.spec == "" then [] else Fields(SpecField(v.protocol.spec))
  {
    hide Fields, MajorMinorPatch, SpecField;
    NumberFields(v);
    NumeralsAreWords(MajorMinorPatch(v.software));
    FieldsWord(MajorMinorPatch(v.software));
    FieldsConcat(MajorMinorPatch(v.software), ' ', SpecField(v.protocol.spec));
  }

  /** The fields of a printed version, whatever its names are. */
  lemma PrintedFields(v: Version)
    ensures Fields(Print(v)) ==
      Fields(v.protocolName) + ([MajorMinor(v.protocol)] + (Fields(v.software.name) + Fields(PrintEnd(v))))
  {
    hide Fields, MajorMinor, PrintEnd;
    NumberFields(v);
    NumeralsAreWords(MajorMinor(v.protocol));
    FieldsWord(MajorMinor(v.protocol));
    var t2 := v.software.name + (" " + PrintEnd(v));
    var t1 := MajorMinor(v.protocol) + (" " + t2);
    FieldsConcat(v.protocolName, ' ', t1);
    FieldsConcat(MajorMinor(v.protocol), ' ', t2);
    FieldsConcat(v.software.name, ' ', PrintEnd(v));
  }

  /** When both names are words: four fields, then those of the spec version. */
  lemma WordFields(v: Version)
    requires IsWord(v.protocolName) && IsWord(v.software.name)
    ensures Fields(Print(v)) ==
      [v.protocolName, MajorMinor(v.protocol), v.software.name, MajorMinorPatch(v.software)]
      + if v.protocol.spec == "" then [] else Fields(SpecField(v.protocol.spec))
  {
    hide Fields, Print, MajorMinor, MajorMinorPatch, SpecField;
    PrintedFields(v);
    PrintedEnd(v);
    FieldsWord(v.protocolName);
    FieldsWord(v.software.name);
  }

  lemma ParseWords(v: Version)
    requires IsWord(v.protocolName) && IsWord(v.software.name)
    ensures var extra := if v.protocol.spec == "" then [] else Fields(SpecField(v.protocol.spec));
      Parse(Print(v)) == Ok(v.(protocol := v.protocol.(spec := SpecAfter("", extra))))
  {
    hide Fields, Print, MajorMinor, MajorMinorPatch, SpecField, ParseProtocolVersion, ParseSoftwareVersion, SpecAfter;
    WordFields(v);
    ReadMajorMinor(v.protocol);
    ReadMajorMinorPatch(v.software);
    var extra := if v.protocol.spec == "" then [] else Fields(SpecField(v.protocol.spec));
    assert Fields(Print(v))[4..] == extra;
  }

  lemma ReadSpecField(before: string, spec: string)
    requires '=' !in spec
    ensures NextSpec(before, SpecField(spec)) == spec
  {
    hide Split;
    SplitConcat(SPEC_KEY, '=', spec);
    SplitNone(SPEC_KEY, '=');
    SplitNone(spec, '=');
  }

  /** Parsing a printed version gives it back. */
  lemma RoundTrip(v: Version)
    requires Printable(v)
    ensures Parse(Print(v)) == Ok(v)
  {
    hide Fields, Print, Parse, SpecField, NextSpec;
    ParseWords(v);
    if v.protocol.spec != "" {
      SpecFieldWord(v.protocol.spec);
      FieldsWord(SpecField(v.protocol.spec));
      ReadSpecField("", v.protocol.spec);
      assert SpecAfter("", [SpecField(v.protocol.spec)]) == v.protocol.spec;
    }
  }

  lemma NextSpecFree(spec: string, field: string)
    requires NoSpace(field) && NoSpace(spec)
    ensures NoSpace(NextSpec(spec, field)) && ('=' !in spec ==> '=' !in NextSpec(spec, field))
  {
    hide Split;
    if |Split(field, '=')| == 2 {
      SplitPieces(field, '=', 1);
    }
  }

  lemma {:induction false} SpecAfterFree(spec: string, fields: seq<string>)
    requires NoSpace(spec) && forall i :: 0 <= i < |fields| ==> NoSpace(fields[i])
    ensures NoSpace(SpecAfter(spec, fields)) && ('=' !in spec ==> '=' !in SpecAfter(spec, fields))
  {
    hide NextSpec, NoSpace;
    if fields != [] {
      var before := fields[..|fields| - 1];
      assert forall i :: 0 <= i < |before| ==> NoSpace(before[i]) by {
        forall i | 0 <= i < |before| ensures NoSpace(before[i]) { assert before[i] == fields[i]; }
      }
      SpecAfterFree(spec, before);
      NextSpecFree(SpecAfter(spec, before), fields[|fields| - 1]);
    }
  }

  /** Only such a version comes back. */
  lemma RoundTripOnly(v: Version)
    requires Parse(Print(v)) == Ok(v)
    ensures Printable(v)
  {
    hide Fields, Print, ParseProtocolVersion, ParseSoftwareVersion, SpecAfter;
    FieldsAreWords(Print(v));
    assert IsWord(v.protocolName) && IsWord(v.software.name) by {
      var fields := Fields(Print(v));
      assert v.protocolName == fields[0];
      SoftwareName(fields[2], fields[3]);
    }
    ParseWords(v);
    var extra := if v.protocol.spec == "" then [] else Fields(SpecField(v.protocol.spec));
    FieldsAreWords(SpecField(v.protocol.spec));
    SpecAfterFree("", extra);
  }

  lemma SoftwareName(name: string, s: string)
    ensures ParseSoftwareVersion(name, s).Ok? ==> ParseSoftwareVersion(name, s).value.name == name
  {
  }

  /** Exactly when a printed version is read back as it was. */
  lemma RoundTripIff(v: Version)
    ensures Parse(Print(v)) == Ok(v) <==> Printable(v)
  {
    hide Parse, Print, Printable;
    if Printable(v) {
      RoundTrip(v);
    }
    if Parse(Print(v)) == Ok(v) {
      RoundTripOnly(v);
    }
  }

  /** Names free of white space are not enough: the zero version has empty ones and is lost. */
  lemma EmptyNameIsLost()
    ensures NoSpace(ZERO_VERSION.protocolName) && NoSpace(ZERO_VERSION.software.name)
    ensures NoSpace(ZERO_VERSION.protocol.spec)
    ensures Parse(Print(ZERO_VERSION)) != Ok(ZERO_VERSION)
  {
    hide Parse, Print;
    RoundTripIff(ZERO_VERSION);
  }

  // ----- Printing is injective -----

  lemma SplitEnd(v: Version)
    requires NoSpace(v.protocol.spec)
    ensures Split(PrintEnd(v), ' ') ==
      [MajorMinorPatch(v.software)] + if v.protocol.spec == "" then [] else [SpecField(v.protocol.spec)]
  {
    hide Split, MajorMinorPatch, SpecField;
    NumberFields(v);
    NumeralsAreWords(MajorMinorPatch(v.software));
    SplitNone(MajorMinorPatch(v.software), ' ');
    SpecFieldWord(v.protocol.spec);
    SplitNone(SpecField(v.protocol.spec), ' ');
    SplitConcat(MajorMinorPatch(v.software), ' ', SpecField(v.protocol.spec));
  }

  lemma SplitPrint(v: Version)
    ensures Split(Print(v), ' ') ==
      Split(v.protocolName, ' ') + ([MajorMinor(v.protocol)] + (Split(v.software.name, ' ') + Split(PrintEnd(v), ' ')))
  {
    hide Split, MajorMinor, PrintEnd;
    NumberFields(v);
    NumeralsAreWords(MajorMinor(v.protocol));
    SplitNone(MajorMinor(v.protocol), ' ');
    var t2 := v.software.name + (" " + PrintEnd(v));
    var t1 := MajorMinor(v.protocol) + (" " + t2);
    SplitConcat(v.protocolName, ' ', t1);
    SplitConcat(MajorMinor(v.protocol), ' ', t2);
    SplitConcat(v.software.name, ' ', PrintEnd(v));
  }

  lemma NumbersInjective(v: Version, w: Version)
    requires MajorMinor(v.protocol) == MajorMinor(w.protocol)
    requires MajorMinorPatch(v.software) == MajorMinorPatch(w.software)
    requires v.software.name == w.software.name
    ensures v.protocol.(spec := "") == w.protocol.(spec := "") && v.software == w.software
  {
    hide MajorMinor, MajorMinorPatch, ParseProtocolVersion, ParseSoftwareVersion;
    ReadMajorMinor(v.protocol);
    ReadMajorMinor(w.protocol);
    ReadMajorMinorPatch(v.software);
    ReadMajorMinorPatch(w.software);
  }

  lemma EndsDiffer(v: Version, spec: string)
    ensures MajorMinorPatch(v.software) != SpecField(spec)
  {
    NumberFields(v);
    NumeralsAreWords(MajorMinorPatch(v.software));
    hide MajorMinorPatch;
    assert SpecField(spec)[|SPEC_KEY|] == '=';
  }

  lemma SpecFieldInjective(spec: string, other: string)
    requires SpecField(spec) == SpecField(other)
    ensures spec == other
  {
    assert SpecField(spec)[|SPEC_KEY| + 1..] == spec && SpecField(other)[|SPEC_KEY| + 1..] == other;
  }

  /** A version whose string is that of a printable one is that version, whatever its names are. */
  lemma PrintInjective(v: Version, w: Version)
    requires Printable(w) && NoSpace(v.protocol.spec) && Print(v) == Print(w)
    ensures v == w
  {
    hide Split, Print, MajorMinor, MajorMinorPatch, PrintEnd, SpecField;
    SplitPrint(v);
    SplitPrint(w);
    SplitEnd(v);
    SplitEnd(w);
    SplitNone(w.protocolName, ' ');
    SplitNone(w.software.name, ' ');
    var names, softwareNames := Split(v.protocolName, ' '), Split(v.software.name, ' ');
    var all := Split(Print(w), ' ');
    EndsDiffer(v, w.protocol.spec);
    EndsDiffer(w, v.protocol.spec);
    assert all[|all| - 1] == if v.protocol.spec == "" then MajorMinorPatch(v.software) else SpecField(v.protocol.spec);
    assert all[|all| - 1] == if w.protocol.spec == "" then MajorMinorPatch(w.software) else SpecField(w.protocol.spec);
    assert |names| == 1 && |softwareNames| == 1;
    SplitOne(v.protocolName, ' ');
    SplitOne(v.software.name, ' ');
    SplitNone(v.protocolName, ' ');
    SplitNone(v.software.name, ' ');
    assert all[..4] == [v.protocolName, MajorMinor(v.protocol), v.software.name, MajorMinorPatch(v.software)];
    assert all[..4] == [w.protocolName, MajorMinor(w.protocol), w.software.name, MajorMinorPatch(w.software)];
    assert all[0] == all[..4][0] && all[1] == all[..4][1] && all[2] == all[..4][2] && all[3] == all[..4][3];
    if v.protocol.spec != "" {
      SpecFieldInjective(v.protocol.spec, w.protocol.spec);
    }
    NumbersInjective(v, w);
  }

  // ----- A protocol version on its own -----

  /** `ProtocolVersion.String`. */
  function PrintProtocol(p: ProtocolVersion): string {
    if p.spec == "" then MajorMinor(p) else MajorMinor(p) + ("_" + p.spec)
  }

  /** Its string is read back if and only if the specification name has no underscore. */
  lemma ProtocolRoundTripIff(p: ProtocolVersion)
    ensures ParseProtocolVersion(PrintProtocol(p)) == Ok(p) <==> '_' !in p.spec
  {
    hide Split, MajorMinor, Format, Atoi;
    ReadMajorMinor(p);
    if p.spec != "" {
      NumberFields(Version("", p, SoftwareVersion("", 0, 0, 0)));
      NumeralsAreWords(MajorMinor(p));
      SplitConcat(MajorMinor(p), '_', p.spec);
      SplitNone(MajorMinor(p), '_');
      if '_' !in p.spec {
        SplitNone(p.spec, '_');
        FormatRoundTrip(p.major);
        FormatRoundTrip(p.minor);
      } else if |Split(p.spec, '_')| == 1 {
        SplitOne(p.spec, '_');
      }
    }
  }

  /** The string this version of the program sends. */
  lemma ThisVersionOnTheWire()
    ensures Print(THIS_VERSION) ==
            "SSH" + (" " + ("3.0" + (" " + ("francoismichel/ssh3" + (" " +
            ("0.1.7" + (" " + ("experimental_spec_version" + ("=" + "alpha-00")))))))))
  {
    assert Format(0) == "0" && Format(1) == "1" && Format(3) == "3" && Format(7) == "7";
    hide Format;
    assert MajorMinor(THIS_VERSION.protocol) == "3.0" && MajorMinorPatch(THIS_VERSION.software) == "0.1.7";
  }
}
